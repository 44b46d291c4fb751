/**
 * The datasource service over its catalog, graph and credential stores.
 *
 * A catalog or graph step may fail before or after it took effect, and the process may end before any
 * step. Every method keeps `Valid()` in every such outcome, so it holds after any sequence of operations.
 */
module Lifecycle {
  import opened Common
  import opened References
  import opened CatalogTables
  import opened LifecycleState

  // ---- Stores ----

  /** A step that reports an error may have taken effect all the same. */
  class GraphStore {
    var graphs: map<string, Graph>
    /** How many steps reported an error. */
    ghost var faults: nat

    constructor ()
      ensures graphs == map[]
    {
      graphs, faults := map[], 0;
    }

    method DeleteDatasourceGraph(id: string) returns (ok: bool)
      modifies this
      ensures graphs == old(graphs) - {id} || (!ok && graphs == old(graphs))
      ensures faults == old(faults) + (if ok then 0 else 1)
    {
      ok := true;
      if * {
        faults := faults + 1;
        return false;
      }
      graphs := graphs - {id};
      if * {
        faults := faults + 1;
        return false;
      }
    }

    method ReplaceDatasourceGraph(id: string, graph: Graph) returns (ok: bool)
      modifies this
      ensures graphs == old(graphs)[id := graph] || (!ok && graphs == old(graphs))
      ensures faults == old(faults) + (if ok then 0 else 1)
    {
      ok := true;
      if * {
        faults := faults + 1;
        return false;
      }
      graphs := graphs[id := graph];
      if * {
        faults := faults + 1;
        return false;
      }
    }
  }

  class CredentialStore {
    var secrets: set<string>
    /** The identifiers whose writes or removals failed, in order. */
    ghost var refusals: seq<string>

    constructor ()
      ensures secrets == {}
    {
      secrets, refusals := {}, [];
    }

    /** Writes one document atomically under a new identifier. */
    method Create(id: string) returns (ok: bool)
      modifies this
      ensures secrets == if ok then old(secrets) + {id} else old(secrets)
      ensures refusals == old(refusals) + (if ok then [] else [id])
    {
      ok := true;
      if * {
        refusals := refusals + [id];
        return false;
      }
      secrets := secrets + {id};
    }

    method Delete(id: string) returns (ok: bool)
      modifies this
      ensures secrets == if ok then old(secrets) - {id} else old(secrets)
      ensures id !in old(secrets) ==> !ok
      ensures refusals == old(refusals) + (if ok then [] else [id])
    {
      ok := id in secrets;
      if * {
        ok := false;
      }
      if ok {
        secrets := secrets - {id};
      } else {
        refusals := refusals + [id];
      }
    }
  }

  // ---- Service ----

  /** `Done(clean)`: the operation is durable; `clean` tells whether its cleanup skipped nothing. */
  datatype Outcome = Crashed | Refused(code: string) | Done(clean: bool)

  datatype ScanOutcome = ScanCrashed | NotFound | ScanFailure(status: ScanStatus) | ScanReady

  /** Of the candidates seen, those removed: the unreferenced ones that were not skipped. */
  ghost predicate Collected(seen: set<string>, referenced: set<string>, skipped: set<string>, removed: set<string>) {
    forall s :: s in removed <==> s in seen && s !in referenced && s !in skipped
  }

  /**
   * A cleanup after `released` secrets lost their last reference: these go, and nothing else. Only one whose
   * removal the store refused is left behind.
   */
  ghost predicate CleanedUp(before: set<string>, after: set<string>, released: set<string>, refused: seq<string>,
                            r: Outcome)
  {
    && before - released <= after <= before
    && (r == Done(true) ==> after == before - released)
    && (r.Done? ==> forall s :: s in released && s in after ==> s in refused)
    && (r.Refused? ==> after == before)
  }

  class DatasourceService {
    const catalog: Catalog
    const graphStore: GraphStore
    const credentials: CredentialStore
    /** How many foreign steps raised, beside those of the graph and credential stores. */
    ghost var raised: nat

    /** The errors met so far, in any store or foreign step. */
    ghost function Faults(): nat
      reads this`raised, graphStore`faults, credentials`refusals
    {
      raised + graphStore.faults + |credentials.refusals|
    }

    /** A foreign step, which may raise. */
    method Raises() returns (error: bool)
      modifies this`raised
      ensures raised == old(raised) + (if error then 1 else 0)
    {
      error := false;
      if * {
        error, raised := true, raised + 1;
      }
    }

    /** How often the process ended on the way. */
    ghost var ended: nat

    method Ends() returns (now: bool)
      modifies this`ended
      ensures ended == old(ended) + (if now then 1 else 0)
    {
      now := false;
      if * {
        now, ended := true, ended + 1;
      }
    }

    ghost function Here(): World
      reads catalog, graphStore, credentials
    {
      World(catalog.datasources, catalog.snapshots, catalog.jobs, graphStore.graphs, credentials.secrets)
    }

    ghost predicate Valid()
      reads catalog, graphStore, credentials
    {
      Sound(Here()) && catalog.JobsFollowTable()
    }

    constructor ()
      ensures Valid() && fresh(catalog) && fresh(graphStore) && fresh(credentials)
      ensures Here() == World(map[], map[], map[], map[], {})
    {
      catalog := new Catalog();
      graphStore := new GraphStore();
      credentials := new CredentialStore();
      raised, ended := 0, 0;
      new;
      InitiallySound();
    }

    /** Every reference is materialised before the driver is tried, so a passing test found them all. */
    method TestSecureConnection(profile: Profile) returns (ok: bool)
      modifies this`raised
      ensures ok <==> ManagedIds(profile) <= credentials.secrets && raised == old(raised)
      ensures raised >= old(raised)
    {
      var error := Raises();
      ok := ManagedIds(profile) <= credentials.secrets && !error;
    }

    method CreateSecureDatasource(id: string, profile: Profile) returns (r: Outcome)
      requires Valid()
      modifies catalog`datasources, this`raised, this`ended
      ensures ended == old(ended) + (if r == Crashed then 1 else 0)
      ensures r == Refused("datasource_connection_test_failed")
              <==> !(ManagedIds(profile) <= credentials.secrets) || Faults() > old(Faults())
      ensures r.Done? ==> r == Done(true)
      ensures r.Refused? && r.code != "datasource_connection_test_failed" ==>
                r.code == "IntegrityError" && id in old(catalog.datasources)
      ensures Valid() && HistoryKept(old(Here()), Here())
      ensures r.Done? ==>
                && id !in old(catalog.datasources) && ManagedIds(profile) <= credentials.secrets
                && Here() == Inserted(old(Here()), id, Secure(profile))
      ensures r.Refused? ==> Here() == old(Here())
      ensures r.Crashed? ==>
                Here() == old(Here()) || (ManagedIds(profile) <= credentials.secrets
                                          && Here() == Inserted(old(Here()), id, Secure(profile)))
    {
      var ok := TestSecureConnection(profile);
      if !ok {
        return Refused("datasource_connection_test_failed");
      }
      var ends := Ends();
      if ends {
        return Crashed;
      }
      if id !in catalog.datasources {
        InsertedSound(Here(), id, Secure(profile));
      }
      ok := catalog.Insert(id, Secure(profile));
      ends := Ends();
      if ends {
        return Crashed;
      }
      r := if ok then Done(true) else Refused("IntegrityError");
    }

    /**
     * A legacy datasource is stored as its raw document once its connection has been tested. A document
     * with inline secrets is refused, so a stored one names no managed secret.
     */
    method CreateDatasource(id: string, document: string, inlineSecret: bool) returns (r: Outcome)
      requires Valid()
      modifies catalog`datasources, this`raised, this`ended
      ensures ended == old(ended) + (if r == Crashed then 1 else 0)
      ensures Valid() && HistoryKept(old(Here()), Here())
      ensures r == Refused("ValueError") <==> inlineSecret
      ensures r.Done? ==> r == Done(true)
      ensures r == Refused("connection_test_failed") <==> !inlineSecret && Faults() > old(Faults())
      ensures r.Refused? && r.code != "ValueError" && r.code != "connection_test_failed" ==>
                r.code == "IntegrityError" && id in old(catalog.datasources)
      ensures r.Done? ==> id !in old(catalog.datasources) && Here() == Inserted(old(Here()), id, Legacy(document))
      ensures r.Refused? ==> Here() == old(Here())
      ensures r.Crashed? ==> Here() == old(Here()) || Here() == Inserted(old(Here()), id, Legacy(document))
    {
      if inlineSecret {
        return Refused("ValueError");
      }
      var error := Raises();
      if error {
        return Refused("connection_test_failed");
      }
      if id !in catalog.datasources {
        InsertedSound(Here(), id, Legacy(document));
      }
      var ends := Ends();
      if ends {
        return Crashed;
      }
      var ok := catalog.Insert(id, Legacy(document));
      ends := Ends();
      if ends {
        return Crashed;
      }
      r := if ok then Done(true) else Refused("IntegrityError");
    }

    // ---- Secrets ----

    /** Stores one secret; material its kind does not admit is refused before the store is asked. */
    method CreateSecret(id: string, usable: bool) returns (r: Outcome)
      requires Valid() && id !in credentials.secrets
      modifies credentials
      ensures Valid()
      ensures r == Refused("ValueError") <==> !usable
      ensures r == Refused("store_unavailable") <==> usable && Faults() > old(Faults())
      ensures r == Done(true) || r.Refused?
      ensures credentials.secrets == if r.Done? then old(credentials.secrets) + {id} else old(credentials.secrets)
    {
      if !usable {
        return Refused("ValueError");
      }
      SecretsChangedSound(Here(), credentials.secrets + {id});
      var ok := credentials.Create(id);
      r := if ok then Done(true) else Refused("store_unavailable");
    }

    lemma NewIsUnreferenced(id: string)
      requires Valid() && id !in credentials.secrets
      ensures id !in Referenced(catalog.datasources)
    {
      assert Holds(SecretsPresent, Here());
    }

    /**
     * Stores a certificate and its key, or neither: a failed second write takes the first back. Only a
     * failed rollback or the end of the process can leave the certificate, which no profile names.
     */
    method CreateClientIdentity(certificate: string, key: string, paired: bool) returns (r: Outcome)
      requires Valid() && certificate !in credentials.secrets && key !in credentials.secrets && certificate != key
      modifies credentials, this`ended
      ensures ended == old(ended) + (if r == Crashed then 1 else 0)
      ensures Valid()
      ensures r == Refused("client_pair_mismatch") <==> !paired
      ensures r.Refused? && paired ==> r.code == "store_unavailable" && Faults() > old(Faults())
      ensures r == Done(false) ==> Faults() > old(Faults()) + 1
      ensures r == Done(true) ==> credentials.secrets == old(credentials.secrets) + {certificate, key}
      ensures r.Refused? ==> credentials.secrets == old(credentials.secrets)
      ensures r == Crashed || r == Done(false) ==>
                && credentials.secrets == old(credentials.secrets) + {certificate}
                && certificate !in Referenced(catalog.datasources)
    {
      if !paired {
        return Refused("client_pair_mismatch");
      }
      ghost var start := credentials.secrets;
      NewIsUnreferenced(certificate);
      SecretsChangedSound(Here(), start + {certificate});
      SecretsChangedSound(Here(), start + {certificate} + {key});
      SecretsChangedSound(Here(), start + {certificate} - {certificate});
      assert start + {certificate} - {certificate} == start;
      var ok := credentials.Create(certificate);
      if !ok {
        return Refused("store_unavailable");
      }
      var ends := Ends();
      if ends {
        return Crashed;
      }
      ok := credentials.Create(key);
      if ok {
        return Done(true);
      }
      ok := credentials.Delete(certificate);
      r := if ok then Refused("store_unavailable") else Done(false);
    }

    /** `delete_secret`: only an existing secret with no reference left is removed. */
    method DeleteSecret(id: string) returns (r: Outcome)
      requires Valid()
      modifies credentials
      ensures Valid()
      ensures r == Refused("managed_secret_not_found") <==> id !in old(credentials.secrets)
      ensures r == Refused("managed_secret_in_use")
              <==> id in old(credentials.secrets) && id in Referenced(catalog.datasources)
      ensures r == Done(true) || r.Refused?
      ensures r.Done? ==> id in old(credentials.secrets) && id !in Referenced(catalog.datasources)
      ensures credentials.refusals
              == old(credentials.refusals) + (if r == Refused("store_unavailable") then [id] else [])
      ensures r.Refused? && r.code !in {"managed_secret_not_found", "managed_secret_in_use"} ==>
                r.code == "store_unavailable"
      ensures credentials.secrets == if r.Done? then old(credentials.secrets) - {id} else old(credentials.secrets)
    {
      if id !in credentials.secrets {
        return Refused("managed_secret_not_found");
      }
      var n := catalog.CountManagedSecretReferences(id);
      UncountedIsUnreferenced(catalog.datasources, id);
      if n > 0 {
        return Refused("managed_secret_in_use");
      }
      SecretsChangedSound(Here(), credentials.secrets - {id});
      var ok := credentials.Delete(id);
      r := if ok then Done(true) else Refused("store_unavailable");
    }

    /** One candidate of a cleanup: kept while referenced, else deleted if the store allows it. */
    method Collect(id: string) returns (failed: bool, ghost gone: bool)
      requires Valid()
      modifies credentials
      ensures Valid()
      ensures gone <==> id !in Referenced(catalog.datasources) && !failed
      ensures failed ==> id !in Referenced(catalog.datasources) && id in credentials.secrets
      ensures credentials.refusals == old(credentials.refusals) + (if failed then [id] else [])
      ensures credentials.secrets == old(credentials.secrets) - (if gone then {id} else {})
    {
      failed, gone := false, false;
      var n := catalog.CountManagedSecretReferences(id);
      UncountedIsUnreferenced(catalog.datasources, id);
      if n == 0 {
        var r := DeleteSecret(id);
        failed := !r.Done? && id in credentials.secrets;
        gone := !failed;
      }
    }

    /**
     * Garbage collection after a durable change: a candidate is removed when no stored profile
     * references it, and kept otherwise. A failure skips that secret only.
     */
    method CleanupUnreferencedSecrets(candidates: set<string>, ghost released: set<string>) returns (r: Outcome)
      requires Valid()
      requires released == set s | s in candidates && s !in Referenced(catalog.datasources)
      modifies credentials, this`ended
      ensures ended == old(ended) + (if r == Crashed then 1 else 0)
      ensures Valid() && !r.Refused? && old(credentials.refusals) <= credentials.refusals
      ensures CleanedUp(old(credentials.secrets), credentials.secrets, released,
                        credentials.refusals[|old(credentials.refusals)|..], r)
    {
      var todo, skipped: set<string> := candidates, {};
      ghost var start, removed: set<string> := credentials.secrets, {};
      ghost var referenced := Referenced(catalog.datasources);
      while todo != {}
        invariant Valid() && todo <= candidates && skipped <= candidates - todo
        invariant credentials.secrets == start - removed && ended == old(ended)
        invariant Collected(candidates - todo, referenced, skipped, removed)
        invariant old(credentials.refusals) <= credentials.refusals
        invariant forall s :: s in skipped ==> s in credentials.refusals[|old(credentials.refusals)|..]
        decreases todo
      {
        var id :| id in todo;
        var ends := Ends();
        if ends {
          return Crashed;
        }
        ghost var before := credentials.refusals;
        var failed, gone := Collect(id);
        if failed {
          assert credentials.refusals[|old(credentials.refusals)|..] == before[|old(credentials.refusals)|..] + [id];
        } else {
          assert credentials.refusals == before;
        }
        if failed {
          skipped := skipped + {id};
        } else if gone {
          removed := removed + {id};
        }
        todo := todo - {id};
      }
      r := Done(skipped == {});
    }

    // ---- Update and delete ----

    /** The graph goes first: if it cannot be removed, nothing else is touched. */
    method Unpublish(id: string, code: string) returns (stopped: Option<Outcome>)
      requires Valid()
      modifies graphStore, this`ended
      ensures ended == old(ended) + (if stopped == Some(Crashed) then 1 else 0)
      ensures Valid()
      ensures Here() == Unpublished(old(Here()), id) || (stopped.Some? && Here() == old(Here()))
      ensures stopped.Some? ==>
                || stopped.value == Crashed
                || (stopped.value == Refused(code) && graphStore.faults > old(graphStore.faults))
      ensures stopped.None? ==> graphStore.faults == old(graphStore.faults)
    {
      var ends := Ends();
      if ends {
        return Some(Crashed);
      }
      UnpublishedSound(Here(), id);
      var ok := graphStore.DeleteDatasourceGraph(id);
      if !ok {
        return Some(Refused(code));
      }
      ends := Ends();
      if ends {
        return Some(Crashed);
      }
      stopped := None;
    }

    /**
     * Switches a secure datasource to a new profile: candidate first, then the graph, the profile, the
     * scan, and last the secrets. A refusal before the graph step changes nothing; an update error may
     * leave the graph gone, the profile switched, or the scan invalidated as well, but never a secret.
     */
    method UpdateSecureDatasource(id: string, profile: Profile) returns (r: Outcome)
      requires Valid()
      modifies catalog`datasources, catalog`snapshots, graphStore, credentials, this`raised, this`ended
      ensures ended == old(ended) + (if r == Crashed then 1 else 0)
      ensures Valid() && HistoryKept(old(Here()), Here()) && old(credentials.refusals) <= credentials.refusals
      ensures r == Refused("datasource_not_found") <==> id !in old(catalog.datasources)
      ensures r == Refused("datasource_secure_profile_required")
              <==> id in old(catalog.datasources) && old(catalog.datasources)[id].connection.Legacy?
      ensures r.Refused? && id in old(catalog.datasources) && old(catalog.datasources)[id].connection.Secure? ==>
                || (r.code == "datasource_connection_test_failed"
                    && (!(ManagedIds(profile) <= old(credentials.secrets)) || Faults() > old(Faults())))
                || (r.code == "datasource_update_failed" && Faults() > old(Faults()))
      ensures CleanedUp(old(credentials.secrets), credentials.secrets,
                        Released(old(catalog.datasources), catalog.datasources),
                        credentials.refusals[|old(credentials.refusals)|..], r)
      ensures
        var before, after := old(Here()), Here().(secrets := old(credentials.secrets));
        if r.Refused? && r.code != "datasource_update_failed" then after == before
        else
          && id in before.datasources && before.datasources[id].connection.Secure?
          && var gone := Switched(Unpublished(before, id), id, profile);
          if r.Done? then after == Invalidated(gone, id) && ManagedIds(profile) <= before.secrets
          else after in [before, Unpublished(before, id), gone, Invalidated(gone, id)]
    {
      if id !in catalog.datasources {
        return Refused("datasource_not_found");
      }
      if !catalog.datasources[id].connection.Secure? {
        return Refused("datasource_secure_profile_required");
      }
      var previous := catalog.datasources[id].connection.profile;
      var ok := TestSecureConnection(profile);
      if !ok {
        return Refused("datasource_connection_test_failed");
      }
      var stopped := Unpublish(id, "datasource_update_failed");
      if stopped.Some? {
        return stopped.value;
      }
      r := SwitchAndCleanup(id, previous, profile);
    }

    /** The update once the graph is gone. */
    method SwitchAndCleanup(id: string, previous: Profile, profile: Profile) returns (r: Outcome)
      requires Valid() && id in catalog.datasources && catalog.datasources[id].connection == Secure(previous)
      requires id !in graphStore.graphs && ManagedIds(profile) <= credentials.secrets
      modifies catalog`datasources, catalog`snapshots, credentials, this`raised, this`ended
      ensures ended == old(ended) + (if r == Crashed then 1 else 0)
      ensures Valid() && HistoryKept(old(Here()), Here()) && old(credentials.refusals) <= credentials.refusals
      ensures r.Refused? ==> r.code == "datasource_update_failed" && raised > old(raised)
      ensures raised >= old(raised)
      ensures CleanedUp(old(credentials.secrets), credentials.secrets,
                        Released(old(catalog.datasources), catalog.datasources),
                        credentials.refusals[|old(credentials.refusals)|..], r)
      ensures
        var after, switched := Here().(secrets := old(credentials.secrets)), Switched(old(Here()), id, profile);
        after == Invalidated(switched, id) || (!r.Done? && after in [old(Here()), switched])
    {
      ghost var before := Here();
      var stopped := Switch(id, profile);
      if stopped.Some? {
        return stopped.value;
      }
      ReleasedByUpdate(before.datasources, id, previous, profile);
      assert catalog.datasources == Switched(before, id, profile).datasources;
      r := CleanupUnreferencedSecrets(ManagedIds(previous) - ManagedIds(profile),
                                      Released(before.datasources, catalog.datasources));
    }

    /** The profile, then the scan; an error may leave the first without the second, or both. */
    method Switch(id: string, profile: Profile) returns (stopped: Option<Outcome>)
      requires Valid() && id in catalog.datasources && catalog.datasources[id].connection.Secure?
      requires id !in graphStore.graphs && ManagedIds(profile) <= credentials.secrets
      modifies catalog`datasources, catalog`snapshots, this`raised, this`ended
      ensures ended == old(ended) + (if stopped == Some(Crashed) then 1 else 0)
      ensures Valid() && HistoryKept(old(Here()), Here()) && raised >= old(raised)
      ensures stopped.Some? ==> stopped.value == Crashed
                                || (stopped.value == Refused("datasource_update_failed") && raised > old(raised))
      ensures
        var switched := Switched(old(Here()), id, profile);
        Here() == Invalidated(switched, id) || (stopped.Some? && Here() in [old(Here()), switched])
    {
      stopped := Some(Refused("datasource_update_failed"));
      var error := Raises();
      if error {
        return;
      }
      StoreProfile(id, profile);
      var ends := Ends();
      if ends {
        return Some(Crashed);
      }
      error := Raises();
      if error {
        return;
      }
      InvalidateScan(id);
      error := Raises();
      if error {
        return;
      }
      stopped := None;
    }

    method StoreProfile(id: string, profile: Profile)
      requires Valid() && id in catalog.datasources && catalog.datasources[id].connection.Secure?
      requires id !in graphStore.graphs && ManagedIds(profile) <= credentials.secrets
      modifies catalog`datasources
      ensures Valid() && HistoryKept(old(Here()), Here()) && Here() == Switched(old(Here()), id, profile)
    {
      SwitchedSound(Here(), id, profile);
      var updated := catalog.UpdateSecureDatasource(id, profile);
    }

    method InvalidateScan(id: string)
      requires Valid() && id in catalog.datasources && id !in graphStore.graphs
      modifies catalog`datasources, catalog`snapshots
      ensures Valid() && HistoryKept(old(Here()), Here()) && Here() == Invalidated(old(Here()), id)
    {
      InvalidatedSound(Here(), id);
      var ok := catalog.InvalidateDatasourceScan(id);
    }

    /**
     * Removes a datasource: the graph first, then its rows, last the secrets it alone referenced. A delete
     * error may leave the graph gone, or the rows with it, but never removes a secret.
     */
    method DeleteDatasource(id: string) returns (r: Outcome)
      requires Valid()
      modifies catalog, graphStore, credentials, this`raised, this`ended
      ensures ended == old(ended) + (if r == Crashed then 1 else 0)
      ensures Valid() && HistoryKept(old(Here()), Here()) && old(credentials.refusals) <= credentials.refusals
      ensures r == Refused("datasource_not_found") <==> id !in old(catalog.datasources)
      ensures r.Refused? && id in old(catalog.datasources) ==>
                r.code == "datasource_delete_failed" && Faults() > old(Faults())
      ensures CleanedUp(old(credentials.secrets), credentials.secrets,
                        Released(old(catalog.datasources), catalog.datasources),
                        credentials.refusals[|old(credentials.refusals)|..], r)
      ensures
        var before, after := old(Here()), Here().(secrets := old(credentials.secrets));
        if r.Refused? && r.code != "datasource_delete_failed" then after == before
        else
          && id in before.datasources
          && if r.Done? then after == Removed(Unpublished(before, id), id)
             else after in [before, Unpublished(before, id), Removed(Unpublished(before, id), id)]
    {
      if id !in catalog.datasources {
        return Refused("datasource_not_found");
      }
      var candidates := Names(catalog.datasources[id]);
      var stopped := Unpublish(id, "datasource_delete_failed");
      if stopped.Some? {
        return stopped.value;
      }
      var error := Raises();
      if error {
        return Refused("datasource_delete_failed");
      }
      ghost var before := Here();
      ReleasedByDelete(before.datasources, id);
      RemovedSound(before, id);
      var ok := catalog.DeleteDatasource(id);
      error := Raises();
      if error {
        return Refused("datasource_delete_failed");
      }
      r := CleanupUnreferencedSecrets(candidates, Released(before.datasources, catalog.datasources));
    }

    // ---- Scanning ----

    /** Of the stores only the job's own row has changed since the start. */
    ghost predicate AtStage(start: World, job: string, id: string, status: ScanStatus)
      reads this, catalog, graphStore, credentials
    {
      Valid() && id in catalog.datasources && Here() == JobSet(start, job, Job(id, status, None))
    }

    /** One job status write; the scan only asks for moves the table allows. */
    method Advance(job: string, id: string, current: ScanStatus, status: ScanStatus, ghost start: World)
      requires AtStage(start, job, id, current) && Moves(current, status) && status != JobReady
      modifies catalog`jobs, catalog`paths
      ensures AtStage(start, job, id, status)
    {
      JobSetSound(Here(), job, Job(id, status, None));
      var ok := catalog.UpdateInitializationJob(job, status, None);
    }

    /** The same, after which the process may end. */
    method AdvanceOrEnd(job: string, id: string, current: ScanStatus, status: ScanStatus, ghost start: World)
      returns (ends: bool)
      requires AtStage(start, job, id, current) && Moves(current, status) && status != JobReady
      modifies catalog`jobs, catalog`paths, this`ended
      ensures AtStage(start, job, id, status) && ended == old(ended) + (if ends then 1 else 0)
    {
      Advance(job, id, current, status, start);
      ends := Ends();
    }

    /** A scan of `id` publishes its next graph version and commits that version, or less. */
    ghost predicate Scanned(before: World, id: string)
      requires id in before.datasources
      reads catalog, graphStore, credentials
    {
      var after := Here().(jobs := before.jobs);
      after in [before, GraphReplaced(before, id), SnapshotCommitted(GraphReplaced(before, id), id)]
    }

    /** The job ended READY: graph, active snapshot and job carry one new version of the stored connection. */
    ghost predicate Published(before: World, id: string, job: string)
      requires id in before.datasources
      reads catalog, graphStore, credentials
    {
      var version, connection := NextGraph(before, id).version, before.datasources[id].connection;
      && Here() == JobSet(SnapshotCommitted(GraphReplaced(before, id), id), job, Job(id, JobReady, Some(version)))
      && ActiveOf(Here(), id) == Some(Snapshot(version, true, connection))
    }

    /** `scan_datasource`: a job that verifies, scans, publishes the graph and then commits the catalog. */
    method ScanDatasource(id: string, job: string) returns (r: ScanOutcome)
      requires Valid() && job !in catalog.jobs
      modifies catalog, graphStore, this`raised, this`ended
      ensures ended == old(ended) + (if r == ScanCrashed then 1 else 0)
      ensures r.ScanFailure? ==> Faults() > old(Faults())
      ensures Valid() && HistoryKept(old(Here()), Here())
      ensures r.NotFound? <==> id !in old(catalog.datasources)
      ensures r.NotFound? ==> Here() == old(Here())
      ensures !r.NotFound? ==> Scanned(old(Here()), id)
      ensures r.ScanReady? ==> Published(old(Here()), id, job)
      ensures r.ScanFailure? ==>
                && job in catalog.jobs && catalog.jobs == old(catalog.jobs)[job := Job(id, r.status, None)]
                && r.status in [ConnectionFailed, ScanFailed, ProfileFailed]
                && (r.status != ProfileFailed ==> Here() == JobSet(old(Here()), job, Job(id, r.status, None)))
    {
      if id !in catalog.datasources {
        return NotFound;
      }
      ghost var before := Here();
      ghost var status;
      r, status := Observe(id, job);
      ScanApartFromJobs(before, id, job, Job(id, status, None));
      if r.ScanReady? {
        r := Publish(id, job);
      }
    }

    /** The job up to profiling: only its own row is written. */
    method Observe(id: string, job: string) returns (r: ScanOutcome, ghost status: ScanStatus)
      requires Valid() && id in catalog.datasources && job !in catalog.jobs
      modifies catalog`jobs, catalog`paths, this`raised, this`ended
      ensures ended == old(ended) + (if r == ScanCrashed then 1 else 0)
      ensures raised >= old(raised) && (r.ScanFailure? <==> raised > old(raised))
      ensures Valid() && !r.NotFound?
      ensures status != JobReady && Here() == JobSet(old(Here()), job, Job(id, status, None))
      ensures r.ScanReady? ==> status == Profiling
      ensures r.ScanFailure? ==> r.status == status && status in [ConnectionFailed, ScanFailed]
    {
      ghost var start := Here();
      status := JobCreated;
      JobSetSound(start, job, Job(id, status, None));
      var ok := catalog.CreateInitializationJob(job, id);
      var ends := Ends();
      if ends {
        return ScanCrashed, status;
      }
      r, status := Verify(id, job, start);
      if r.ScanReady? {
        r, status := Examine(id, job, start);
      }
    }

    /** The connection is tried. */
    method Verify(id: string, job: string, ghost start: World) returns (r: ScanOutcome, ghost status: ScanStatus)
      requires AtStage(start, job, id, JobCreated)
      modifies catalog`jobs, catalog`paths, this`raised, this`ended
      ensures ended == old(ended) + (if r == ScanCrashed then 1 else 0)
      ensures raised >= old(raised) && (r.ScanFailure? <==> raised > old(raised))
      ensures !r.NotFound? && status != JobReady && AtStage(start, job, id, status)
      ensures r.ScanReady? ==> status == ConnectionVerified
      ensures r.ScanFailure? ==> r.status == status == ConnectionFailed
    {
      var ends := AdvanceOrEnd(job, id, JobCreated, Verifying, start);
      if ends {
        return ScanCrashed, Verifying;
      }
      var error := Raises();
      if error {
        Advance(job, id, Verifying, ConnectionFailed, start);
        return ScanFailure(ConnectionFailed), ConnectionFailed;
      }
      ends := AdvanceOrEnd(job, id, Verifying, ConnectionVerified, start);
      return if ends then ScanCrashed else ScanReady, ConnectionVerified;
    }

    /** Metadata, relations and samples are read. */
    method Examine(id: string, job: string, ghost start: World) returns (r: ScanOutcome, ghost status: ScanStatus)
      requires AtStage(start, job, id, ConnectionVerified)
      modifies catalog`jobs, catalog`paths, this`raised, this`ended
      ensures ended == old(ended) + (if r == ScanCrashed then 1 else 0)
      ensures raised >= old(raised) && (r.ScanFailure? <==> raised > old(raised))
      ensures !r.NotFound? && status != JobReady && AtStage(start, job, id, status)
      ensures r.ScanReady? ==> status == Profiling
      ensures r.ScanFailure? ==> r.status == status == ScanFailed
    {
      var ends := AdvanceOrEnd(job, id, ConnectionVerified, Scanning, start);
      if ends {
        return ScanCrashed, Scanning;
      }
      var error := Raises();
      if error {
        Advance(job, id, Scanning, ScanFailed, start);
        return ScanFailure(ScanFailed), ScanFailed;
      }
      ends := AdvanceOrEnd(job, id, Scanning, Profiling, start);
      return if ends then ScanCrashed else ScanReady, Profiling;
    }

    /** The profiling stage: graph first, catalog second, job last. */
    method Publish(id: string, job: string) returns (r: ScanOutcome)
      requires Valid() && id in catalog.datasources
      requires job in catalog.jobs && catalog.jobs[job] == Job(id, Profiling, None)
      modifies catalog, graphStore, this`raised, this`ended
      ensures ended == old(ended) + (if r == ScanCrashed then 1 else 0)
      ensures r.ScanFailure? ==> Faults() > old(Faults())
      ensures Faults() >= old(Faults())
      ensures Valid() && HistoryKept(old(Here()), Here())
      ensures !r.NotFound? && Scanned(old(Here()), id)
      ensures r.ScanReady? ==> Published(old(Here()), id, job)
      ensures r.ScanFailure? ==>
                r.status == ProfileFailed && catalog.jobs == old(catalog.jobs)[job := Job(id, ProfileFailed, None)]
    {
      r := PublishVersion(id, job);
      if r.ScanFailure? {
        var ends := Ends();
        if ends {
          return ScanCrashed;
        }
        Advance(job, id, Profiling, ProfileFailed, Here());
      }
    }

    /** The next version in the graph and then in the catalog; a failure leaves the job to be marked. */
    method PublishVersion(id: string, job: string) returns (r: ScanOutcome)
      requires Valid() && id in catalog.datasources
      requires job in catalog.jobs && catalog.jobs[job] == Job(id, Profiling, None)
      modifies catalog, graphStore, this`raised, this`ended
      ensures ended == old(ended) + (if r == ScanCrashed then 1 else 0)
      ensures r.ScanFailure? ==> Faults() > old(Faults())
      ensures Faults() >= old(Faults())
      ensures Valid() && HistoryKept(old(Here()), Here())
      ensures !r.NotFound? && Scanned(old(Here()), id)
      ensures r.ScanReady? ==> Published(old(Here()), id, job)
      ensures r.ScanFailure? ==> r.status == ProfileFailed && catalog.jobs == old(catalog.jobs)
    {
      r := ScanFailure(ProfileFailed);
      var version := catalog.NextSnapshotVersion(id);
      NumberedOf(Here(), id);
      NextNumber(Of(catalog.snapshots, id), version);
      var connection := catalog.datasources[id].connection;
      var error := Raises();
      if !error {
        GraphReplacedSound(Here(), id);
        var ok := graphStore.ReplaceDatasourceGraph(id, Graph(version, connection));
        if ok {
          r := Commit(id, job, version, connection);
        }
      }
    }

    /** The catalog transaction, then the job; either may fail and leave the job to be marked failed. */
    method Commit(id: string, job: string, version: nat, connection: Connection) returns (r: ScanOutcome)
      requires Valid() && id in catalog.datasources
      requires job in catalog.jobs && catalog.jobs[job] == Job(id, Profiling, None)
      requires Graph(version, connection) == NextGraph(Here(), id)
      requires id in graphStore.graphs && graphStore.graphs[id] == Graph(version, connection)
      modifies catalog, this`raised, this`ended
      ensures ended == old(ended) + (if r == ScanCrashed then 1 else 0)
      ensures raised >= old(raised) && (r.ScanFailure? ==> raised > old(raised))
      ensures Valid() && HistoryKept(old(Here()), Here())
      ensures !r.NotFound? && (r.ScanFailure? ==> r.status == ProfileFailed && catalog.jobs == old(catalog.jobs))
      ensures
        var before, after := old(Here()), Here();
        && after.(jobs := before.jobs) in [before, SnapshotCommitted(before, id)]
        && (r.ScanReady? ==>
              && after == JobSet(SnapshotCommitted(before, id), job, Job(id, JobReady, Some(version)))
              && ActiveOf(after, id) == Some(Snapshot(version, true, connection)))
    {
      r := CommitSnapshot(id, version, connection);
      if r.ScanReady? {
        FinishJob(job, id, version);
        var ends := Ends();
        if ends {
          r := ScanCrashed;
        }
      }
    }

    /** The catalog transaction; an error may come before or after it took effect. */
    method CommitSnapshot(id: string, version: nat, connection: Connection) returns (r: ScanOutcome)
      requires Valid() && id in catalog.datasources && Graph(version, connection) == NextGraph(Here(), id)
      requires id in graphStore.graphs && graphStore.graphs[id] == Graph(version, connection)
      modifies catalog`datasources, catalog`snapshots, this`raised, this`ended
      ensures ended == old(ended) + (if r == ScanCrashed then 1 else 0)
      ensures raised >= old(raised) && (r.ScanFailure? ==> raised > old(raised))
      ensures Valid() && HistoryKept(old(Here()), Here())
      ensures !r.NotFound? && (r.ScanFailure? ==> r.status == ProfileFailed)
      ensures Here() == SnapshotCommitted(old(Here()), id) || (!r.ScanReady? && Here() == old(Here()))
      ensures r.ScanReady? ==> ActiveOf(Here(), id) == Some(Snapshot(version, true, connection))
    {
      r := ScanFailure(ProfileFailed);
      var error := Raises();
      if error {
        return;
      }
      var ends := Ends();
      if ends {
        return ScanCrashed;
      }
      ghost var before := Here();
      CommittedSound(before, id);
      var ok := catalog.CommitScanSnapshot(id, version, connection);
      assert Here() == SnapshotCommitted(before, id);
      error := Raises();
      if error {
        return;
      }
      ends := Ends();
      r := if ends then ScanCrashed else ScanReady;
    }

    method FinishJob(job: string, id: string, version: nat)
      requires Valid() && id in catalog.datasources && 1 <= version <= |Of(catalog.snapshots, id)|
      requires job in catalog.jobs && catalog.jobs[job] == Job(id, Profiling, None)
      modifies catalog`jobs, catalog`paths
      ensures Valid() && Here() == JobSet(old(Here()), job, Job(id, JobReady, Some(version)))
    {
      JobSetSound(Here(), job, Job(id, JobReady, Some(version)));
      var ok := catalog.UpdateInitializationJob(job, JobReady, Some(version));
    }
  }

  /** What a scan does to the other tables does not depend on the job rows. */
  lemma ScanApartFromJobs(w: World, id: string, job: string, row: Job)
    requires id in w.datasources
    ensures
      var v := JobSet(w, job, row);
      && v.(jobs := w.jobs) == w && GraphReplaced(v, id).(jobs := w.jobs) == GraphReplaced(w, id)
      && SnapshotCommitted(GraphReplaced(v, id), id).(jobs := w.jobs) == SnapshotCommitted(GraphReplaced(w, id), id)
      && (forall next :: JobSet(SnapshotCommitted(GraphReplaced(v, id), id), job, next)
                         == JobSet(SnapshotCommitted(GraphReplaced(w, id), id), job, next))
      && NextGraph(v, id) == NextGraph(w, id)
      && forall x :: HistoryKept(v, x) ==> HistoryKept(w, x)
  {
    var v := JobSet(w, job, row);
    forall next
      ensures JobSet(SnapshotCommitted(GraphReplaced(v, id), id), job, next)
              == JobSet(SnapshotCommitted(GraphReplaced(w, id), id), job, next)
    {
      assert v.jobs[job := next] == w.jobs[job := next];
    }
  }
}
