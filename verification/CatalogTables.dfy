/** The catalog tables of the datasource lifecycle, each transaction one step. */
module CatalogTables {
  import opened Common
  import opened References

  /** A stored connection document: a secure profile, or the raw document of a legacy datasource. */
  datatype Connection = Secure(profile: Profile) | Legacy(document: string)

  datatype Status = Created | Ready

  datatype Datasource = Datasource(connection: Connection, status: Status)

  /** `through` is the connection the scan observed: what the stored profile and relationships describe. */
  datatype Snapshot = Snapshot(version: nat, active: bool, through: Connection)

  datatype ScanStatus =
    | JobCreated | Verifying | ConnectionVerified | ConnectionFailed
    | Scanning | ScanFailed | Profiling | JobReady | ProfileFailed

  datatype Job = Job(datasource: string, status: ScanStatus, snapshot: Option<nat>)

  // ---- Secret references ----

  function Names(d: Datasource): set<string> {
    if d.connection.Secure? then ManagedIds(d.connection.profile) else {}
  }

  /** Every field of every stored profile that names the secret. */
  function Occurrences(datasources: map<string, Datasource>, rows: set<string>, secret: string): set<(string, int)>
    requires rows <= datasources.Keys
  {
    set d, i | d in rows && datasources[d].connection.Secure?
               && i in Positions(ReferenceFields(datasources[d].connection.profile), secret) :: (d, i)
  }

  lemma OccurrencesGrow(datasources: map<string, Datasource>, rows: set<string>, d: string, secret: string)
    requires rows <= datasources.Keys && d in datasources && d !in rows
    ensures
      |Occurrences(datasources, rows + {d}, secret)|
      == |Occurrences(datasources, rows, secret)|
         + (if datasources[d].connection.Secure?
            then Occurring(ManagedReferences(datasources[d].connection.profile), secret) else 0)
  {
    var before, after := Occurrences(datasources, rows, secret), Occurrences(datasources, rows + {d}, secret);
    if datasources[d].connection.Secure? {
      PositionsAgree(datasources[d].connection.profile, secret);
      var fields := Positions(ReferenceFields(datasources[d].connection.profile), secret);
      TaggedSize(d, fields);
      var more := Tagged(d, fields);
      assert after == before + more && before !! more;
    } else {
      assert after == before;
    }
  }

  function Tagged<T>(d: string, fields: set<T>): set<(string, T)> {
    set i | i in fields :: (d, i)
  }

  lemma {:induction false} TaggedSize<T>(d: string, fields: set<T>)
    ensures |Tagged(d, fields)| == |fields|
  {
    if fields != {} {
      var n :| n in fields;
      TaggedSize(d, fields - {n});
      assert Tagged(d, fields) == Tagged(d, fields - {n}) + {(d, n)};
    }
  }

  function Referenced(datasources: map<string, Datasource>): set<string> {
    set d, s | d in datasources && s in Names(datasources[d]) :: s
  }

  /** A secret is referenced exactly when a field of a stored secure profile names it. */
  lemma ReferencedExactly(datasources: map<string, Datasource>, secret: string)
    ensures secret in Referenced(datasources)
            <==> exists d :: d in datasources && datasources[d].connection.Secure?
                             && NamedBy(datasources[d].connection.profile, secret)
  {
    forall d | d in datasources && datasources[d].connection.Secure?
      ensures secret in Names(datasources[d]) <==> NamedBy(datasources[d].connection.profile, secret)
    {
      ViewsAgree(datasources[d].connection.profile, secret);
    }
  }

  /** The reference count is zero exactly when no stored profile's id set holds the secret. */
  lemma UncountedIsUnreferenced(datasources: map<string, Datasource>, secret: string)
    ensures Occurrences(datasources, datasources.Keys, secret) == {} <==> secret !in Referenced(datasources)
    ensures |Occurrences(datasources, datasources.Keys, secret)| == 0 <==> secret !in Referenced(datasources)
  {
    forall d | d in datasources && datasources[d].connection.Secure?
      ensures secret in Names(datasources[d])
              <==> exists i :: i in Positions(ReferenceFields(datasources[d].connection.profile), secret)
    {
      PositionsAgree(datasources[d].connection.profile, secret);
    }
    if x :| x in Occurrences(datasources, datasources.Keys, secret) {
      assert secret in Names(datasources[x.0]);
    }
    if secret in Referenced(datasources) {
      var d :| d in datasources && secret in Names(datasources[d]);
      var i :| i in Positions(ReferenceFields(datasources[d].connection.profile), secret);
      assert (d, i) in Occurrences(datasources, datasources.Keys, secret);
    }
  }

  // ---- Initialization jobs ----

  predicate Moves(a: ScanStatus, b: ScanStatus) {
    match a
    case JobCreated => b == Verifying
    case Verifying => b == ConnectionVerified || b == ConnectionFailed
    case ConnectionVerified => b == Scanning
    case Scanning => b == Profiling || b == ScanFailed
    case Profiling => b == JobReady || b == ProfileFailed
    case _ => false
  }

  /** The statuses a job went through: it starts as created and moves only where the table allows. */
  predicate JobPath(path: seq<ScanStatus>) {
    && path != [] && path[0] == JobCreated
    && forall i :: 1 <= i < |path| ==> Moves(path[i - 1], path[i])
  }

  /** Every status a job can reach fixes the way it came; a READY job passed every stage in order. */
  lemma {:induction false} JobHistory(path: seq<ScanStatus>)
    requires JobPath(path)
    ensures path[|path| - 1] == JobReady ==>
              path == [JobCreated, Verifying, ConnectionVerified, Scanning, Profiling, JobReady]
    ensures path[|path| - 1] == ConnectionFailed ==> path == [JobCreated, Verifying, ConnectionFailed]
    ensures path[|path| - 1] == ScanFailed ==>
              path == [JobCreated, Verifying, ConnectionVerified, Scanning, ScanFailed]
    ensures path[|path| - 1] == ProfileFailed ==>
              path == [JobCreated, Verifying, ConnectionVerified, Scanning, Profiling, ProfileFailed]
    ensures |path| <= 6
  {
    assert |path| > 1 ==> Moves(path[0], path[1]);
    assert |path| > 2 ==> Moves(path[1], path[2]);
    assert |path| > 3 ==> Moves(path[2], path[3]);
    assert |path| > 4 ==> Moves(path[3], path[4]);
    assert |path| > 5 ==> Moves(path[4], path[5]);
    assert |path| > 6 ==> Moves(path[5], path[6]);
  }

  // ---- Snapshots ----

  /** The committed versions are exactly 1 to n, and only the last may be active. */
  predicate Numbered(snapshots: seq<Snapshot>) {
    forall i :: 0 <= i < |snapshots| ==>
      snapshots[i].version == i + 1 && (snapshots[i].active ==> i == |snapshots| - 1)
  }

  /** On numbered rows, one more than the largest version is one more than their number. */
  lemma NextNumber(snapshots: seq<Snapshot>, version: nat)
    requires Numbered(snapshots)
    requires forall s :: s in snapshots ==> s.version < version
    requires version == 1 || exists s :: s in snapshots && s.version + 1 == version
    ensures version == |snapshots| + 1
  {
    if snapshots != [] {
      assert snapshots[|snapshots| - 1] in snapshots;
    }
  }

  function Retired(snapshots: seq<Snapshot>): seq<Snapshot> {
    seq(|snapshots|, i requires 0 <= i < |snapshots| => snapshots[i].(active := false))
  }

  function Active(snapshots: seq<Snapshot>): Option<Snapshot> {
    if snapshots == [] then None
    else if snapshots[|snapshots| - 1].active then Some(snapshots[|snapshots| - 1])
    else Active(snapshots[..|snapshots| - 1])
  }

  /** History is kept: nothing but the active flags of earlier snapshots changes. */
  ghost predicate Kept(before: seq<Snapshot>, after: seq<Snapshot>) {
    |before| <= |after| && forall i :: 0 <= i < |before| ==> after[i].(active := before[i].active) == before[i]
  }

  lemma {:induction false} ActiveIsLast(snapshots: seq<Snapshot>)
    requires Numbered(snapshots)
    ensures Active(snapshots).Some? <==> snapshots != [] && snapshots[|snapshots| - 1].active
    ensures Active(snapshots).Some? ==>
              Active(snapshots).value == snapshots[|snapshots| - 1] && Active(snapshots).value.version == |snapshots|
  {
    if snapshots != [] && !snapshots[|snapshots| - 1].active {
      NoneActive(snapshots[..|snapshots| - 1]);
    }
  }

  lemma {:induction false} NoneActive(snapshots: seq<Snapshot>)
    requires forall i :: 0 <= i < |snapshots| ==> !snapshots[i].active
    ensures Active(snapshots).None?
  {
    if snapshots != [] {
      NoneActive(snapshots[..|snapshots| - 1]);
    }
  }

  /** The snapshot rows of one datasource, oldest first. */
  function Of(snapshots: map<string, seq<Snapshot>>, id: string): seq<Snapshot> {
    if id in snapshots then snapshots[id] else []
  }

  function Committed(snapshots: seq<Snapshot>, version: nat, through: Connection): seq<Snapshot> {
    Retired(snapshots) + [Snapshot(version, true, through)]
  }

  lemma CommittedIsNext(snapshots: seq<Snapshot>, version: nat, through: Connection)
    requires Numbered(snapshots) && version == |snapshots| + 1
    ensures Numbered(Committed(snapshots, version, through)) && Kept(snapshots, Committed(snapshots, version, through))
    ensures Active(Committed(snapshots, version, through)) == Some(Snapshot(version, true, through))
  {
    var after := Committed(snapshots, version, through);
    assert forall i :: 0 <= i < |snapshots| ==> after[i] == snapshots[i].(active := false);
    ActiveIsLast(after);
  }

  function JobsElsewhere(jobs: map<string, Job>, id: string): map<string, Job> {
    map j | j in jobs && jobs[j].datasource != id :: jobs[j]
  }

  // ---- The tables ----

  class Catalog {
    var datasources: map<string, Datasource>
    var snapshots: map<string, seq<Snapshot>>
    var jobs: map<string, Job>
    /** The statuses each job was given, from its creation on. */
    ghost var paths: map<string, seq<ScanStatus>>

    /** Every stored job came to its status along the transition table. */
    ghost predicate JobsFollowTable()
      reads this`jobs, this`paths
    {
      forall j :: JobFollowsTable(j)
    }

    ghost predicate JobFollowsTable(j: string)
      reads this`jobs, this`paths
    {
      j in jobs ==> j in paths && JobPath(paths[j]) && paths[j][|paths[j]| - 1] == jobs[j].status
    }

    /** So a stored job's final status tells every stage it passed. */
    lemma JobsPassedStages(job: string)
      requires JobsFollowTable() && job in jobs
      ensures job in paths
      ensures jobs[job].status == JobReady ==>
                paths[job] == [JobCreated, Verifying, ConnectionVerified, Scanning, Profiling, JobReady]
      ensures jobs[job].status == ProfileFailed ==>
                paths[job] == [JobCreated, Verifying, ConnectionVerified, Scanning, Profiling, ProfileFailed]
      ensures jobs[job].status == ScanFailed ==>
                paths[job] == [JobCreated, Verifying, ConnectionVerified, Scanning, ScanFailed]
      ensures jobs[job].status == ConnectionFailed ==> paths[job] == [JobCreated, Verifying, ConnectionFailed]
    {
      assert JobFollowsTable(job);
      JobHistory(paths[job]);
    }

    constructor ()
      ensures datasources == map[] && snapshots == map[] && jobs == map[] && JobsFollowTable()
    {
      datasources, snapshots, jobs, paths := map[], map[], map[], map[];
    }

    method Insert(id: string, connection: Connection) returns (ok: bool)
      modifies this`datasources
      ensures ok <==> id !in old(datasources)
      ensures datasources == if ok then old(datasources)[id := Datasource(connection, Created)] else old(datasources)
    {
      ok := id !in datasources;
      if ok {
        datasources := datasources[id := Datasource(connection, Created)];
      }
    }

    method UpdateSecureDatasource(id: string, profile: Profile) returns (r: Result<Datasource>)
      modifies this`datasources
      ensures r.Ok? <==> id in old(datasources) && old(datasources)[id].connection.Secure?
      ensures r.Ok? ==>
                && r.value == Datasource(Secure(profile), Created)
                && datasources == old(datasources)[id := r.value]
      ensures r.Err? ==>
                && datasources == old(datasources)
                && r.code == if id in datasources then "datasource_secure_profile_required" else "KeyError"
    {
      if id !in datasources {
        return Err("KeyError");
      }
      if !datasources[id].connection.Secure? {
        return Err("datasource_secure_profile_required");
      }
      r := Ok(Datasource(Secure(profile), Created));
      datasources := datasources[id := r.value];
    }

    /** Back to created, and no snapshot active: history stays. */
    method InvalidateDatasourceScan(id: string) returns (ok: bool)
      modifies this`datasources, this`snapshots
      ensures ok <==> id in old(datasources)
      ensures ok ==>
                && datasources == old(datasources)[id := old(datasources)[id].(status := Created)]
                && snapshots == old(snapshots)[id := Retired(Of(old(snapshots), id))]
                && (forall s :: s in snapshots[id] ==> !s.active) && Kept(Of(old(snapshots), id), snapshots[id])
      ensures !ok ==> datasources == old(datasources) && snapshots == old(snapshots)
    {
      ok := id in datasources;
      if ok {
        datasources := datasources[id := datasources[id].(status := Created)];
        snapshots := snapshots[id := Retired(Of(snapshots, id))];
      }
    }

    method DeleteDatasource(id: string) returns (ok: bool)
      requires JobsFollowTable()
      modifies this`datasources, this`snapshots, this`jobs
      ensures JobsFollowTable()
      ensures ok <==> id in old(datasources)
      ensures ok ==> datasources == old(datasources) - {id} && snapshots == old(snapshots) - {id}
                     && jobs == JobsElsewhere(old(jobs), id)
                     && forall j :: j in old(jobs) ==>
                          if old(jobs)[j].datasource == id then j !in jobs else j in jobs && jobs[j] == old(jobs)[j]
      ensures !ok ==> datasources == old(datasources) && snapshots == old(snapshots) && jobs == old(jobs)
    {
      ok := id in datasources;
      if ok {
        jobs := JobsElsewhere(jobs, id);
        snapshots := snapshots - {id};
        datasources := datasources - {id};
        forall j ensures JobFollowsTable(j) {
          assert old(JobFollowsTable(j));
        }
      }
    }

    method CountManagedSecretReferences(secret: string) returns (n: nat)
      ensures n == |Occurrences(datasources, datasources.Keys, secret)|
      ensures n > 0 <==> exists d :: d in datasources && datasources[d].connection.Secure?
                                     && NamedBy(datasources[d].connection.profile, secret)
    {
      n := 0;
      var todo := datasources.Keys;
      assert Occurrences(datasources, {}, secret) == {};
      assert datasources.Keys - todo == {};
      while todo != {}
        invariant todo <= datasources.Keys
        invariant n == |Occurrences(datasources, datasources.Keys - todo, secret)|
        decreases todo
      {
        var d :| d in todo;
        OccurrencesGrow(datasources, datasources.Keys - todo, d, secret);
        assert datasources.Keys - (todo - {d}) == datasources.Keys - todo + {d};
        if datasources[d].connection.Secure? {
          n := n + Occurring(ManagedReferences(datasources[d].connection.profile), secret);
        }
        todo := todo - {d};
      }
      assert datasources.Keys - todo == datasources.Keys;
      UncountedIsUnreferenced(datasources, secret);
      ReferencedExactly(datasources, secret);
    }

    method CreateInitializationJob(job: string, id: string) returns (ok: bool)
      requires JobsFollowTable()
      modifies this`jobs, this`paths
      ensures JobsFollowTable()
      ensures ok <==> id in datasources && job !in old(jobs)
      ensures jobs == if ok then old(jobs)[job := Job(id, JobCreated, None)] else old(jobs)
    {
      ok := id in datasources && job !in jobs;
      if ok {
        jobs := jobs[job := Job(id, JobCreated, None)];
        paths := paths[job := [JobCreated]];
        forall j ensures JobFollowsTable(j) {
          assert old(JobFollowsTable(j));
        }
      }
    }

    /** Only the moves of the transition table are written. */
    method UpdateInitializationJob(job: string, status: ScanStatus, snapshot: Option<nat>) returns (ok: bool)
      requires JobsFollowTable()
      modifies this`jobs, this`paths
      ensures JobsFollowTable()
      ensures ok <==> job in old(jobs) && Moves(old(jobs)[job].status, status)
      ensures ok ==>
                jobs == old(jobs)[job := Job(old(jobs)[job].datasource, status,
                                             if snapshot.Some? then snapshot else old(jobs)[job].snapshot)]
      ensures !ok ==> jobs == old(jobs)
    {
      ok := job in jobs && Moves(jobs[job].status, status);
      assert JobFollowsTable(job);
      if ok {
        jobs := jobs[job := Job(jobs[job].datasource, status,
                                if snapshot.Some? then snapshot else jobs[job].snapshot)];
        paths := paths[job := paths[job] + [status]];
        forall j ensures JobFollowsTable(j) {
          assert old(JobFollowsTable(j));
        }
      }
    }

    /** `COALESCE(MAX(version), 0) + 1`. */
    method NextSnapshotVersion(id: string) returns (version: nat)
      ensures forall s :: s in Of(snapshots, id) ==> s.version < version
      ensures version == 1 || exists s :: s in Of(snapshots, id) && s.version + 1 == version
    {
      version := 1;
      var rows := Of(snapshots, id);
      for i := 0 to |rows|
        invariant forall j :: 0 <= j < i ==> rows[j].version < version
        invariant version == 1 || exists j :: 0 <= j < i && rows[j].version + 1 == version
      {
        if rows[i].version >= version {
          version := rows[i].version + 1;
        }
      }
    }

    /** Switches the active snapshot to a new version, and the datasource to ready, in one transaction. */
    method CommitScanSnapshot(id: string, version: nat, through: Connection) returns (ok: bool)
      modifies this`datasources, this`snapshots
      ensures ok <==> id in old(datasources)
      ensures ok ==>
                && datasources == old(datasources)[id := old(datasources)[id].(status := Ready)]
                && snapshots == old(snapshots)[id := Committed(Of(old(snapshots), id), version, through)]
      ensures !ok ==> datasources == old(datasources) && snapshots == old(snapshots)
    {
      ok := id in datasources;
      if ok {
        snapshots := snapshots[id := Committed(Of(snapshots, id), version, through)];
        datasources := datasources[id := datasources[id].(status := Ready)];
      }
    }
  }
}
