/**
 * The three stores of the datasource lifecycle as one value, and what every single step keeps true
 * of it. The stores share no transaction, so each step is one store's change.
 */
module LifecycleState {
  import opened Common
  import opened References
  import opened CatalogTables

  /** The published graph of one datasource: its version, and the connection the scan observed. */
  datatype Graph = Graph(version: nat, through: Connection)

  datatype World = World(datasources: map<string, Datasource>, snapshots: map<string, seq<Snapshot>>,
                         jobs: map<string, Job>, graphs: map<string, Graph>, secrets: set<string>)

  datatype Clause =
    | RowsOwned | VersionsNumbered | GraphsFenced | SnapshotsFenced | GraphsCurrent | JobsBacked | SecretsPresent

  function ActiveOf(w: World, id: string): Option<Snapshot> {
    Active(Of(w.snapshots, id))
  }

  ghost predicate Holds(c: Clause, w: World) {
    match c
    // Snapshots and jobs belong to stored datasources.
    case RowsOwned =>
      w.snapshots.Keys <= w.datasources.Keys && forall j :: j in w.jobs ==> w.jobs[j].datasource in w.datasources
    // The committed versions of a datasource are exactly 1 to n, and only version n may be active.
    case VersionsNumbered => forall d :: d in w.snapshots ==> Numbered(w.snapshots[d])
    // A published graph belongs to a stored datasource and was scanned through its stored connection.
    case GraphsFenced =>
      forall d :: d in w.graphs ==> d in w.datasources && w.graphs[d].through == w.datasources[d].connection
    // A ready datasource has an active snapshot, scanned through its stored connection.
    case SnapshotsFenced =>
      forall d :: d in w.datasources && w.datasources[d].status == Ready ==>
        ActiveOf(w, d).Some? && ActiveOf(w, d).value.through == w.datasources[d].connection
    // A graph carries the active version of a ready datasource, or is one ahead of every committed one.
    case GraphsCurrent =>
      forall d :: d in w.graphs && d in w.datasources ==>
        || w.graphs[d].version == |Of(w.snapshots, d)| + 1
        || (w.datasources[d].status == Ready && ActiveOf(w, d).Some?
            && w.graphs[d].version == ActiveOf(w, d).value.version)
    // A job that ended READY names a committed version.
    case JobsBacked =>
      forall j :: j in w.jobs && w.jobs[j].status == JobReady ==>
        w.jobs[j].snapshot.Some? && 1 <= w.jobs[j].snapshot.value <= |Of(w.snapshots, w.jobs[j].datasource)|
    // Every managed reference of a stored profile names a stored secret.
    case SecretsPresent => Referenced(w.datasources) <= w.secrets
  }

  ghost predicate Sound(w: World) {
    forall c :: Holds(c, w)
  }

  /** The version history of a datasource that exists before and after only grows. */
  ghost predicate HistoryKept(a: World, b: World) {
    forall d :: d in a.datasources && d in b.datasources ==> Kept(Of(a.snapshots, d), Of(b.snapshots, d))
  }

  // ---- Steps ----

  function Inserted(w: World, id: string, connection: Connection): World {
    w.(datasources := w.datasources[id := Datasource(connection, Created)])
  }

  function Unpublished(w: World, id: string): World {
    w.(graphs := w.graphs - {id})
  }

  function Switched(w: World, id: string, profile: Profile): World {
    w.(datasources := w.datasources[id := Datasource(Secure(profile), Created)])
  }

  function Invalidated(w: World, id: string): World
    requires id in w.datasources
  {
    w.(datasources := w.datasources[id := w.datasources[id].(status := Created)],
       snapshots := w.snapshots[id := Retired(Of(w.snapshots, id))])
  }

  function Removed(w: World, id: string): World {
    w.(datasources := w.datasources - {id}, snapshots := w.snapshots - {id}, jobs := JobsElsewhere(w.jobs, id))
  }

  function NextGraph(w: World, id: string): Graph
    requires id in w.datasources
  {
    Graph(|Of(w.snapshots, id)| + 1, w.datasources[id].connection)
  }

  function GraphReplaced(w: World, id: string): World
    requires id in w.datasources
  {
    w.(graphs := w.graphs[id := NextGraph(w, id)])
  }

  function SnapshotCommitted(w: World, id: string): World
    requires id in w.datasources
  {
    w.(datasources := w.datasources[id := w.datasources[id].(status := Ready)],
       snapshots := w.snapshots[id := Committed(Of(w.snapshots, id), NextGraph(w, id).version,
                                                w.datasources[id].connection)])
  }

  function JobSet(w: World, job: string, row: Job): World {
    w.(jobs := w.jobs[job := row])
  }

  function SecretsChanged(w: World, secrets: set<string>): World {
    w.(secrets := secrets)
  }

  // ---- What each step keeps ----

  lemma InitiallySound()
    ensures Sound(World(map[], map[], map[], map[], {}))
  {
    forall c ensures Holds(c, World(map[], map[], map[], map[], {})) {
      assert Referenced(map[]) == {};
    }
  }

  /** What a row's replacement does to the references. */
  lemma ReferencesReplaced(before: map<string, Datasource>, after: map<string, Datasource>, id: string)
    requires forall d :: d != id ==> (d in after <==> d in before) && (d in after ==> after[d] == before[d])
    ensures Referenced(after) <= Referenced(before) + (if id in after then Names(after[id]) else {})
  {
  }

  lemma InsertedSound(w: World, id: string, connection: Connection)
    requires Sound(w) && id !in w.datasources && Names(Datasource(connection, Created)) <= w.secrets
    ensures Sound(Inserted(w, id, connection)) && HistoryKept(w, Inserted(w, id, connection))
  {
    var after := Inserted(w, id, connection);
    forall c ensures Holds(c, after) {
      assert Holds(c, w);
      assert Holds(GraphsFenced, w);
      ReferencesReplaced(w.datasources, after.datasources, id);
    }
  }

  lemma UnpublishedSound(w: World, id: string)
    requires Sound(w)
    ensures Sound(Unpublished(w, id)) && HistoryKept(w, Unpublished(w, id))
  {
    forall c ensures Holds(c, Unpublished(w, id)) {
      assert Holds(c, w);
    }
  }

  /** The stored profile may change only once the graph is gone; the active scan is no longer ready. */
  lemma SwitchedSound(w: World, id: string, profile: Profile)
    requires Sound(w) && id in w.datasources && id !in w.graphs && ManagedIds(profile) <= w.secrets
    ensures Sound(Switched(w, id, profile)) && HistoryKept(w, Switched(w, id, profile))
  {
    var after := Switched(w, id, profile);
    forall c ensures Holds(c, after) {
      assert Holds(c, w);
      ReferencesReplaced(w.datasources, after.datasources, id);
    }
  }

  lemma RetiredKept(snapshots: seq<Snapshot>)
    ensures Kept(snapshots, Retired(snapshots))
    ensures Numbered(snapshots) ==> Numbered(Retired(snapshots))
  {
  }

  lemma ReferencesSame(datasources: map<string, Datasource>, id: string, next: Datasource)
    requires id in datasources && next.connection == datasources[id].connection
    ensures Referenced(datasources[id := next]) == Referenced(datasources)
  {
    var after := datasources[id := next];
    assert forall d :: d in datasources ==> Names(after[d]) == Names(datasources[d]);
    forall s | s in Referenced(datasources) ensures s in Referenced(after) {
      var d :| d in datasources && s in Names(datasources[d]);
      assert s in Names(after[d]);
    }
    forall s | s in Referenced(after) ensures s in Referenced(datasources) {
      var d :| d in after && s in Names(after[d]);
      assert s in Names(datasources[d]);
    }
  }

  lemma InvalidatedSound(w: World, id: string)
    requires Sound(w) && id in w.datasources && id !in w.graphs
    ensures Sound(Invalidated(w, id)) && HistoryKept(w, Invalidated(w, id))
  {
    var after := Invalidated(w, id);
    RetiredKept(Of(w.snapshots, id));
    forall c ensures Holds(c, after) {
      assert Holds(c, w);
      ReferencesSame(w.datasources, id, after.datasources[id]);
    }
  }

  lemma RemovedSound(w: World, id: string)
    requires Sound(w) && id !in w.graphs
    ensures Sound(Removed(w, id)) && HistoryKept(w, Removed(w, id))
  {
    var after := Removed(w, id);
    forall c ensures Holds(c, after) {
      assert Holds(c, w);
      ReferencesReplaced(w.datasources, after.datasources, id);
    }
  }

  lemma GraphReplacedSound(w: World, id: string)
    requires Sound(w) && id in w.datasources
    ensures Sound(GraphReplaced(w, id)) && HistoryKept(w, GraphReplaced(w, id))
  {
    forall c ensures Holds(c, GraphReplaced(w, id)) {
      assert Holds(c, w);
    }
  }

  lemma NumberedOf(w: World, id: string)
    requires Sound(w)
    ensures Numbered(Of(w.snapshots, id))
  {
    assert Holds(VersionsNumbered, w);
  }

  /** The catalog may move to a version only once the graph carries it. */
  lemma CommittedSound(w: World, id: string)
    requires Sound(w) && id in w.datasources && id in w.graphs && w.graphs[id] == NextGraph(w, id)
    ensures Sound(SnapshotCommitted(w, id)) && HistoryKept(w, SnapshotCommitted(w, id))
    ensures ActiveOf(SnapshotCommitted(w, id), id)
            == Some(Snapshot(NextGraph(w, id).version, true, w.datasources[id].connection))
  {
    var after := SnapshotCommitted(w, id);
    NumberedOf(w, id);
    CommittedIsNext(Of(w.snapshots, id), NextGraph(w, id).version, w.datasources[id].connection);
    forall c ensures Holds(c, after) {
      assert Holds(c, w);
      ReferencesSame(w.datasources, id, after.datasources[id]);
    }
  }

  lemma JobSetSound(w: World, job: string, row: Job)
    requires Sound(w) && row.datasource in w.datasources
    requires row.status == JobReady ==>
               row.snapshot.Some? && 1 <= row.snapshot.value <= |Of(w.snapshots, row.datasource)|
    ensures Sound(JobSet(w, job, row)) && HistoryKept(w, JobSet(w, job, row))
  {
    forall c ensures Holds(c, JobSet(w, job, row)) {
      assert Holds(c, w);
    }
  }

  lemma SecretsChangedSound(w: World, secrets: set<string>)
    requires Sound(w) && Referenced(w.datasources) * w.secrets <= secrets
    ensures Sound(SecretsChanged(w, secrets))
  {
    forall c ensures Holds(c, SecretsChanged(w, secrets)) {
      assert Holds(c, w);
    }
  }

  // ---- Why the order is what it is ----

  /**
   * The profile may be switched exactly when the graph is gone, or is an uncommitted scan of the very
   * same connection: any other published graph would describe a connection that is not stored.
   */
  lemma SwitchNeedsUnpublish(w: World, id: string, profile: Profile)
    requires Sound(w) && id in w.datasources && ManagedIds(profile) <= w.secrets
    ensures Sound(Switched(w, id, profile))
            <==> id !in w.graphs || w.graphs[id] == Graph(|Of(w.snapshots, id)| + 1, Secure(profile))
  {
    var after := Switched(w, id, profile);
    if id !in w.graphs {
      SwitchedSound(w, id, profile);
    } else if w.graphs[id] == Graph(|Of(w.snapshots, id)| + 1, Secure(profile)) {
      forall c ensures Holds(c, after) {
        assert Holds(c, w);
        ReferencesReplaced(w.datasources, after.datasources, id);
      }
    } else {
      assert !Holds(GraphsFenced, after) || !Holds(GraphsCurrent, after);
    }
  }

  /** The rows may be removed exactly when no graph is left to outlive them. */
  lemma RemoveNeedsUnpublish(w: World, id: string)
    requires Sound(w)
    ensures Sound(Removed(w, id)) <==> id !in w.graphs
  {
    if id !in w.graphs {
      RemovedSound(w, id);
    } else {
      assert !Holds(GraphsFenced, Removed(w, id));
    }
  }

  /** The catalog may move to a version exactly when no graph is published or the graph is already there. */
  lemma CommitNeedsPublish(w: World, id: string)
    requires Sound(w) && id in w.datasources
    ensures Sound(SnapshotCommitted(w, id))
            <==> id !in w.graphs || w.graphs[id].version == |Of(w.snapshots, id)| + 1
  {
    var after := SnapshotCommitted(w, id);
    NumberedOf(w, id);
    CommittedIsNext(Of(w.snapshots, id), NextGraph(w, id).version, w.datasources[id].connection);
    if id in w.graphs && w.graphs[id].version == |Of(w.snapshots, id)| + 1 {
      assert Holds(GraphsFenced, w);
      CommittedSound(w, id);
    } else if id !in w.graphs {
      forall c ensures Holds(c, after) {
        assert Holds(c, w);
        ReferencesSame(w.datasources, id, after.datasources[id]);
      }
    } else {
      assert Holds(GraphsCurrent, w);
      ActiveIsLast(Of(w.snapshots, id));
      assert !Holds(GraphsCurrent, after);
    }
  }

  // ---- Secrets that lost their last reference ----

  /** Secrets referenced before and no longer after. */
  function Released(before: map<string, Datasource>, after: map<string, Datasource>): set<string> {
    Referenced(before) - Referenced(after)
  }

  /** On an update these are the obsolete ones nobody else names. */
  lemma ReleasedByUpdate(before: map<string, Datasource>, id: string, previous: Profile, profile: Profile)
    requires id in before && before[id].connection == Secure(previous)
    ensures
      var after := before[id := Datasource(Secure(profile), Created)];
      Released(before, after) == set s | s in ManagedIds(previous) - ManagedIds(profile) && s !in Referenced(after)
  {
    var after := before[id := Datasource(Secure(profile), Created)];
    forall s | s in ManagedIds(previous) ensures s in Referenced(before) {
      assert s in Names(before[id]);
    }
    forall s | s in ManagedIds(profile) ensures s in Referenced(after) {
      assert s in Names(after[id]);
    }
    forall s | s in Referenced(before) && s !in ManagedIds(previous) ensures s in Referenced(after) {
      var d :| d in before && s in Names(before[d]);
      assert s in Names(after[d]);
    }
  }

  /** On a deletion these are the ones only the deleted datasource named. */
  lemma ReleasedByDelete(before: map<string, Datasource>, id: string)
    requires id in before
    ensures Released(before, before - {id}) == set s | s in Names(before[id]) && s !in Referenced(before - {id})
  {
    var after := before - {id};
    forall s | s in Referenced(before) && s !in Names(before[id]) ensures s in Referenced(after) {
      var d :| d in before && s in Names(before[d]);
      assert s in Names(after[d]);
    }
  }
}
