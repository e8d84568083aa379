/** The index database and job table changed in place, over the note files of one memory root. */
module IndexStore {
  import opened Base
  import opened Notes
  import opened NoteIndex
  import opened IndexSync

  // ---------------------------------------------------------------------------------------------
  // Scanning by groups

  /** `groups` collects the first files of `paths` by the value of `keys`. */
  ghost predicate Grouped<K(!new)>(paths: seq<Path>, keys: map<Path, K>, groups: map<K, set<Path>>) {
    && (forall p :: p in paths ==> p in keys && keys[p] in groups && p in groups[keys[p]])
    && (forall k, p :: k in groups && p in groups[k] ==> p in paths && p in keys && keys[p] == k)
  }

  method GroupBy<K(!new)>(paths: seq<Path>, keys: map<Path, K>) returns (groups: map<K, set<Path>>)
    requires forall p :: p in paths ==> p in keys
    ensures Grouped(paths, keys, groups)
  {
    groups := map[];
    for i := 0 to |paths|
      invariant Grouped(paths[..i], keys, groups)
    {
      assert paths[..i + 1] == paths[..i] + [paths[i]];
      var k := keys[paths[i]];
      groups := groups[k := (if k in groups then groups[k] else {}) + {paths[i]}];
    }
    assert paths[..|paths|] == paths;
  }

  lemma GroupOf<K(!new)>(paths: seq<Path>, keys: map<Path, K>, groups: map<K, set<Path>>, p: Path)
    requires Grouped(paths, keys, groups) && p in paths && forall q :: q in paths <==> q in keys
    ensures keys[p] in groups && forall q :: q in groups[keys[p]] <==> q in keys && keys[q] == keys[p]
  {
  }

  lemma Crowded(group: set<Path>, p: Path)
    requires p in group
    ensures |group| > 1 <==> exists q :: q in group && q != p
  {
    var others := group - {p};
    assert |others| == |group| - 1;
    if |group| > 1 {
      assert exists q :: q in others;
    } else {
      assert forall q :: q in group ==> q !in others;
    }
  }

  /** A file collides when one of its two groups is crowded. */
  lemma InCrowdIffCollides(files: Files, byId: map<NoteId, set<Path>>, byKey: map<nat, set<Path>>, p: Path)
    requires p in files && files[p].id in byId && p.key in byKey
    requires forall q :: q in byId[files[p].id] <==> q in files && files[q].id == files[p].id
    requires forall q :: q in byKey[p.key] <==> q in files && q.key == p.key
    ensures |byId[files[p].id]| > 1 || |byKey[p.key]| > 1 <==> Collides(files, p)
  {
    Crowded(byId[files[p].id], p);
    Crowded(byKey[p.key], p);
    if q :| q in files && q != p && (files[q].id == files[p].id || q.key == p.key) {
      assert q in byId[files[p].id] || q in byKey[p.key];
    }
  }

  /** The files whose id group or path group has more than one member. */
  method FindCollisions(files: Files, paths: seq<Path>) returns (crowd: set<Path>)
    requires forall p :: p in files <==> p in paths
    ensures crowd == set p | p in files && Collides(files, p)
  {
    var ids := map p | p in files :: files[p].id;
    var keys := map p: Path | p in files :: p.key;
    var byId := GroupBy(paths, ids);
    var byKey := GroupBy(paths, keys);
    hide Collides, Grouped;
    forall p | p in files
      ensures files[p].id in byId && p.key in byKey
      ensures |byId[files[p].id]| > 1 || |byKey[p.key]| > 1 <==> Collides(files, p)
    {
      GroupOf(paths, ids, byId, p);
      GroupOf(paths, keys, byKey, p);
      InCrowdIffCollides(files, byId, byKey, p);
    }
    crowd := set p | p in files && (|byId[files[p].id]| > 1 || |byKey[p.key]| > 1);
  }

  /** `_scan_notes`: valid notes by id, and the ids of colliding records. */
  method ScanNotes(files: Files, paths: seq<Path>) returns (valid: map<NoteId, Path>, collided: set<NoteId>)
    requires forall p :: p in files <==> p in paths
    ensures valid == Valid(files) && collided == CollidedIds(files)
    ensures forall id :: id in valid ==> Alone(files, valid[id]) && files[valid[id]].id == id
    ensures forall p :: Alone(files, p) ==> files[p].id in valid && valid[files[p].id] == p
    ensures forall id :: id in collided <==> exists p :: p in files && files[p].id == id && !Alone(files, p)
  {
    ScanIsExact(files);
    hide Alone;
    var crowd := FindCollisions(files, paths);
    collided := set p | p in crowd :: files[p].id;
    valid := map[];
    for i := 0 to |paths|
      invariant forall id :: id in valid ==> valid[id] in paths[..i] && valid[id] !in crowd && files[valid[id]].id == id
      invariant forall p :: p in paths[..i] && p !in crowd ==> files[p].id in valid && valid[files[p].id] == p
    {
      assert paths[..i + 1] == paths[..i] + [paths[i]];
      assert paths[i] in paths;
      if paths[i] !in crowd {
        OneValidFile(files, paths[i]);
        hide Collides;
        valid := valid[files[paths[i]].id := paths[i]];
      }
    }
    assert paths[..|paths|] == paths;
    hide Collides;
    ValidMap(files, valid);
  }

  /** No other file has the same id or a path that is the same once normalised. */
  ghost predicate Alone(files: Files, p: Path) {
    p in files && forall q :: q in files && q != p ==> files[q].id != files[p].id && q.key != p.key
  }

  lemma ScanIsExact(files: Files)
    ensures forall id :: id in Valid(files) ==> Alone(files, Valid(files)[id]) && files[Valid(files)[id]].id == id
    ensures forall p :: Alone(files, p) ==> files[p].id in Valid(files) && Valid(files)[files[p].id] == p
    ensures forall id :: id in CollidedIds(files) <==> exists p :: p in files && files[p].id == id && !Alone(files, p)
  {
    forall p ensures Alone(files, p) <==> p in files && !Collides(files, p) {
    }
    hide Collides, Alone;
  }

  lemma OneValidFile(files: Files, p: Path)
    requires p in files && !Collides(files, p)
    ensures forall q :: q in files && files[q].id == files[p].id ==> q == p
  {
  }

  lemma ValidMap(files: Files, valid: map<NoteId, Path>)
    requires forall id :: id in valid ==> valid[id] in files && !Collides(files, valid[id]) && files[valid[id]].id == id
    requires forall p :: p in files && !Collides(files, p) ==> files[p].id in valid && valid[files[p].id] == p
    ensures valid == Valid(files)
  {
    forall id | id in valid
      ensures id in Valid(files) && Valid(files)[id] == valid[id]
    {
    }
    assert forall id :: id in Valid(files) ==> id in valid;
  }

  // ---------------------------------------------------------------------------------------------
  // The index

  lemma {:induction false} SkipsFinished(files: Files, s: State, order: seq<Op>, k: nat, n: nat)
    requires k <= n <= |order|
    requires forall i :: k <= i < n ==>
               order[i] !in ProcessJobs(files, s, order[..k]).jobs || ProcessJobs(files, s, order[..k]).jobs[order[i]] != Pending
    ensures ProcessJobs(files, s, order[..n]) == ProcessJobs(files, s, order[..k])
  {
    if k < n {
      SkipsFinished(files, s, order, k, n - 1);
      assert order[..n][..n - 1] == order[..n - 1];
    }
  }

  class Store {
    var rows: map<NoteId, Row>
    var relations: set<(NoteId, Relation)>
    var jobs: Jobs

    function Index(): Table
      reads this
    {
      Table(rows, relations)
    }

    function Contents(): State
      reads this
    {
      State(Index(), jobs)
    }

    ghost predicate Valid()
      reads this
    {
      TableOk(Index())
    }

    constructor ()
      ensures Valid() && Contents() == State(NOTHING_INDEXED, map[])
    {
      rows, relations, jobs := map[], {}, map[];
    }

    /** `_remove_index_ids`. */
    method RemoveIndexIds(ids: set<NoteId>)
      modifies this`rows, this`relations
      ensures Index() == RemoveIds(old(Index()), ids)
    {
      var todo := ids;
      while todo != {}
        invariant todo <= ids
        invariant Index() == RemoveIds(old(Index()), ids - todo)
      {
        var id :| id in todo;
        relations := set e | e in relations && e.0 != id;
        rows := rows - {id};
        todo := todo - {id};
      }
      assert ids - {} == ids;
    }

    /** `_upsert_index`: one transaction, rolled back when a constraint fails. */
    method UpsertIndex(path: Path, note: Note, prior: Option<Row>) returns (ok: bool)
      modifies this`rows, this`relations
      ensures ok <==> Upsert(old(Index()), path, note, prior).Some?
      ensures Index() == if ok then Upsert(old(Index()), path, note, prior).value else old(Index())
    {
      if exists m :: m in rows && m != note.id && rows[m].path == path {
        assert PathTaken(rows, path, note.id);
        return false;
      }
      if !Distinct(note.relations) {
        return false;
      }
      var previousRevision := if note.id in rows then rows[note.id].revision else if prior.Some? then prior.value.revision else 0;
      var previousNote := if note.id in rows then Some(rows[note.id].note) else if prior.Some? then Some(prior.value.note) else None;
      var revision := if previousNote == Some(note) then previousRevision else previousRevision + 1;
      rows := rows[note.id := Row(path, note, revision)];
      relations := (set e | e in relations && e.0 != note.id) + RelationRows(note);
      return true;
    }

    /** `_recover_jobs_from_scan`. */
    method RecoverJobsFromScan(files: Files, ids: seq<NoteId>)
      requires forall i :: 0 <= i < |ids| ==> ids[i] in NoteIndex.Valid(files)
      modifies this
      ensures Contents() == Recovered(files, old(Contents()), ids)
    {
      hide NoteIndex.Valid;
      var manifest := rows;
      RemoveIndexIds(CollidedIds(files));
      for i := 0 to |ids|
        invariant Index() == RemoveIds(old(Index()), CollidedIds(files))
        invariant jobs == PlanJobs(files, manifest, old(jobs), ids[..i])
      {
        assert ids[..i + 1][..i] == ids[..i];
        var op := JobFor(files, ids[i]);
        if op.id in manifest && manifest[op.id].path == op.path && manifest[op.id].note == op.note {
          if op !in jobs {
            jobs := jobs[op := Done];
          }
        } else if op !in jobs || (jobs[op] != Pending && jobs[op] != Running) {
          jobs := jobs[op := NoteIndex.Pending];
        }
      }
      assert ids[..|ids|] == ids;
    }

    /** The first pending job in table order. */
    method NextPending(order: seq<Op>) returns (i: nat)
      ensures i <= |order|
      ensures i < |order| ==> order[i] in jobs && jobs[order[i]] == Pending
      ensures forall j :: 0 <= j < i ==> order[j] !in jobs || jobs[order[j]] != Pending
    {
      i := 0;
      while i < |order| && (order[i] !in jobs || jobs[order[i]] != Pending)
        invariant i <= |order|
        invariant forall j :: 0 <= j < i ==> order[j] !in jobs || jobs[order[j]] != Pending
      {
        i := i + 1;
      }
    }

    /** One turn of the loop: claim the job, read its note, upsert, and record how it ended. */
    method RunJob(files: Files, op: Op) returns (ok: bool)
      requires op in jobs && jobs[op] == Pending
      modifies this
      ensures Contents() == ProcessJob(files, old(Contents()), op)
      ensures op in jobs && jobs[op] != Pending && jobs == old(jobs)[op := jobs[op]]
      ensures ok <==> jobs[op] == Done
    {
      ghost var before := jobs;
      jobs := jobs[op := Running];
      var found := Find(files, op.id);
      ok := false;
      if found.Some? {
        ok := UpsertIndex(found.value, files[found.value], None);
      }
      jobs := jobs[op := if ok then Done else Quarantined];
      assert jobs == before[op := if ok then Done else Quarantined];
    }

    /** `process_jobs`: repeats the selection until no job is pending. */
    method ProcessPendingJobs(files: Files, order: seq<Op>) returns (processed: nat)
      requires Orders(order, jobs)
      modifies this
      ensures Contents() == ProcessJobs(files, old(Contents()), order)
      ensures NoneIn(jobs, Pending)
    {
      hide ProcessJob;
      processed := 0;
      ghost var s, k := Contents(), 0;
      while true
        invariant k <= |order| && Contents() == ProcessJobs(files, s, order[..k])
        invariant forall j :: 0 <= j < k ==> order[j] !in jobs || jobs[order[j]] != Pending
        decreases |order| - k
      {
        var i := NextPending(order);
        SkipsFinished(files, s, order, k, i);
        if i == |order| {
          break;
        }
        assert order[..i + 1][..i] == order[..i];
        var ok := RunJob(files, order[i]);
        processed := processed + if ok then 1 else 0;
        k := i + 1;
      }
      assert order[..|order|] == order;
      ProcessingFinishes(files, s, order);
    }

    /** `_sync_filesystem_locked` without id assignment and deliveries; `order` lists the jobs by creation time and id. */
    method SyncFilesystem(files: Files, ids: seq<NoteId>, order: seq<Op>) returns (processed: nat)
      requires Valid() && Lists(ids, files) && Orders(order, Recovered(files, Contents(), ids).jobs)
      modifies this
      ensures Valid() && Contents() == Sync(files, old(Contents()), ids, order)
      ensures NoneIn(jobs, Pending)
    {
      ghost var before := Contents();
      RecoverJobsFromScan(files, ids);
      ghost var recovered := Contents();
      processed := ProcessPendingJobs(files, order);
      assert Valid() by {
        RemoveKeeps(before.table, CollidedIds(files));
        ProcessEvolves(files, recovered, order);
      }
      PruneKeeps(files, Index());
      RemoveIndexIds(CollidedIds(files));
      var indexed := rows.Keys;
      RemoveIndexIds(indexed - NoteIndex.Valid(files).Keys);
    }

    /** A fresh generation, unless an upsert fails. */
    method Generate(files: Files, before: Rows, ids: seq<NoteId>) returns (built: Option<Table>)
      requires Lists(ids, files)
      ensures built == RebuildFrom(files, before, ids)
    {
      hide Upsert, NoteIndex.Valid;
      var generation := new Store();
      for i := 0 to |ids|
        invariant fresh(generation)
        invariant RebuildFrom(files, before, ids[..i]) == Some(generation.Index())
      {
        assert ids[..i + 1][..i] == ids[..i];
        var op := JobFor(files, ids[i]);
        var ok := generation.UpsertIndex(op.path, op.note, RowOf(before, op.id));
        if !ok {
          RebuildFails(files, before, ids, i + 1);
          return None;
        }
      }
      assert ids[..|ids|] == ids;
      return Some(generation.Index());
    }

    /** `rebuild_index`: the new generation is swapped in only when it is complete. */
    method RebuildIndex(files: Files, ids: seq<NoteId>) returns (ok: bool)
      requires Valid() && Lists(ids, files)
      modifies this`rows, this`relations
      ensures Valid()
      ensures ok <==> RebuildFrom(files, old(rows), ids).Some?
      ensures Index() == if ok then RebuildFrom(files, old(rows), ids).value else old(Index())
    {
      RebuildEffect(files, rows, ids);
      hide RebuildFrom, NoteIndex.Valid;
      var built := Generate(files, rows, ids);
      ok := built.Some?;
      if ok {
        rows, relations := built.value.rows, built.value.relations;
      }
    }
  }

  lemma {:induction false} RebuildFails(files: Files, before: Rows, ids: seq<NoteId>, n: nat)
    requires forall i :: 0 <= i < |ids| ==> ids[i] in NoteIndex.Valid(files)
    requires n <= |ids| && RebuildFrom(files, before, ids[..n]).None?
    ensures RebuildFrom(files, before, ids).None?
    decreases |ids| - n
  {
    if n < |ids| {
      assert ids[..n + 1][..n] == ids[..n];
      RebuildFails(files, before, ids, n + 1);
    } else {
      assert ids[..n] == ids;
    }
  }
}
