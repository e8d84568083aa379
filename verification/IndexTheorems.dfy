/** Consequences of the schedule theorem, and the state of the index and its jobs over whole runs with crashes. */
module IndexTheorems {
  import opened Base
  import opened Notes
  import opened NoteIndex
  import opened IndexSync
  import IndexRuns

  // ---------------------------------------------------------------------------------------------
  // When synchronising always succeeds, and when it never does

  ghost function PlaceOf(order: seq<Op>, op: Op): (i: nat)
    requires op in order
    ensures i < |order| && order[i] == op
  {
    var i :| 0 <= i < |order| && order[i] == op;
    i
  }

  /** No row of another note, other than a colliding one, holds the path of a valid note. */
  ghost predicate NoPathReused(files: Files, rows: Rows) {
    forall n, m :: n in Valid(files) && m in rows && m != n && m !in CollidedIds(files) ==> rows[m].path != Valid(files)[n]
  }

  lemma JobHasTurn(files: Files, s: State, ids: seq<NoteId>, order: seq<Op>, turn: map<NoteId, nat>, n: NoteId)
    requires Lists(ids, files) && NoneIn(s.jobs, Running) && NoPathReused(files, s.table.rows)
    requires Orders(order, Recovered(files, s, ids).jobs) && Changed(files, s.table.rows, n)
    requires n in turn && JobFor(files, n) in order && turn[n] == PlaceOf(order, JobFor(files, n))
    ensures HasTurn(files, Recovered(files, s, ids), order, turn, n)
  {
    ChangedIsQueued(files, s, ids, n);
    hide Valid, PlanJobs;
  }

  /** With no path reused, synchronising equals rebuilding whatever the job order. */
  lemma SyncEqualsRebuild(files: Files, s: State, ids: seq<NoteId>, order: seq<Op>)
    requires TableOk(s.table) && NoneIn(s.jobs, Running) && Lists(ids, files) && NoPathReused(files, s.table.rows)
    requires Orders(order, Recovered(files, s, ids).jobs) && RebuildFrom(files, s.table.rows, ids).Some?
    ensures Some(Sync(files, s, ids, order).table) == RebuildFrom(files, s.table.rows, ids)
  {
    var recovered := Recovered(files, s, ids);
    hide Valid, TableOk, Recovered, RebuildFrom, Sync, NoPathReused;
    forall n | Changed(files, s.table.rows, n)
      ensures JobFor(files, n) in order
    {
      ChangedIsQueued(files, s, ids, n);
    }
    var turn := map n | n in Valid(files) && Changed(files, s.table.rows, n) :: PlaceOf(order, JobFor(files, n));
    forall n | Changed(files, recovered.table.rows, n)
      ensures HasTurn(files, recovered, order, turn, n)
    {
      RecoveredKeepsValid(files, s, ids, n);
      JobHasTurn(files, s, ids, order, turn, n);
    }
    assert Schedule(files, recovered, order, turn);
    SyncEqualsRebuildIffScheduled(files, s, ids, order);
  }

  /** A rebuild fails exactly when a valid note repeats a relation, and else has one settled row per valid note. */
  lemma RebuildIsExact(files: Files, before: Rows, ids: seq<NoteId>)
    requires Lists(ids, files)
    ensures RebuildFrom(files, before, ids).Some? <==> AllDistinct(files)
    ensures RebuildFrom(files, before, ids).Some? ==>
              RebuildFrom(files, before, ids).value.rows == SettledRows(files, before)
  {
    hide Valid, RebuildFrom, Settled, Distinct, TableOk;
    RebuildEffect(files, before, ids);
    if AllDistinct(files) {
      forall i | 0 <= i < |ids|
        ensures Distinct(JobFor(files, ids[i]).note.relations)
      {
        assert ids[i] in ids;
      }
    } else {
      var id :| id in Valid(files) && !Distinct(JobFor(files, id).note.relations);
      assert id in ids;
    }
  }

  /** A note's rebuilt row: its file, its content, and a revision that rises by one exactly when the content changed. */
  lemma RebuiltRow(files: Files, before: Rows, ids: seq<NoteId>, id: NoteId)
    requires Lists(ids, files) && RebuildFrom(files, before, ids).Some?
    ensures id in RebuildFrom(files, before, ids).value.rows <==> id in Valid(files)
    ensures id in Valid(files) ==>
              var row := RebuildFrom(files, before, ids).value.rows[id];
              && row.path == Valid(files)[id] && row.path in files && row.note == files[row.path] && row.note.id == id
              && (id !in before ==> row.revision == 1)
              && (id in before ==> row.revision == before[id].revision + if before[id].note == row.note then 0 else 1)
  {
    RebuildIsExact(files, before, ids);
    if id in Valid(files) {
      ValidIsFound(files, id);
    }
    hide Valid, RebuildFrom, Find;
  }

  /** A note that repeats a relation keeps its old row, or stays without one, where a rebuild would fail for all notes. */
  lemma RepeatedRelationKeepsOldRow(files: Files, s: State, ids: seq<NoteId>, order: seq<Op>, id: NoteId)
    requires TableOk(s.table) && Lists(ids, files)
    requires id in Valid(files) && !Distinct(JobFor(files, id).note.relations)
    ensures RowOf(Sync(files, s, ids, order).table.rows, id) == RowOf(s.table.rows, id)
    ensures RebuildFrom(files, s.table.rows, ids).None?
  {
    var recovered := Recovered(files, s, ids);
    var processed := ProcessJobs(files, recovered, order);
    assert TableOk(recovered.table) by { RemoveKeeps(s.table, CollidedIds(files)); }
    RecoveredKeepsValid(files, s, ids, id);
    ProcessEvolves(files, recovered, order);
    PrunedRows(files, processed.table);
    RebuildIsExact(files, s.table.rows, ids);
    ValidIsFound(files, id);
    assert RowsOk(processed.table.rows);
    hide Valid, Find, ProcessJobs, Recovered, Prune, TableOk, Distinct, RebuildFrom;
    assert Evolves(files, recovered.table.rows, processed.table.rows, id);
  }

  lemma IndexedRowSettled(files: Files, table: Table, id: NoteId)
    requires RowsOk(table.rows) && id in Valid(files) && Indexed(files, table.rows, id)
    ensures Settled(files, table.rows, id) == table.rows[id] && Distinct(JobFor(files, id).note.relations)
  {
    hide Valid;
  }

  /** A table that is in step is its own rebuild. */
  lemma InStepIsRebuilt(files: Files, table: Table, ids: seq<NoteId>)
    requires TableOk(table) && Lists(ids, files)
    requires table.rows.Keys == Valid(files).Keys && AllIndexed(files, table.rows)
    ensures RebuildFrom(files, table.rows, ids) == Some(table)
  {
    hide Valid, Indexed, Settled, Distinct;
    forall id | id in Valid(files)
      ensures Settled(files, table.rows, id) == table.rows[id] && Distinct(JobFor(files, id).note.relations)
    {
      IndexedRowSettled(files, table, id);
    }
    RebuildIsExact(files, table.rows, ids);
    RebuildEffect(files, table.rows, ids);
    hide RebuildFrom;
    var rebuilt := RebuildFrom(files, table.rows, ids).value;
    assert rebuilt.rows == table.rows;
    RowsDetermineTable(rebuilt, table);
  }

  /** Once in step, synchronising again changes nothing. */
  lemma SyncAgainChangesNothing(files: Files, s: State, ids: seq<NoteId>, order: seq<Op>)
    requires TableOk(s.table) && Lists(ids, files) && Orders(order, Recovered(files, s, ids).jobs)
    requires s.table.rows.Keys == Valid(files).Keys && AllIndexed(files, s.table.rows)
    ensures Sync(files, s, ids, order).table == s.table
  {
    hide Valid, Indexed, Settled, TableOk, RebuildFrom, Sync, Recovered;
    InStepIsRebuilt(files, s.table, ids);
    forall id | id in Valid(files)
      ensures Indexed(files, Recovered(files, s, ids).table.rows, id)
    {
      RecoveredKeepsValid(files, s, ids, id);
    }
    assert Schedule(files, Recovered(files, s, ids), order, map[]);
    SyncEqualsRebuildIffScheduled(files, s, ids, order);
  }

  /** The valid note `n` moved to a path at which another note of the ring is still indexed. */
  ghost predicate Blocked(files: Files, rows: Rows, holder: map<NoteId, NoteId>, n: NoteId) {
    && n in holder && n in Valid(files) && holder[n] != n && holder[n] in holder
    && RowPath(rows, holder[n]) == Some(Valid(files)[n])
  }

  function RowPath(rows: Rows, id: NoteId): Option<Path> {
    if id in rows then Some(rows[id].path) else None
  }

  /** A ring of notes each of which waits for the path of the next. */
  ghost predicate Ring(files: Files, rows: Rows, holder: map<NoteId, NoteId>) {
    forall n {:trigger Blocked(files, rows, holder, n)} :: n in holder ==> Blocked(files, rows, holder, n)
  }

  /** Rows of the ring are the same before and after. */
  ghost predicate SameRing(holder: map<NoteId, NoteId>, rows: Rows, now: Rows) {
    forall n :: n in holder ==> RowOf(now, n) == RowOf(rows, n)
  }

  lemma RingBlocks(files: Files, s: State, op: Op, holder: map<NoteId, NoteId>)
    requires Ring(files, s.table.rows, holder)
    ensures SameRing(holder, s.table.rows, ProcessJob(files, s, op).table.rows)
  {
    hide Valid, Find;
    if op.id in holder {
      assert Blocked(files, s.table.rows, holder, op.id);
      ValidIsFound(files, op.id);
      assert PathTaken(s.table.rows, Valid(files)[op.id], op.id);
    }
  }

  lemma RingStays(files: Files, rows: Rows, now: Rows, holder: map<NoteId, NoteId>)
    requires Ring(files, rows, holder) && SameRing(holder, rows, now)
    ensures Ring(files, now, holder)
  {
    hide Valid;
    forall n | n in holder
      ensures Blocked(files, now, holder, n)
    {
      assert Blocked(files, rows, holder, n);
      assert RowOf(now, holder[n]) == RowOf(rows, holder[n]);
    }
  }

  lemma {:induction false} RingBlocksAll(files: Files, s: State, order: seq<Op>, holder: map<NoteId, NoteId>)
    requires Ring(files, s.table.rows, holder)
    ensures SameRing(holder, s.table.rows, ProcessJobs(files, s, order).table.rows)
  {
    if order != [] {
      hide Ring, ProcessJob;
      var before := ProcessJobs(files, s, order[..|order| - 1]);
      RingBlocksAll(files, s, order[..|order| - 1], holder);
      RingStays(files, s.table.rows, before.table.rows, holder);
      RingBlocks(files, before, order[|order| - 1], holder);
    }
  }

  lemma RecoveredKeepsRing(files: Files, s: State, ids: seq<NoteId>, holder: map<NoteId, NoteId>)
    requires Lists(ids, files) && Ring(files, s.table.rows, holder)
    ensures SameRing(holder, s.table.rows, Recovered(files, s, ids).table.rows)
  {
    hide Valid, Recovered;
    forall n | n in holder
      ensures RowOf(Recovered(files, s, ids).table.rows, n) == RowOf(s.table.rows, n)
    {
      assert Blocked(files, s.table.rows, holder, n);
      RecoveredKeepsValid(files, s, ids, n);
    }
  }

  lemma PruneKeepsRing(files: Files, table: Table, holder: map<NoteId, NoteId>)
    requires Ring(files, table.rows, holder)
    ensures SameRing(holder, table.rows, Prune(files, table).rows)
  {
    PrunedRows(files, table);
    hide Valid, Prune;
    forall n | n in holder
      ensures RowOf(Prune(files, table).rows, n) == RowOf(table.rows, n)
    {
      assert Blocked(files, table.rows, holder, n);
    }
  }

  /**
   * Notes that exchanged their paths are never indexed again: synchronising leaves their old rows, whatever the jobs and
   * their order, so that the next synchronisation finds them as stuck as before.
   */
  lemma ExchangedPathsNeverConverge(files: Files, s: State, ids: seq<NoteId>, order: seq<Op>, holder: map<NoteId, NoteId>)
    requires Lists(ids, files) && Ring(files, s.table.rows, holder)
    ensures Ring(files, Sync(files, s, ids, order).table.rows, holder)
    ensures SameRing(holder, s.table.rows, Sync(files, s, ids, order).table.rows)
  {
    hide Valid, Prune, ProcessJobs, Recovered, Ring;
    var recovered := Recovered(files, s, ids);
    var processed := ProcessJobs(files, recovered, order);
    var synced := Prune(files, processed.table);
    RecoveredKeepsRing(files, s, ids, holder);
    RingStays(files, s.table.rows, recovered.table.rows, holder);
    RingBlocksAll(files, recovered, order, holder);
    RingStays(files, recovered.table.rows, processed.table.rows, holder);
    PruneKeepsRing(files, processed.table, holder);
    RingStays(files, processed.table.rows, synced.rows, holder);
  }

  lemma SwapFiles(p: Path, q: Path, a: Note, b: Note)
    requires p.key != q.key && a.id == 0 && b.id == 1
    ensures Valid(map[p := a, q := b]) == map[0 := p, 1 := q]
  {
    var files := map[p := a, q := b];
    assert files[p].id == 0 && files[q].id == 1;
    assert !Collides(files, p) && !Collides(files, q);
    assert p in files && q in files;
  }

  lemma SwapTableOk(p: Path, q: Path, a: Note, b: Note)
    requires p != q && a.id == 0 && b.id == 1 && a.relations == b.relations == []
    ensures TableOk(Table(map[0 := Row(q, a, 1), 1 := Row(p, b, 1)], {}))
  {
  }

  lemma SwapBlocks(p: Path, q: Path, a: Note, b: Note)
    requires p.key != q.key && a.id == 0 && b.id == 1
    ensures Ring(map[p := a, q := b], map[0 := Row(q, a, 1), 1 := Row(p, b, 1)], map[0 := 1, 1 := 0])
  {
    SwapFiles(p, q, a, b);
    hide Valid;
    var holder: map<NoteId, NoteId> := map[0 := 1, 1 := 0];
    assert 0 in holder && 1 in holder;
  }

  lemma SwapRebuilds(p: Path, q: Path, a: Note, b: Note, before: Rows)
    requires p.key != q.key && a.id == 0 && b.id == 1 && a.relations == b.relations == []
    ensures Lists([0, 1], map[p := a, q := b]) && RebuildFrom(map[p := a, q := b], before, [0, 1]).Some?
  {
    var files, ids := map[p := a, q := b], [0, 1];
    SwapFiles(p, q, a, b);
    hide Valid, RebuildFrom, Settled;
    assert ids[0] == 0 && ids[1] == 1;
    assert Lists(ids, files);
    assert AllDistinct(files);
    RebuildIsExact(files, before, ids);
  }

  /** The rebuild of two files as they were before they swapped names. */
  lemma UnswappedRebuild(p: Path, q: Path, a: Note, b: Note)
    requires p.key != q.key && a.id == 0 && b.id == 1 && a.relations == b.relations == []
    ensures Lists([0, 1], map[q := a, p := b])
    ensures RebuildFrom(map[q := a, p := b], map[], [0, 1]) == Some(Table(map[0 := Row(q, a, 1), 1 := Row(p, b, 1)], {}))
  {
    hide Valid, RebuildFrom, Distinct, TableOk, Settled;
    var files, table := map[q := a, p := b], Table(map[0 := Row(q, a, 1), 1 := Row(p, b, 1)], {});
    SwapRebuilds(q, p, a, b, map[]);
    RebuildIsExact(files, map[], [0, 1]);
    RebuildEffect(files, map[], [0, 1]);
    UnswappedRows(p, q, a, b);
    SwapTableOk(p, q, a, b);
    SameTables(RebuildFrom(files, map[], [0, 1]).value, table);
  }

  lemma UnswappedRows(p: Path, q: Path, a: Note, b: Note)
    requires p.key != q.key && a.id == 0 && b.id == 1
    ensures SettledRows(map[q := a, p := b], map[]) == map[0 := Row(q, a, 1), 1 := Row(p, b, 1)]
  {
    SwapFiles(q, p, a, b);
    hide Valid;
  }

  lemma SameTables(a: Table, b: Table)
    requires TableOk(a) && TableOk(b) && a.rows == b.rows
    ensures a == b
  {
    RowsDetermineTable(a, b);
  }

  /** The swapped state is reached: index both files, then swap their names. */
  lemma SwapIsReachable(p: Path, q: Path, a: Note, b: Note)
    requires p.key != q.key && a.id == 0 && b.id == 1 && a.relations == b.relations == []
    ensures var table := Table(map[0 := Row(q, a, 1), 1 := Row(p, b, 1)], {});
            IndexRuns.Reachable(IndexRuns.World(map[p := a, q := b], State(table, map[]), IndexRuns.Idle))
  {
    var before, after := map[q := a, p := b], map[p := a, q := b];
    var start := IndexRuns.World(before, State(NOTHING_INDEXED, map[]), IndexRuns.Idle);
    var rebuild, edit := IndexRuns.Rebuild([0, 1]), IndexRuns.Edit(after);
    UnswappedRebuild(p, q, a, b);
    hide RebuildFrom, Lists, IndexRuns.Execute;
    var table := Table(map[0 := Row(q, a, 1), 1 := Row(p, b, 1)], {});
    assert IndexRuns.Next(start, rebuild) == start.(s := State(table, map[]));
    assert IndexRuns.Next(start.(s := State(table, map[])), edit) == IndexRuns.World(after, State(table, map[]), IndexRuns.Idle);
    hide IndexRuns.Next;
    IndexRuns.TwoSteps(start, rebuild, edit);
  }

  /** Two files that swapped names, in a state that a run reaches: a rebuild indexes both, synchronising neither. */
  lemma SwapExample(p: Path, q: Path, a: Note, b: Note, order: seq<Op>)
    requires p.key != q.key && a.id == 0 && b.id == 1 && a.relations == b.relations == []
    ensures var files := map[p := a, q := b];
            var table := Table(map[0 := Row(q, a, 1), 1 := Row(p, b, 1)], {});
            var synced := Sync(files, State(table, map[]), [0, 1], order).table;
            && IndexRuns.Reachable(IndexRuns.World(files, State(table, map[]), IndexRuns.Idle))
            && TableOk(table) && Lists([0, 1], files) && RebuildFrom(files, table.rows, [0, 1]).Some?
            && RowOf(synced.rows, 0) == Some(Row(q, a, 1)) && RowOf(synced.rows, 1) == Some(Row(p, b, 1))
  {
    var files := map[p := a, q := b];
    var table := Table(map[0 := Row(q, a, 1), 1 := Row(p, b, 1)], {});
    var holder: map<NoteId, NoteId> := map[0 := 1, 1 := 0];
    SwapTableOk(p, q, a, b);
    SwapBlocks(p, q, a, b);
    SwapRebuilds(p, q, a, b, table.rows);
    hide Valid, RebuildFrom, TableOk, Sync, Ring, Lists, IndexRuns.Reachable;
    SwapIsReachable(p, q, a, b);
    ExchangedPathsNeverConverge(files, State(table, map[]), [0, 1], order, holder);
    assert 0 in holder && 1 in holder;
  }
}
