/** Repeating a synchronisation on unchanged files: it ends in step with a rebuild exactly when no notes exchanged paths. */
module IndexConvergence {
  import opened Base
  import opened Notes
  import opened NoteIndex
  import opened IndexSync
  import opened IndexTheorems

  // ---------------------------------------------------------------------------------------------
  // One round

  lemma {:induction false} StaysIndexedAll(files: Files, s: State, order: seq<Op>, k: nat, n: NoteId)
    requires n in Valid(files) && k <= |order| && Indexed(files, ProcessJobs(files, s, order[..k]).table.rows, n)
    ensures Indexed(files, ProcessJobs(files, s, order).table.rows, n)
    decreases |order| - k
  {
    hide Valid, Indexed, ProcessJob;
    if k < |order| {
      assert order[..k + 1][..k] == order[..k];
      StaysIndexed(files, ProcessJobs(files, s, order[..k]), order[k], n);
      StaysIndexedAll(files, s, order, k + 1, n);
    } else {
      assert order[..k] == order;
    }
  }

  /** No other row holds the path of `n`. */
  ghost predicate Unheld(files: Files, rows: Rows, n: NoteId) {
    n in Valid(files) && !PathTaken(rows, Valid(files)[n], n)
  }

  /** Processing gives nobody the path of a note but the note itself. */
  lemma UnheldStays(files: Files, before: Rows, now: Rows, n: NoteId)
    requires Evolved(files, before, now) && Unheld(files, before, n)
    ensures Unheld(files, now, n)
  {
    ValidIsFound(files, n);
    hide Valid, Find;
    forall m | m in now && m != n
      ensures now[m].path != Valid(files)[n]
    {
      assert Evolves(files, before, now, m);
    }
  }

  lemma FreeJobIndexes(files: Files, s: State, op: Op, n: NoteId)
    requires Unheld(files, s.table.rows, n) && Distinct(JobFor(files, n).note.relations)
    requires op.id == n && op in s.jobs && s.jobs[op] == Pending
    ensures Indexed(files, ProcessJob(files, s, op).table.rows, n)
  {
    ValidIsFound(files, n);
    hide Valid, Find, Distinct;
  }

  /** A pending job of a note whose path is free indexes it, wherever the job stands in the order. */
  lemma FreeNoteIsProcessed(files: Files, s: State, order: seq<Op>, n: NoteId)
    requires TableOk(s.table) && Unheld(files, s.table.rows, n) && Distinct(JobFor(files, n).note.relations)
    requires Orders(order, s.jobs) && JobFor(files, n) in s.jobs && s.jobs[JobFor(files, n)] == Pending
    ensures Indexed(files, ProcessJobs(files, s, order).table.rows, n)
  {
    var op := JobFor(files, n);
    hide Valid, Indexed, TableOk, Unheld, Evolved, ProcessJob, Distinct;
    var k := PlaceOf(order, op);
    var before := ProcessJobs(files, s, order[..k]);
    ProcessEvolves(files, s, order[..k]);
    UnheldStays(files, s.table.rows, before.table.rows, n);
    JobsEnd(files, s, order[..k], op);
    assert op !in order[..k];
    FreeJobIndexes(files, before, op, n);
    assert order[..k + 1][..k] == order[..k];
    StaysIndexedAll(files, s, order, k + 1, n);
  }

  lemma PruneKeepsIndexed(files: Files, table: Table, n: NoteId)
    requires n in Valid(files)
    ensures Indexed(files, Prune(files, table).rows, n) <==> Indexed(files, table.rows, n)
  {
    PrunedRows(files, table);
    hide Valid, Prune;
    assert RowOf(Prune(files, table).rows, n) == RowOf(table.rows, n);
  }

  /** A state in which rounds can start: consistent, no job left running. */
  ghost predicate Quiet(s: State) {
    TableOk(s.table) && NoneIn(s.jobs, Running)
  }

  ghost predicate MayRun(files: Files, s: State, ids: seq<NoteId>, order: seq<Op>) {
    Lists(ids, files) && Orders(order, Recovered(files, s, ids).jobs)
  }

  lemma RecoveredOk(files: Files, s: State, ids: seq<NoteId>)
    requires Quiet(s) && Lists(ids, files)
    ensures Quiet(Recovered(files, s, ids))
  {
    RemoveKeeps(s.table, CollidedIds(files));
    hide TableOk;
    PlanLeavesNoneRunning(files, s.table.rows, s.jobs, ids);
  }

  /** What one round keeps, and what it does to each valid note's row. */
  lemma RoundKeeps(files: Files, s: State, ids: seq<NoteId>, order: seq<Op>)
    requires Quiet(s) && MayRun(files, s, ids, order)
    ensures Quiet(Sync(files, s, ids, order))
    ensures Sync(files, s, ids, order).table.rows.Keys <= Valid(files).Keys
    ensures forall id :: id in Valid(files) ==> Evolves(files, s.table.rows, Sync(files, s, ids, order).table.rows, id)
  {
    var recovered := Recovered(files, s, ids);
    var processed := ProcessJobs(files, recovered, order);
    hide TableOk, ProcessJobs, Recovered, Prune, Evolves, Valid;
    RecoveredOk(files, s, ids);
    ProcessEvolves(files, recovered, order);
    ProcessingFinishes(files, recovered, order);
    PruneKeeps(files, processed.table);
    PrunedRows(files, processed.table);
    var rows := Prune(files, processed.table).rows;
    forall id | id in rows
      ensures id in Valid(files)
    {
      assert RowOf(rows, id).Some?;
    }
    forall id | id in Valid(files)
      ensures Evolves(files, s.table.rows, rows, id)
    {
      RecoveredKeepsValid(files, s, ids, id);
      SameEvolution(files, s.table.rows, recovered.table.rows, processed.table.rows, rows, id);
    }
  }

  lemma SameEvolution(files: Files, a: Rows, b: Rows, c: Rows, d: Rows, id: NoteId)
    requires RowOf(a, id) == RowOf(b, id) && Evolves(files, b, c, id) && RowOf(c, id) == RowOf(d, id)
    ensures Evolves(files, a, d, id)
  {
    hide Find;
  }

  // ---------------------------------------------------------------------------------------------
  // Progress

  function ChangedSet(files: Files, rows: Rows): set<NoteId> {
    set n | n in Valid(files) && !Indexed(files, rows, n)
  }

  /** A changed note whose path is free is indexed by the next round. */
  lemma FreeNoteIsIndexed(files: Files, s: State, ids: seq<NoteId>, order: seq<Op>, n: NoteId)
    requires Quiet(s) && MayRun(files, s, ids, order) && AllDistinct(files)
    requires Unheld(files, s.table.rows, n) && !Indexed(files, s.table.rows, n)
    ensures Indexed(files, Sync(files, s, ids, order).table.rows, n)
  {
    var recovered := Recovered(files, s, ids);
    assert Unheld(files, recovered.table.rows, n);
    assert Distinct(JobFor(files, n).note.relations);
    hide TableOk, ProcessJobs, Recovered, Prune, Valid, Indexed, Distinct;
    RecoveredOk(files, s, ids);
    ChangedIsQueued(files, s, ids, n);
    FreeNoteIsProcessed(files, recovered, order, n);
    PruneKeepsIndexed(files, ProcessJobs(files, recovered, order).table, n);
  }

  lemma IndexedStays(files: Files, before: Rows, now: Rows, n: NoteId)
    requires n in Valid(files) && Evolves(files, before, now, n) && Indexed(files, before, n)
    ensures Indexed(files, now, n)
  {
    ValidIsFound(files, n);
    hide Valid, Find;
  }

  lemma ChangedShrinks(files: Files, before: Rows, now: Rows)
    requires forall id :: id in Valid(files) ==> Evolves(files, before, now, id)
    ensures ChangedSet(files, now) <= ChangedSet(files, before)
  {
    hide Valid, Indexed, Evolves;
    forall n | n in ChangedSet(files, now)
      ensures n in ChangedSet(files, before)
    {
      if Indexed(files, before, n) { IndexedStays(files, before, now, n); }
    }
  }

  ghost predicate HasRing(files: Files, rows: Rows) {
    exists holder :: holder != map[] && Ring(files, rows, holder)
  }

  /** Whoever holds another note's path is itself changed, when every row is of a valid note. */
  lemma HolderIsChanged(files: Files, rows: Rows, n: NoteId, m: NoteId)
    requires n in Valid(files) && m in Valid(files) && m != n && m in rows && rows[m].path == Valid(files)[n]
    ensures m in ChangedSet(files, rows)
  {
    ValidIsFound(files, n);
    ValidIsFound(files, m);
    hide Valid;
  }

  ghost function HolderOf(files: Files, rows: Rows, n: NoteId): (m: NoteId)
    requires n in Valid(files) && PathTaken(rows, Valid(files)[n], n)
    ensures m in rows && m != n && rows[m].path == Valid(files)[n]
  {
    var m :| m in rows && m != n && rows[m].path == Valid(files)[n];
    m
  }

  lemma AllHeldMakesARing(files: Files, rows: Rows)
    requires rows.Keys <= Valid(files).Keys && ChangedSet(files, rows) != {}
    requires forall n :: n in ChangedSet(files, rows) ==> PathTaken(rows, Valid(files)[n], n)
    ensures HasRing(files, rows)
  {
    hide Valid, Indexed, PathTaken;
    var holder := map n | n in ChangedSet(files, rows) :: HolderOf(files, rows, n);
    forall n | n in holder
      ensures Blocked(files, rows, holder, n)
    {
      HolderIsChanged(files, rows, n, holder[n]);
    }
    var n :| n in ChangedSet(files, rows);
    assert n in holder;
    assert Ring(files, rows, holder);
  }

  /** One more round with no ring: some changed note's path is free, and the round indexes it. */
  lemma RoundProgresses(files: Files, s: State, ids: seq<NoteId>, order: seq<Op>)
    requires Quiet(s) && MayRun(files, s, ids, order) && AllDistinct(files)
    requires s.table.rows.Keys <= Valid(files).Keys && !HasRing(files, s.table.rows)
    ensures var after := ChangedSet(files, Sync(files, s, ids, order).table.rows);
            after <= ChangedSet(files, s.table.rows) && (after == {} || |after| < |ChangedSet(files, s.table.rows)|)
  {
    var rows, now := s.table.rows, Sync(files, s, ids, order).table.rows;
    hide Valid, Indexed, Quiet, MayRun, Sync, HasRing, PathTaken, AllDistinct, Evolves;
    RoundKeeps(files, s, ids, order);
    ChangedShrinks(files, rows, now);
    if ChangedSet(files, rows) != {} {
      if forall n :: n in ChangedSet(files, rows) ==> PathTaken(rows, Valid(files)[n], n) {
        AllHeldMakesARing(files, rows);
      }
      var n :| n in ChangedSet(files, rows) && !PathTaken(rows, Valid(files)[n], n);
      FreeNoteIsIndexed(files, s, ids, order, n);
      assert n !in ChangedSet(files, now);
      Smaller(ChangedSet(files, now), ChangedSet(files, rows), n);
    }
  }

  lemma Smaller(a: set<NoteId>, b: set<NoteId>, n: NoteId)
    requires a <= b && n in b && n !in a
    ensures |a| < |b|
  {
    assert a <= b - {n};
    assert |b - a| == |b| - |a|;
    assert n in b - a;
  }

  // ---------------------------------------------------------------------------------------------
  // Any number of rounds

  function Syncs(files: Files, s: State, ids: seq<NoteId>, orders: seq<seq<Op>>): State
    requires forall i :: 0 <= i < |ids| ==> ids[i] in Valid(files)
  {
    if orders == [] then s
    else Sync(files, Syncs(files, s, ids, orders[..|orders| - 1]), ids, orders[|orders| - 1])
  }

  /** Each round meets an order of the jobs there are then. */
  ghost predicate AllMayRun(files: Files, s: State, ids: seq<NoteId>, orders: seq<seq<Op>>) {
    && Lists(ids, files)
    && forall i :: 0 <= i < |orders| ==> MayRun(files, Syncs(files, s, ids, orders[..i]), ids, orders[i])
  }

  lemma Earlier(files: Files, s: State, ids: seq<NoteId>, orders: seq<seq<Op>>)
    requires orders != [] && AllMayRun(files, s, ids, orders)
    ensures AllMayRun(files, s, ids, orders[..|orders| - 1])
    ensures MayRun(files, Syncs(files, s, ids, orders[..|orders| - 1]), ids, orders[|orders| - 1])
  {
    hide MayRun, Valid, Syncs;
    var earlier := orders[..|orders| - 1];
    forall i | 0 <= i < |earlier|
      ensures MayRun(files, Syncs(files, s, ids, earlier[..i]), ids, earlier[i])
    {
      assert earlier[..i] == orders[..i];
    }
  }

  lemma EvolvesOn(files: Files, a: Rows, b: Rows, c: Rows, id: NoteId)
    requires Evolves(files, a, b, id) && Evolves(files, b, c, id)
    ensures Evolves(files, a, c, id)
  {
    hide Find;
  }

  lemma {:induction false} SyncsKeep(files: Files, s: State, ids: seq<NoteId>, orders: seq<seq<Op>>)
    requires Quiet(s) && AllMayRun(files, s, ids, orders)
    ensures Quiet(Syncs(files, s, ids, orders))
    ensures orders != [] ==> Syncs(files, s, ids, orders).table.rows.Keys <= Valid(files).Keys
    ensures forall id :: id in Valid(files) ==> Evolves(files, s.table.rows, Syncs(files, s, ids, orders).table.rows, id)
  {
    if orders != [] {
      Earlier(files, s, ids, orders);
      hide Valid, Quiet, MayRun, Sync, Evolves;
      var before := Syncs(files, s, ids, orders[..|orders| - 1]);
      SyncsKeep(files, s, ids, orders[..|orders| - 1]);
      RoundKeeps(files, before, ids, orders[|orders| - 1]);
      var now := Syncs(files, s, ids, orders).table.rows;
      forall id | id in Valid(files)
        ensures Evolves(files, s.table.rows, now, id)
      {
        EvolvesOn(files, s.table.rows, before.table.rows, now, id);
      }
    }
  }

  lemma BlockedBefore(files: Files, before: Rows, now: Rows, holder: map<NoteId, NoteId>, n: NoteId)
    requires Blocked(files, now, holder, n) && holder[n] in Valid(files) && Evolves(files, before, now, holder[n])
    ensures Blocked(files, before, holder, n)
  {
    ValidIsFound(files, n);
    ValidIsFound(files, holder[n]);
    hide Valid, Find;
  }

  /** No round makes a ring. */
  lemma RingsAreOld(files: Files, before: Rows, now: Rows)
    requires forall id :: id in Valid(files) ==> Evolves(files, before, now, id)
    ensures HasRing(files, now) ==> HasRing(files, before)
  {
    hide Valid, Evolves;
    if holder :| holder != map[] && Ring(files, now, holder) {
      forall n | n in holder
        ensures Blocked(files, before, holder, n)
      {
        assert Blocked(files, now, holder, n);
        assert Blocked(files, now, holder, holder[n]);
        BlockedBefore(files, before, now, holder, n);
      }
      assert Ring(files, before, holder);
    }
  }

  lemma {:induction false} SyncsProgress(files: Files, s: State, ids: seq<NoteId>, orders: seq<seq<Op>>)
    requires Quiet(s) && AllMayRun(files, s, ids, orders) && AllDistinct(files) && !HasRing(files, s.table.rows)
    requires orders != []
    ensures |ChangedSet(files, Syncs(files, s, ids, orders).table.rows)| <= Max(0, |ChangedSet(files, s.table.rows)| - (|orders| - 1))
  {
    Earlier(files, s, ids, orders);
    hide Valid, Quiet, MayRun, Sync, HasRing, AllDistinct, Evolves, ChangedSet, AllMayRun;
    var before := Syncs(files, s, ids, orders[..|orders| - 1]);
    SyncsKeep(files, s, ids, orders[..|orders| - 1]);
    if |orders| == 1 {
      SyncsKeep(files, s, ids, orders);
      ChangedShrinks(files, s.table.rows, Syncs(files, s, ids, orders).table.rows);
      NoBigger(ChangedSet(files, Syncs(files, s, ids, orders).table.rows), ChangedSet(files, s.table.rows));
    } else {
      SyncsProgress(files, s, ids, orders[..|orders| - 1]);
      RingsAreOld(files, s.table.rows, before.table.rows);
      RoundProgresses(files, before, ids, orders[|orders| - 1]);
    }
  }

  lemma NoBigger(a: set<NoteId>, b: set<NoteId>)
    requires a <= b
    ensures |a| <= |b|
  {
    assert |b - a| == |b| - |a|;
  }

  /** A table of valid notes, all indexed, that evolved from `before` is the rebuild from `before`. */
  lemma InStepIsTheRebuild(files: Files, before: Rows, table: Table, ids: seq<NoteId>)
    requires TableOk(table) && Lists(ids, files) && AllDistinct(files)
    requires table.rows.Keys <= Valid(files).Keys && ChangedSet(files, table.rows) == {}
    requires forall id :: id in Valid(files) ==> Evolves(files, before, table.rows, id)
    ensures RebuildFrom(files, before, ids) == Some(table)
  {
    hide Valid, Indexed, TableOk, RebuildFrom, Settled, Evolves, Distinct;
    RebuildIsExact(files, before, ids);
    RebuildEffect(files, before, ids);
    forall id | id in Valid(files)
      ensures id in table.rows && table.rows[id] == Settled(files, before, id)
    {
      assert id !in ChangedSet(files, table.rows);
      assert Indexed(files, table.rows, id);
      IndexedIsSettled(files, before, table.rows, id);
      IndexedIsThere(files, table.rows, id);
    }
    var rebuilt := RebuildFrom(files, before, ids).value;
    assert rebuilt.rows == table.rows;
    SameTables(rebuilt, table);
  }

  lemma IndexedIsThere(files: Files, rows: Rows, id: NoteId)
    requires id in Valid(files) && Indexed(files, rows, id)
    ensures id in rows
  {
  }

  /**
   * Repeated synchronisation of unchanged files, one round more than there are changed notes, ends with the table that a
   * rebuild makes if and only if no notes exchanged their paths in a ring.
   */
  lemma RepeatedSyncConvergesIffNoRing(files: Files, s: State, ids: seq<NoteId>, orders: seq<seq<Op>>)
    requires Quiet(s) && AllMayRun(files, s, ids, orders) && AllDistinct(files)
    requires |orders| > |ChangedSet(files, s.table.rows)|
    ensures Some(Syncs(files, s, ids, orders).table) == RebuildFrom(files, s.table.rows, ids)
            <==> !HasRing(files, s.table.rows)
  {
    var now := Syncs(files, s, ids, orders);
    assert now.table.rows.Keys <= Valid(files).Keys && Quiet(now) by { SyncsKeep(files, s, ids, orders); }
    SyncsKeep(files, s, ids, orders);
    hide Valid, TableOk, MayRun, Sync, HasRing, AllDistinct, Evolves, ChangedSet, AllMayRun, RebuildFrom;
    if !HasRing(files, s.table.rows) {
      SyncsProgress(files, s, ids, orders);
      InStepIsTheRebuild(files, s.table.rows, now.table, ids);
    } else {
      RingKeepsApart(files, s, ids, orders);
    }
  }

  lemma {:induction false} RingStaysThrough(files: Files, s: State, ids: seq<NoteId>, orders: seq<seq<Op>>, holder: map<NoteId, NoteId>)
    requires Lists(ids, files) && Ring(files, s.table.rows, holder)
    ensures Ring(files, Syncs(files, s, ids, orders).table.rows, holder)
  {
    hide Ring, Sync, Valid;
    if orders != [] {
      RingStaysThrough(files, s, ids, orders[..|orders| - 1], holder);
      ExchangedPathsNeverConverge(files, Syncs(files, s, ids, orders[..|orders| - 1]), ids, orders[|orders| - 1], holder);
    }
  }

  /** No number of rounds gets a ring in step. */
  lemma RingKeepsApart(files: Files, s: State, ids: seq<NoteId>, orders: seq<seq<Op>>)
    requires Lists(ids, files) && AllDistinct(files) && HasRing(files, s.table.rows)
    ensures Some(Syncs(files, s, ids, orders).table) != RebuildFrom(files, s.table.rows, ids)
  {
    var holder :| holder != map[] && Ring(files, s.table.rows, holder);
    var n :| n in holder;
    hide Valid, RebuildFrom, Syncs;
    RingStaysThrough(files, s, ids, orders, holder);
    var rows := Syncs(files, s, ids, orders).table.rows;
    assert Blocked(files, rows, holder, n);
    assert Blocked(files, rows, holder, holder[n]);
    RebuildIsExact(files, s.table.rows, ids);
    RebuiltRow(files, s.table.rows, ids, holder[n]);
    ValidIsFound(files, n);
    ValidIsFound(files, holder[n]);
  }
}
