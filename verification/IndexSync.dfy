/** Incremental synchronisation against rebuilding from scratch. */
module IndexSync {
  import opened Base
  import opened Notes
  import opened NoteIndex

  type Rows = map<NoteId, Row>

  // ---------------------------------------------------------------------------------------------
  // Planning

  /**
   * What planning does to one job: only the job of a listed note's file as it is now may change. It is written as done when
   * the manifest shows that file and there was no such job, and made pending when the manifest does not show it and the job
   * is neither pending nor running.
   */
  ghost predicate PlannedTo(files: Files, rows: Rows, jobs: Jobs, planned: Jobs, ids: seq<NoteId>, op: Op) {
    var current := op.id in ids && op.id in Valid(files) && Valid(files)[op.id] == op.path && op.path in files && files[op.path] == op.note;
    var shown := op.id in rows && rows[op.id].path == op.path && rows[op.id].note == op.note;
    if current && shown && op !in jobs then op in planned && planned[op] == Done
    else if current && !shown && (op !in jobs || jobs[op] == Done || jobs[op] == Quarantined) then
      op in planned && planned[op] == Pending
    else (op in planned <==> op in jobs) && (op in jobs ==> planned[op] == jobs[op])
  }

  lemma {:induction false} PlanEffect(files: Files, rows: Rows, jobs: Jobs, ids: seq<NoteId>, op: Op)
    requires forall i :: 0 <= i < |ids| ==> ids[i] in Valid(files)
    requires NoDuplicates(ids)
    ensures PlannedTo(files, rows, jobs, PlanJobs(files, rows, jobs, ids), ids, op)
  {
    hide Valid, Indexed;
    if ids != [] {
      var before, last := ids[..|ids| - 1], ids[|ids| - 1];
      assert ids == before + [last];
      hide PlannedTo;
      PlanEffect(files, rows, jobs, before, op);
      PlanEffect(files, rows, jobs, before, JobFor(files, last));
      PlanStep(files, rows, jobs, PlanJobs(files, rows, jobs, before), before, last, op);
    }
  }

  lemma PlanStep(files: Files, rows: Rows, jobs: Jobs, planned: Jobs, before: seq<NoteId>, last: NoteId, op: Op)
    requires last in Valid(files) && last !in before
    requires PlannedTo(files, rows, jobs, planned, before, op)
    requires PlannedTo(files, rows, jobs, planned, before, JobFor(files, last))
    ensures PlannedTo(files, rows, jobs, PlanJob(files, rows, planned, last), before + [last], op)
  {
    ValidIsFound(files, last);
    hide Valid, Find;
  }

  /** After planning, the job of a changed note is pending unless it was left running. */
  lemma ChangedIsQueued(files: Files, s: State, ids: seq<NoteId>, id: NoteId)
    requires Lists(ids, files) && NoneIn(s.jobs, Running) && id in Valid(files) && !Indexed(files, s.table.rows, id)
    ensures var after := Recovered(files, s, ids);
            JobFor(files, id) in after.jobs && after.jobs[JobFor(files, id)] == Pending
  {
    ValidIsFound(files, id);
    hide Valid, Find;
    PlanEffect(files, s.table.rows, s.jobs, ids, JobFor(files, id));
  }

  lemma PlanLeavesNoneRunning(files: Files, rows: Rows, jobs: Jobs, ids: seq<NoteId>)
    requires Lists(ids, files) && NoneIn(jobs, Running)
    ensures NoneIn(PlanJobs(files, rows, jobs, ids), Running)
  {
    hide Valid, Indexed;
    var planned := PlanJobs(files, rows, jobs, ids);
    forall op | op in planned
      ensures planned[op] != Running
    {
      PlanEffect(files, rows, jobs, ids, op);
    }
  }

  /** Removing the rows of colliding notes does not touch a valid note's row. */
  lemma RecoveredKeepsValid(files: Files, s: State, ids: seq<NoteId>, id: NoteId)
    requires Lists(ids, files) && id in Valid(files)
    ensures RowOf(Recovered(files, s, ids).table.rows, id) == RowOf(s.table.rows, id)
    ensures Indexed(files, Recovered(files, s, ids).table.rows, id) == Indexed(files, s.table.rows, id)
  {
    ValidIsFound(files, id);
  }

  lemma {:induction false} PlanReadsValidRows(files: Files, before: Rows, now: Rows, jobs: Jobs, ids: seq<NoteId>)
    requires forall i :: 0 <= i < |ids| ==> ids[i] in Valid(files) && RowOf(before, ids[i]) == RowOf(now, ids[i])
    ensures PlanJobs(files, before, jobs, ids) == PlanJobs(files, now, jobs, ids)
  {
    hide Valid;
    if ids != [] {
      PlanReadsValidRows(files, before, now, jobs, ids[..|ids| - 1]);
    }
  }

  /** Recovery is its two transactions when no crash divides them. */
  lemma TransactionsMakeRecovery(files: Files, s: State, ids: seq<NoteId>)
    requires Lists(ids, files)
    ensures Plan(files, s.(table := RemoveCollided(files, s.table)), ids) == Recovered(files, s, ids)
  {
    forall i | 0 <= i < |ids|
      ensures RowOf(s.table.rows, ids[i]) == RowOf(RemoveCollided(files, s.table).rows, ids[i])
    {
      RecoveredKeepsValid(files, s, ids, ids[i]);
    }
    hide Valid, RemoveCollided;
    PlanReadsValidRows(files, s.table.rows, RemoveCollided(files, s.table).rows, s.jobs, ids);
  }

  // ---------------------------------------------------------------------------------------------
  // Processing

  function FoundRow(files: Files, rows: Rows, id: NoteId): Row
    requires Find(files, id).Some?
  {
    var path := Find(files, id).value;
    Row(path, files[path], NextRevision(RowOf(rows, id), files[path]))
  }

  /** Processing leaves a row alone or makes it that of the note's file. */
  ghost predicate Evolves(files: Files, before: Rows, now: Rows, id: NoteId) {
    RowOf(now, id) == RowOf(before, id) || (Find(files, id).Some? && RowOf(now, id) == Some(FoundRow(files, before, id)))
  }

  ghost predicate Evolved(files: Files, before: Rows, now: Rows) {
    forall id :: Evolves(files, before, now, id)
  }

  lemma UpsertEvolves(files: Files, before: Rows, table: Table, id: NoteId)
    requires Evolved(files, before, table.rows) && Find(files, id).Some?
    requires Upsert(table, Find(files, id).value, files[Find(files, id).value], None).Some?
    ensures Evolved(files, before, Upsert(table, Find(files, id).value, files[Find(files, id).value], None).value.rows)
  {
    hide Find;
    var path := Find(files, id).value;
    var now := Upsert(table, path, files[path], None).value.rows;
    assert Evolves(files, before, table.rows, id);
    assert files[path].id == id;
    assert now[id] == FoundRow(files, before, id);
    forall m
      ensures Evolves(files, before, now, m)
    {
      assert Evolves(files, before, table.rows, m);
    }
  }

  lemma ProcessJobEvolves(files: Files, before: Rows, s: State, op: Op)
    requires Evolved(files, before, s.table.rows) && TableOk(s.table)
    ensures Evolved(files, before, ProcessJob(files, s, op).table.rows) && TableOk(ProcessJob(files, s, op).table)
  {
    hide Find, Upsert, Evolved, TableOk;
    if Find(files, op.id).Some? && Upsert(s.table, Find(files, op.id).value, files[Find(files, op.id).value], None).Some? {
      UpsertEvolves(files, before, s.table, op.id);
      UpsertKeeps(s.table, Find(files, op.id).value, files[Find(files, op.id).value], None);
    }
  }

  lemma {:induction false} ProcessEvolves(files: Files, s: State, order: seq<Op>)
    requires TableOk(s.table)
    ensures Evolved(files, s.table.rows, ProcessJobs(files, s, order).table.rows)
    ensures TableOk(ProcessJobs(files, s, order).table)
  {
    if order != [] {
      hide TableOk, Evolved, ProcessJob;
      ProcessEvolves(files, s, order[..|order| - 1]);
      ProcessJobEvolves(files, s.table.rows, ProcessJobs(files, s, order[..|order| - 1]), order[|order| - 1]);
    }
  }

  /** A job is processed once: pending jobs of the processed part end, every other job keeps its state. */
  lemma {:induction false} JobsEnd(files: Files, s: State, order: seq<Op>, op: Op)
    requires NoDuplicates(order)
    ensures var jobs := ProcessJobs(files, s, order).jobs;
            && (op in jobs <==> op in s.jobs)
            && (op in jobs && op in order && s.jobs[op] == Pending ==> jobs[op] == Done || jobs[op] == Quarantined)
            && (op in jobs && !(op in order && s.jobs[op] == Pending) ==> jobs[op] == s.jobs[op])
  {
    hide Find, Upsert;
    if order != [] {
      var before, last := order[..|order| - 1], order[|order| - 1];
      assert order == before + [last];
      JobsEnd(files, s, before, op);
    }
  }

  /** The loop ends with no job pending, and with none running when none was. */
  lemma ProcessingFinishes(files: Files, s: State, order: seq<Op>)
    requires Orders(order, s.jobs)
    ensures NoneIn(ProcessJobs(files, s, order).jobs, Pending)
    ensures NoneIn(s.jobs, Running) ==> NoneIn(ProcessJobs(files, s, order).jobs, Running)
  {
    hide ProcessJobs;
    forall op | op in ProcessJobs(files, s, order).jobs
      ensures op in s.jobs && ProcessJobs(files, s, order).jobs[op] != Pending
      ensures s.jobs[op] != Running ==> ProcessJobs(files, s, order).jobs[op] != Running
    {
      JobsEnd(files, s, order, op);
    }
  }

  // ---------------------------------------------------------------------------------------------
  // Schedules

  predicate Changed(files: Files, rows: Rows, id: NoteId) {
    id in Valid(files) && !Indexed(files, rows, id)
  }

  /** Note `n` has a pending job at place `turn[n]`, after that of the note whose row still holds the path `n` moved to. */
  ghost predicate HasTurn(files: Files, s: State, order: seq<Op>, turn: map<NoteId, nat>, n: NoteId)
    requires n in Valid(files)
  {
    && n in turn && turn[n] < |order|
    && order[turn[n]].id == n && order[turn[n]] in s.jobs && s.jobs[order[turn[n]]] == Pending
    && forall m :: m in s.table.rows && m != n && s.table.rows[m].path == Valid(files)[n] ==>
         m in Valid(files) && m in turn && turn[m] < turn[n]
  }

  /** Every changed note can be given a turn: each path is given up before it is needed. */
  ghost predicate Schedule(files: Files, s: State, order: seq<Op>, turn: map<NoteId, nat>) {
    forall n :: Changed(files, s.table.rows, n) ==> HasTurn(files, s, order, turn, n)
  }

  /** After the first `k` jobs, every note whose turn has come is indexed, and so is every unchanged note. */
  ghost predicate OnTime(files: Files, rows: Rows, now: Rows, turn: map<NoteId, nat>, k: nat) {
    forall n :: n in Valid(files) && (Indexed(files, rows, n) || (n in turn && turn[n] < k)) ==> Indexed(files, now, n)
  }

  lemma StaysIndexed(files: Files, s: State, op: Op, n: NoteId)
    requires n in Valid(files) && Indexed(files, s.table.rows, n)
    ensures Indexed(files, ProcessJob(files, s, op).table.rows, n)
  {
    ValidIsFound(files, n);
    hide Find, Valid;
  }

  /** The holder of the path that `n` moved to has moved away when `n`'s turn comes. */
  lemma PathIsFree(files: Files, s: State, now: Rows, order: seq<Op>, turn: map<NoteId, nat>, n: NoteId)
    requires n in Valid(files) && HasTurn(files, s, order, turn, n)
    requires Evolved(files, s.table.rows, now) && OnTime(files, s.table.rows, now, turn, turn[n])
    ensures !PathTaken(now, Valid(files)[n], n)
  {
    ValidIsFound(files, n);
    hide Find, Valid;
    forall m | m in now && m != n
      ensures now[m].path != Valid(files)[n]
    {
      assert Evolves(files, s.table.rows, now, m);
      if RowOf(now, m) == RowOf(s.table.rows, m) && now[m].path == Valid(files)[n] {
        assert Indexed(files, now, m);
        ValidIsFound(files, m);
      }
    }
  }

  lemma TurnIndexes(files: Files, s: State, now: State, order: seq<Op>, turn: map<NoteId, nat>, n: NoteId)
    requires n in Valid(files) && HasTurn(files, s, order, turn, n) && Distinct(JobFor(files, n).note.relations)
    requires Evolved(files, s.table.rows, now.table.rows) && OnTime(files, s.table.rows, now.table.rows, turn, turn[n])
    requires order[turn[n]] in now.jobs && now.jobs[order[turn[n]]] == Pending
    ensures Indexed(files, ProcessJob(files, now, order[turn[n]]).table.rows, n)
  {
    PathIsFree(files, s, now.table.rows, order, turn, n);
    ValidIsFound(files, n);
    hide Find, Valid, Evolved, OnTime, HasTurn, PathTaken;
  }

  lemma {:induction false} ScheduleKeepsTime(files: Files, s: State, order: seq<Op>, turn: map<NoteId, nat>, k: nat)
    requires TableOk(s.table) && Schedule(files, s, order, turn) && AllDistinct(files) && NoDuplicates(order)
    requires k <= |order|
    ensures OnTime(files, s.table.rows, ProcessJobs(files, s, order[..k]).table.rows, turn, k)
  {
    if k > 0 {
      ScheduleKeepsTime(files, s, order, turn, k - 1);
      ProcessEvolves(files, s, order[..k - 1]);
      var before := ProcessJobs(files, s, order[..k - 1]);
      var op := order[k - 1];
      assert order[..k][..k - 1] == order[..k - 1];
      var now := ProcessJob(files, before, op);
      JobsEnd(files, s, order[..k - 1], op);
      assert op !in order[..k - 1];
      hide Valid, Indexed, ProcessJob, TableOk, Evolved;
      forall n | n in Valid(files) && (Indexed(files, s.table.rows, n) || (n in turn && turn[n] < k))
        ensures Indexed(files, now.table.rows, n)
      {
        if Indexed(files, before.table.rows, n) {
          StaysIndexed(files, before, op, n);
        } else {
          assert HasTurn(files, s, order, turn, n) && turn[n] == k - 1;
          assert Distinct(JobFor(files, n).note.relations);
          TurnIndexes(files, s, before, order, turn, n);
        }
      }
    }
  }

  ghost predicate NoCollidedRows(files: Files, rows: Rows) {
    forall id :: id in rows ==> id !in CollidedIds(files)
  }

  /** When a note is indexed for the first time, whoever held its path had been indexed elsewhere before. */
  lemma HolderMovedBefore(files: Files, before: Rows, now: Rows, n: NoteId, m: NoteId)
    requires Evolved(files, before, now) && NoCollidedRows(files, before)
    requires n in Valid(files) && m in before && m != n && before[m].path == Valid(files)[n]
    requires !PathTaken(now, Valid(files)[n], n)
    ensures Changed(files, before, m) && Indexed(files, now, m)
  {
    assert Evolves(files, before, now, m);
    assert RowOf(now, m) != RowOf(before, m);
    FoundIsValid(files, m);
    ValidIsFound(files, m);
    ValidIsFound(files, n);
  }

  lemma NewlyIndexed(files: Files, now: State, op: Op, n: NoteId)
    requires n in Valid(files) && !Indexed(files, now.table.rows, n)
    requires Indexed(files, ProcessJob(files, now, op).table.rows, n)
    ensures op.id == n && op in now.jobs && now.jobs[op] == Pending
    ensures !PathTaken(now.table.rows, Valid(files)[n], n)
  {
    ValidIsFound(files, n);
    hide Find, Valid;
  }

  /** Turns for the notes that the first `k` jobs indexed. */
  ghost predicate TurnsTaken(files: Files, s: State, order: seq<Op>, now: Rows, turn: map<NoteId, nat>, k: nat) {
    && (forall n :: n in turn ==> Changed(files, s.table.rows, n) && Indexed(files, now, n) && turn[n] < k)
    && (forall n :: Changed(files, s.table.rows, n) && Indexed(files, now, n) ==>
          n in turn && HasTurn(files, s, order, turn, n))
  }

  lemma HolderHasTurn(files: Files, s: State, order: seq<Op>, now: Rows, turn: map<NoteId, nat>, k: nat, n: NoteId, m: NoteId)
    requires NoCollidedRows(files, s.table.rows) && TurnsTaken(files, s, order, now, turn, k)
    requires Evolved(files, s.table.rows, now)
    requires n in Valid(files) && m in s.table.rows && m != n && s.table.rows[m].path == Valid(files)[n]
    requires !PathTaken(now, Valid(files)[n], n)
    ensures m in Valid(files) && m in turn && turn[m] < k
  {
    HolderMovedBefore(files, s.table.rows, now, n, m);
    hide Valid, Indexed, Evolved, NoCollidedRows, PathTaken;
    assert HasTurn(files, s, order, turn, m);
  }

  lemma TurnTaken(files: Files, s: State, order: seq<Op>, before: State, turn: map<NoteId, nat>, k: nat, n: NoteId)
    requires NoCollidedRows(files, s.table.rows) && k < |order| && TurnsTaken(files, s, order, before.table.rows, turn, k)
    requires Evolved(files, s.table.rows, before.table.rows)
    requires order[k] in before.jobs && before.jobs[order[k]] == Pending ==> order[k] in s.jobs && s.jobs[order[k]] == Pending
    requires n in Valid(files) && !Indexed(files, before.table.rows, n)
    requires Indexed(files, ProcessJob(files, before, order[k]).table.rows, n)
    ensures HasTurn(files, s, order, turn[n := k], n)
  {
    hide Valid, Indexed, ProcessJob, Evolved, NoCollidedRows, PathTaken, TurnsTaken;
    NewlyIndexed(files, before, order[k], n);
    forall m | m in s.table.rows && m != n && s.table.rows[m].path == Valid(files)[n]
      ensures m in Valid(files) && m in turn && turn[m] < k
    {
      HolderHasTurn(files, s, order, before.table.rows, turn, k, n, m);
    }
  }

  lemma {:induction false} TurnsExist(files: Files, s: State, order: seq<Op>, k: nat) returns (turn: map<NoteId, nat>)
    requires TableOk(s.table) && NoCollidedRows(files, s.table.rows) && NoDuplicates(order) && k <= |order|
    ensures TurnsTaken(files, s, order, ProcessJobs(files, s, order[..k]).table.rows, turn, k)
  {
    turn := map[];
    if k == 0 {
      assert order[..k] == [];
    } else {
      hide Valid, Indexed, HasTurn, ProcessJob, Evolved, TurnsTaken, TableOk, NoCollidedRows;
      var before := ProcessJobs(files, s, order[..k - 1]);
      var op := order[k - 1];
      turn := TurnsExist(files, s, order, k - 1);
      ProcessEvolves(files, s, order[..k - 1]);
      JobsEnd(files, s, order[..k - 1], op);
      assert order[..k][..k - 1] == order[..k - 1];
      var now := ProcessJob(files, before, op);
      turn := NextTurns(files, s, order, before, turn, k - 1);
    }
  }

  lemma IndexedStep(files: Files, before: State, op: Op)
    ensures var now := ProcessJob(files, before, op).table.rows;
            forall n :: n in Valid(files) ==>
              && (Indexed(files, before.table.rows, n) ==> Indexed(files, now, n))
              && (n != op.id && Indexed(files, now, n) ==> Indexed(files, before.table.rows, n))
  {
    var now := ProcessJob(files, before, op).table.rows;
    hide Valid, Indexed, ProcessJob;
    forall n | n in Valid(files)
      ensures Indexed(files, before.table.rows, n) ==> Indexed(files, now, n)
      ensures n != op.id && Indexed(files, now, n) ==> Indexed(files, before.table.rows, n)
    {
      if Indexed(files, before.table.rows, n) {
        StaysIndexed(files, before, op, n);
      } else if Indexed(files, now, n) {
        NewlyIndexed(files, before, op, n);
      }
    }
  }

  lemma NextTurns(files: Files, s: State, order: seq<Op>, before: State, turn: map<NoteId, nat>, k: nat)
    returns (next: map<NoteId, nat>)
    requires NoCollidedRows(files, s.table.rows) && k < |order| && TurnsTaken(files, s, order, before.table.rows, turn, k)
    requires Evolved(files, s.table.rows, before.table.rows)
    requires order[k] in before.jobs && before.jobs[order[k]] == Pending ==> order[k] in s.jobs && s.jobs[order[k]] == Pending
    ensures TurnsTaken(files, s, order, ProcessJob(files, before, order[k]).table.rows, next, k + 1)
  {
    hide Valid, Indexed, ProcessJob, Evolved, HasTurn;
    var now := ProcessJob(files, before, order[k]).table.rows;
    var n := order[k].id;
    var first := Changed(files, s.table.rows, n) && Indexed(files, now, n) && n !in turn;
    next := if first then turn[n := k] else turn;
    assert first ==> !Indexed(files, before.table.rows, n) && HasTurn(files, s, order, next, n) by {
      if first { TurnTaken(files, s, order, before, turn, k, n); }
    }
    IndexedStep(files, before, order[k]);
    forall m | Changed(files, s.table.rows, m) && Indexed(files, now, m)
      ensures HasTurn(files, s, order, next, m)
    {
      if m != n || !first {
        TurnKept(files, s, order, turn, next, m);
      }
    }
  }

  lemma TurnKept(files: Files, s: State, order: seq<Op>, turn: map<NoteId, nat>, next: map<NoteId, nat>, n: NoteId)
    requires n in Valid(files) && HasTurn(files, s, order, turn, n)
    requires forall m :: m in turn ==> m in next && next[m] == turn[m]
    ensures HasTurn(files, s, order, next, n)
  {
    hide Valid;
  }

  // ---------------------------------------------------------------------------------------------
  // Synchronising agrees with rebuilding

  lemma {:induction false} RebuildEffect(files: Files, before: Rows, ids: seq<NoteId>)
    requires forall i :: 0 <= i < |ids| ==> ids[i] in Valid(files)
    requires NoDuplicates(ids)
    ensures RebuildFrom(files, before, ids).Some? <==> forall i :: 0 <= i < |ids| ==> Distinct(JobFor(files, ids[i]).note.relations)
    ensures RebuildFrom(files, before, ids).Some? ==>
              var table := RebuildFrom(files, before, ids).value;
              && TableOk(table)
              && (forall id :: id in table.rows <==> id in ids)
              && (forall id :: id in ids ==> table.rows[id] == Settled(files, before, id))
  {
    if ids == [] {
      assert TableOk(NOTHING_INDEXED);
    } else {
      hide Valid, Upsert, Settled, TableOk;
      var earlier, last := ids[..|ids| - 1], ids[|ids| - 1];
      assert ids == earlier + [last];
      RebuildEffect(files, before, earlier);
      if RebuildFrom(files, before, earlier).Some? {
        var table := RebuildFrom(files, before, earlier).value;
        RebuildStep(files, before, earlier, table, last);
      }
    }
  }

  lemma RebuildStep(files: Files, before: Rows, earlier: seq<NoteId>, table: Table, last: NoteId)
    requires last in Valid(files) && last !in earlier && TableOk(table)
    requires forall id :: id in earlier ==> id in Valid(files)
    requires forall id :: id in table.rows <==> id in earlier
    requires forall id :: id in earlier ==> table.rows[id] == Settled(files, before, id)
    ensures var op := JobFor(files, last);
            var after := Upsert(table, op.path, op.note, RowOf(before, op.id));
            && (after.Some? <==> Distinct(op.note.relations))
            && (after.Some? ==>
                  && TableOk(after.value) && after.value.rows == table.rows[last := Settled(files, before, last)])
  {
    var op := JobFor(files, last);
    ValidIsFound(files, last);
    forall m | m in table.rows
      ensures m != last && table.rows[m].path != op.path
    {
      ValidIsFound(files, m);
    }
    if Distinct(op.note.relations) {
      UpsertKeeps(table, op.path, op.note, RowOf(before, op.id));
    }
  }

  /** A row that shows a note's file after processing is the row a rebuild gives it, revision included. */
  lemma IndexedIsSettled(files: Files, before: Rows, now: Rows, id: NoteId)
    requires Evolves(files, before, now, id) && id in Valid(files) && Indexed(files, now, id)
    ensures now[id] == Settled(files, before, id)
  {
    ValidIsFound(files, id);
    hide Find, Valid;
  }

  lemma PrunedRows(files: Files, table: Table)
    ensures var rows := Prune(files, table).rows;
            forall id :: RowOf(rows, id) == if id in Valid(files) then RowOf(table.rows, id) else None
  {
    forall id | id in Valid(files)
      ensures id !in CollidedIds(files)
    {
      ValidIsFound(files, id);
    }
  }

  ghost predicate AllIndexed(files: Files, rows: Rows) {
    forall id :: id in Valid(files) ==> Indexed(files, rows, id)
  }

  lemma PruneKeeps(files: Files, table: Table)
    requires TableOk(table)
    ensures TableOk(Prune(files, table))
  {
    hide TableOk;
    var cleared := RemoveIds(table, CollidedIds(files));
    RemoveKeeps(table, CollidedIds(files));
    RemoveKeeps(cleared, cleared.rows.Keys - Valid(files).Keys);
  }

  lemma SameRows(a: Rows, b: Rows)
    requires forall id :: RowOf(a, id) == RowOf(b, id)
    ensures a == b
  {
    forall id ensures id in a <==> id in b {
      assert RowOf(a, id) == RowOf(b, id);
    }
    forall id | id in a ensures a[id] == b[id] {
      assert RowOf(a, id) == RowOf(b, id);
    }
  }

  /** Rows of valid notes that are all as settled make the settled table, and one that is not spoils it. */
  lemma SettledOrNot(files: Files, before: Rows, now: Rows, pruned: Rows, rebuilt: Rows)
    requires forall id :: RowOf(pruned, id) == if id in Valid(files) then RowOf(now, id) else None
    requires forall id :: id in rebuilt <==> id in Valid(files)
    requires forall id :: id in Valid(files) ==> rebuilt[id] == Settled(files, before, id)
    requires Evolved(files, before, now)
    ensures pruned == rebuilt <==> AllIndexed(files, now)
  {
    hide Valid, Find;
    forall id | id in Valid(files)
      ensures RowOf(pruned, id) == RowOf(rebuilt, id) <==> Indexed(files, now, id)
    {
      assert Evolves(files, before, now, id);
      if Indexed(files, now, id) { IndexedIsSettled(files, before, now, id); }
    }
    if AllIndexed(files, now) {
      SameRows(pruned, rebuilt);
    }
  }

  /** What is left after pruning is the rebuilt table exactly when every valid note is indexed. */
  lemma PrunedEqualsRebuilt(files: Files, before: Rows, table: Table, ids: seq<NoteId>)
    requires TableOk(table) && Evolved(files, before, table.rows) && Lists(ids, files)
    requires RebuildFrom(files, before, ids).Some?
    ensures Prune(files, table) == RebuildFrom(files, before, ids).value <==> AllIndexed(files, table.rows)
  {
    var rebuilt, pruned := RebuildFrom(files, before, ids).value, Prune(files, table);
    RebuildEffect(files, before, ids);
    PrunedRows(files, table);
    PruneKeeps(files, table);
    assert RelationsMatch(pruned) && RelationsMatch(rebuilt);
    hide Valid, Prune, RebuildFrom, TableOk, RelationsMatch, AllIndexed, Settled, Evolved;
    SettledOrNot(files, before, table.rows, pruned.rows, rebuilt.rows);
    if pruned.rows == rebuilt.rows {
      RowsDetermineTable(pruned, rebuilt);
    }
  }

  lemma {:induction false} RebuildReadsValidRows(files: Files, before: Rows, now: Rows, ids: seq<NoteId>)
    requires forall i :: 0 <= i < |ids| ==> ids[i] in Valid(files) && RowOf(before, ids[i]) == RowOf(now, ids[i])
    ensures RebuildFrom(files, before, ids) == RebuildFrom(files, now, ids)
  {
    hide Valid, Upsert;
    if ids != [] {
      RebuildReadsValidRows(files, before, now, ids[..|ids| - 1]);
    }
  }

  /** All valid notes end up indexed exactly when there is a schedule. */
  lemma AllIndexedIffScheduled(files: Files, s: State, order: seq<Op>)
    requires TableOk(s.table) && NoCollidedRows(files, s.table.rows) && NoDuplicates(order) && AllDistinct(files)
    ensures AllIndexed(files, ProcessJobs(files, s, order).table.rows) <==> exists turn :: Schedule(files, s, order, turn)
  {
    hide Valid, Indexed, TableOk, NoCollidedRows, ProcessJobs;
    assert order[..|order|] == order;
    if AllIndexed(files, ProcessJobs(files, s, order).table.rows) {
      var turn := TurnsExist(files, s, order, |order|);
      assert Schedule(files, s, order, turn);
    }
    if turn :| Schedule(files, s, order, turn) {
      ScheduleKeepsTime(files, s, order, turn, |order|);
      forall n | n in Valid(files)
        ensures Indexed(files, ProcessJobs(files, s, order).table.rows, n)
      {
        if !Indexed(files, s.table.rows, n) {
          assert HasTurn(files, s, order, turn, n);
        }
      }
    }
  }

  /**
   * From any consistent index with no job left running, synchronising ends with exactly the table that a rebuild makes
   * if and only if each path that changed hands is given up, by a pending job of its old holder, before a pending job of
   * its new holder needs it.
   */
  lemma SyncEqualsRebuildIffScheduled(files: Files, s: State, ids: seq<NoteId>, order: seq<Op>)
    requires TableOk(s.table) && Lists(ids, files) && Orders(order, Recovered(files, s, ids).jobs)
    requires RebuildFrom(files, s.table.rows, ids).Some?
    ensures Some(Sync(files, s, ids, order).table) == RebuildFrom(files, s.table.rows, ids)
            <==> exists turn :: Schedule(files, Recovered(files, s, ids), order, turn)
  {
    var recovered := Recovered(files, s, ids);
    assert TableOk(recovered.table) && NoCollidedRows(files, recovered.table.rows) by {
      RemoveKeeps(s.table, CollidedIds(files));
    }
    assert AllDistinct(files) by {
      RebuildEffect(files, s.table.rows, ids);
      hide Valid;
      forall id | id in Valid(files)
        ensures Distinct(JobFor(files, id).note.relations)
      {
        assert id in ids;
      }
    }
    forall i | 0 <= i < |ids|
      ensures RowOf(recovered.table.rows, ids[i]) == RowOf(s.table.rows, ids[i])
    {
      RecoveredKeepsValid(files, s, ids, ids[i]);
    }
    hide Valid, TableOk, NoCollidedRows, Recovered, RebuildFrom, ProcessJobs, Prune, Schedule, AllIndexed;
    RebuildReadsValidRows(files, recovered.table.rows, s.table.rows, ids);
    ProcessEvolves(files, recovered, order);
    PrunedEqualsRebuilt(files, recovered.table.rows, ProcessJobs(files, recovered, order).table, ids);
    AllIndexedIffScheduled(files, recovered, order);
  }
}
