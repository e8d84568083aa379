/** The index and its job queue transaction by transaction: edits, crashes and restarts may fall between any two. */
module IndexRuns {
  import opened Base
  import opened Notes
  import opened NoteIndex
  import opened IndexSync

  // What a live process is in the middle of.
  datatype Busy = Idle | Taken(op: Op) | Applied(op: Op, ok: bool)

  datatype World = World(files: Files, s: State, busy: Busy)

  datatype Step =
    | Edit(files: Files)
    | Restart
    | RemoveCollidedRows
    | PlanPending(ids: seq<NoteId>)
    | Enqueue(op: Op)
    | Take(op: Op)
    | Apply
    | Finish
    | DropRemovedRows
    | Rebuild(ids: seq<NoteId>)

  /** A new process makes every job that was left running pending again. */
  function Requeue(jobs: Jobs): Jobs {
    map op | op in jobs :: if jobs[op] == Running then Pending else jobs[op]
  }

  function ApplyUpsert(files: Files, table: Table, op: Op): Option<Table> {
    match Find(files, op.id)
    case None => None
    case Some(path) => Upsert(table, path, files[path], None)
  }

  ghost function Next(w: World, step: Step): World {
    match step
    case Edit(files) => w.(files := files)
    case Restart => w.(s := w.s.(jobs := Requeue(w.s.jobs)), busy := Idle)
    case RemoveCollidedRows =>
      if w.busy == Idle then w.(s := w.s.(table := RemoveCollided(w.files, w.s.table))) else w
    case PlanPending(ids) => if w.busy == Idle && Lists(ids, w.files) then w.(s := Plan(w.files, w.s, ids)) else w
    case Enqueue(op) => if op in w.s.jobs then w else w.(s := w.s.(jobs := w.s.jobs[op := Pending]))
    case Take(op) =>
      if w.busy == Idle && op in w.s.jobs && w.s.jobs[op] == Pending then
        w.(s := w.s.(jobs := w.s.jobs[op := Running]), busy := Taken(op))
      else w
    case Apply =>
      if w.busy.Taken? then
        match ApplyUpsert(w.files, w.s.table, w.busy.op)
        case None => w.(busy := Applied(w.busy.op, false))
        case Some(table) => w.(s := w.s.(table := table), busy := Applied(w.busy.op, true))
      else w
    case Finish =>
      if w.busy.Applied? then
        w.(s := w.s.(jobs := w.s.jobs[w.busy.op := if w.busy.ok then Done else Quarantined]), busy := Idle)
      else w
    case DropRemovedRows => if w.busy == Idle then w.(s := w.s.(table := DropRemoved(w.files, w.s.table))) else w
    case Rebuild(ids) =>
      if Lists(ids, w.files) then
        match RebuildFrom(w.files, w.s.table.rows, ids)
        case None => w
        case Some(table) => w.(s := w.s.(table := table))
      else w
  }

  ghost function Execute(w: World, steps: seq<Step>): World {
    if steps == [] then w else Next(Execute(w, steps[..|steps| - 1]), steps[|steps| - 1])
  }

  lemma TwoSteps(w: World, first: Step, second: Step)
    ensures Execute(w, [first, second]) == Next(Next(w, first), second)
  {
    hide Next;
    assert [first, second][..1] == [first] && [first][..0] == [];
    assert Execute(w, [first]) == Next(w, first);
  }

  ghost predicate Reachable(w: World) {
    exists files, steps :: w == Execute(World(files, State(NOTHING_INDEXED, map[]), Idle), steps)
  }

  /** Only the job a live process is working on is marked running. */
  ghost predicate OnlyBusyRuns(jobs: Jobs, busy: Busy) {
    forall op :: op in jobs && jobs[op] == Running ==> !busy.Idle? && busy.op == op
  }

  ghost predicate WorldOk(w: World) {
    TableOk(w.s.table) && OnlyBusyRuns(w.s.jobs, w.busy)
  }

  lemma TableStays(w: World, step: Step)
    requires TableOk(w.s.table)
    ensures TableOk(Next(w, step).s.table)
  {
    hide TableOk, Find, Upsert, RebuildFrom, PlanJobs, RemoveIds;
    match step
    case RemoveCollidedRows => RemoveKeeps(w.s.table, CollidedIds(w.files));
    case Apply =>
      if w.busy.Taken? && ApplyUpsert(w.files, w.s.table, w.busy.op).Some? {
        var path := Find(w.files, w.busy.op.id).value;
        UpsertKeeps(w.s.table, path, w.files[path], None);
      }
    case DropRemovedRows => RemoveKeeps(w.s.table, w.s.table.rows.Keys - Valid(w.files).Keys);
    case Rebuild(ids) => if Lists(ids, w.files) { RebuildEffect(w.files, w.s.table.rows, ids); }
    case _ =>
  }

  lemma JobsStay(w: World, step: Step)
    requires OnlyBusyRuns(w.s.jobs, w.busy)
    ensures OnlyBusyRuns(Next(w, step).s.jobs, Next(w, step).busy)
  {
    hide Find, Upsert, RebuildFrom, PlanJobs, RemoveIds;
    match step
    case PlanPending(ids) =>
      if w.busy == Idle && Lists(ids, w.files) { PlanLeavesNoneRunning(w.files, w.s.table.rows, w.s.jobs, ids); }
    case _ =>
  }

  lemma {:induction false} RunsStay(w: World, steps: seq<Step>)
    requires WorldOk(w)
    ensures WorldOk(Execute(w, steps))
  {
    hide TableOk, OnlyBusyRuns, Next;
    if steps != [] {
      RunsStay(w, steps[..|steps| - 1]);
      TableStays(Execute(w, steps[..|steps| - 1]), steps[|steps| - 1]);
      JobsStay(Execute(w, steps[..|steps| - 1]), steps[|steps| - 1]);
    }
  }

  /** In every reachable state the index is consistent, and between operations no job is left running. */
  lemma ReachableOk(w: World)
    requires Reachable(w)
    ensures TableOk(w.s.table) && (w.busy == Idle ==> NoneIn(w.s.jobs, Running))
  {
    hide Execute;
    var files, steps :| w == Execute(World(files, State(NOTHING_INDEXED, map[]), Idle), steps);
    RunsStay(World(files, State(NOTHING_INDEXED, map[]), Idle), steps);
  }

  /** A restart loses no job: what was running is pending again, and every other job is as it was. */
  lemma RestartRequeues(w: World, op: Op)
    ensures var jobs := Next(w, Restart).s.jobs;
            && (op in jobs <==> op in w.s.jobs) && Next(w, Restart).s.table == w.s.table
            && (op in jobs ==>
                  && jobs[op] != Running
                  && (jobs[op] == Pending <==> w.s.jobs[op] == Pending || w.s.jobs[op] == Running)
                  && (jobs[op] == Done <==> w.s.jobs[op] == Done))
  {
  }

  /** The three transactions of one job, with no crash between them, are the one step that processing is made of. */
  lemma TransactionsMakeAJob(w: World, op: Op)
    requires w.busy == Idle && op in w.s.jobs && w.s.jobs[op] == Pending
    ensures Next(Next(Next(w, Take(op)), Apply), Finish) == w.(s := ProcessJob(w.files, w.s, op))
  {
    hide Find, Upsert;
    var running := w.s.jobs[op := Running];
    assert running[op := Done] == w.s.jobs[op := Done];
    assert running[op := Quarantined] == w.s.jobs[op := Quarantined];
  }

  /** A crash between a job's upsert and its completion mark costs nothing: doing the job again settles the same table. */
  lemma RepeatedUpsertIsStable(files: Files, table: Table, op: Op)
    requires TableOk(table) && ApplyUpsert(files, table, op).Some?
    ensures ApplyUpsert(files, ApplyUpsert(files, table, op).value, op) == ApplyUpsert(files, table, op)
  {
    var path := Find(files, op.id).value;
    UpsertKeeps(table, path, files[path], None);
    var once := Upsert(table, path, files[path], None).value;
    UpsertKeeps(once, path, files[path], None);
    var twice := Upsert(once, path, files[path], None).value;
    hide Find, Upsert;
    RowsDetermineTable(once, twice) by {
      assert twice.rows == once.rows;
    }
  }
}
