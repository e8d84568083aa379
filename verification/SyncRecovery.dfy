/**
 * What becomes of the deliveries of a synchronisation that stopped before its evaluations: which of them a later
 * synchronisation still makes, and that the next start, which evaluates the whole corpus unless its revision is the one
 * recorded, makes all of them.
 */
module SyncRecovery {
  import opened Base
  import opened Notes
  import opened NoteIndex
  import opened IndexSync
  import IndexConvergence
  import opened Ledger
  import opened LedgerInvariant
  import opened LedgerTheorems
  import opened NoteCreation
  import CreationRuns

  // ---------------------------------------------------------------------------------------------
  // Later synchronisations

  lemma SyncStaysIndexed(files: Files, s: State, ids: seq<NoteId>, order: seq<Op>, id: NoteId)
    requires Lists(ids, files) && id in Valid(files) && Indexed(files, s.table.rows, id)
    ensures Indexed(files, Sync(files, s, ids, order).table.rows, id)
  {
    var recovered := Recovered(files, s, ids);
    RecoveredKeepsValid(files, s, ids, id);
    assert Indexed(files, recovered.table.rows, id);
    hide Valid, Indexed, Recovered, ProcessJobs, Prune;
    assert ProcessJobs(files, recovered, order[..0]) == recovered by { NoJobs(files, recovered); }
    IndexConvergence.StaysIndexedAll(files, recovered, order, 0, id);
    IndexConvergence.PruneKeepsIndexed(files, ProcessJobs(files, recovered, order).table, id);
  }

  lemma NoJobs(files: Files, s: State)
    ensures ProcessJobs(files, s, []) == s
  {
  }

  /** One whole synchronisation: the index, then the evaluation of every note that differed from the manifest before. */
  function SyncAndDeliver(w: World, ids: seq<NoteId>, order: seq<Op>, gap: nat): (after: World)
    requires forall i :: 0 <= i < |ids| ==> ids[i] in Valid(w.files)
    ensures after.files == w.files && after.keys == w.keys
  {
    w.(s := Sync(w.files, w.s, ids, order), tables := CreationRuns.EvaluateChanged(w.tables, w.files, w.s.table.rows, ids, gap))
  }

  /** Live synchronisations of unchanged files, one after another. */
  function Retries(w: World, ids: seq<NoteId>, orders: seq<seq<Op>>, gap: nat): (after: World)
    requires forall i :: 0 <= i < |ids| ==> ids[i] in Valid(w.files)
    ensures after.files == w.files && after.keys == w.keys
  {
    if orders == [] then w else SyncAndDeliver(Retries(w, ids, orders[..|orders| - 1], gap), ids, orders[|orders| - 1], gap)
  }

  /** Evaluating the changed notes adds snapshots of those and of no others. */
  lemma {:induction false} ChangedAreEvaluated(w: World, legacy: set<Route>, manifest: map<NoteId, Row>,
                                               ids: seq<NoteId>, gap: nat, id: NoteId)
    requires WorldOk(w, legacy) && id in Valid(w.files) && forall i :: 0 <= i < |ids| ==> ids[i] in Valid(w.files)
    ensures id in CreationRuns.EvaluateChanged(w.tables, w.files, manifest, ids, gap).snapshots <==>
              id in w.tables.snapshots || (id in ids && !Indexed(w.files, manifest, id))
  {
    hide WorldOk, Valid, Generate, Indexed, NoteLegacy, DeliveryTargets;
    if ids != [] {
      var before, last := ids[..|ids| - 1], ids[|ids| - 1];
      ChangedAreEvaluated(w, legacy, manifest, before, gap, id);
      CreationRuns.EvaluateChangedKeeps(w, legacy, manifest, before, gap);
      assert ids == before + [last];
      ValidIsFound(w.files, last);
      var earlier := w.(tables := CreationRuns.EvaluateChanged(w.tables, w.files, manifest, before, gap));
      EvaluationAddsOne(earlier, legacy, JobFor(w.files, last).note, gap, id);
    }
  }

  lemma EvaluationAddsOne(w: World, legacy: set<Route>, note: Note, gap: nat, id: NoteId)
    requires WorldOk(w, legacy)
    ensures id in Generate(w.tables, note, gap).snapshots <==> id in w.tables.snapshots || id == note.id
  {
    hide IndexOk, KeysOk, RoutesFit, Generate, DeliveriesOk;
    CreationRuns.GenerateSnapshots(w.tables, legacy, note, gap);
    hide DeliveryTargets;
  }

  lemma SyncAndDeliverKeeps(w: World, legacy: set<Route>, ids: seq<NoteId>, order: seq<Op>, gap: nat)
    requires WorldOk(w, legacy) && Lists(ids, w.files)
    ensures WorldOk(SyncAndDeliver(w, ids, order, gap), legacy)
  {
    var synced := w.(s := Sync(w.files, w.s, ids, order));
    assert IndexOk(w.files, w.s, Bound(w.keys));
    hide WorldOk, IndexOk, Sync, Valid, Indexed, Bound, CreationRuns.EvaluateChanged;
    CreationRuns.SyncFits(w.files, w.s, ids, order, Bound(w.keys));
    CreationRuns.IndexOnly(w, legacy, synced.s);
    CreationRuns.EvaluateChangedKeeps(synced, legacy, w.s.table.rows, ids, gap);
  }

  lemma {:induction false} RetriesKeep(w: World, legacy: set<Route>, ids: seq<NoteId>, orders: seq<seq<Op>>, gap: nat)
    requires WorldOk(w, legacy) && Lists(ids, w.files)
    ensures WorldOk(Retries(w, ids, orders, gap), legacy)
  {
    hide WorldOk, Valid, Sync, CreationRuns.EvaluateChanged;
    if orders != [] {
      RetriesKeep(w, legacy, ids, orders[..|orders| - 1], gap);
      SyncAndDeliverKeeps(Retries(w, ids, orders[..|orders| - 1], gap), legacy, ids, orders[|orders| - 1], gap);
    }
  }

  /** Synchronising keeps what is indexed, so it stays unchanged to every later one. */
  lemma {:induction false} RetriesStayIndexed(w: World, ids: seq<NoteId>, orders: seq<seq<Op>>, gap: nat, id: NoteId)
    requires Lists(ids, w.files) && id in Valid(w.files) && Indexed(w.files, w.s.table.rows, id)
    ensures Indexed(w.files, Retries(w, ids, orders, gap).s.table.rows, id)
  {
    hide Valid, Indexed, Sync, CreationRuns.EvaluateChanged;
    if orders != [] {
      RetriesStayIndexed(w, ids, orders[..|orders| - 1], gap, id);
      SyncStaysIndexed(w.files, Retries(w, ids, orders[..|orders| - 1], gap).s, ids, orders[|orders| - 1], id);
    }
  }

  lemma RoundDelivers(w: World, legacy: set<Route>, ids: seq<NoteId>, order: seq<Op>, gap: nat, id: NoteId)
    requires WorldOk(w, legacy) && Lists(ids, w.files) && id in Valid(w.files)
    ensures id in SyncAndDeliver(w, ids, order, gap).tables.snapshots <==>
              id in w.tables.snapshots || !Indexed(w.files, w.s.table.rows, id)
  {
    assert id in ids;
    hide WorldOk, Valid, Indexed, Sync, CreationRuns.EvaluateChanged;
    ChangedAreEvaluated(w, legacy, w.s.table.rows, ids, gap, id);
  }

  /**
   * Whatever a stopped synchronisation left behind, any number of whole ones on the same files evaluate a valid note if
   * and only if it was evaluated before or its manifest entry still differed when the first of them began.
   */
  lemma {:induction false} RetriesDeliverIffUnindexed(w: World, legacy: set<Route>, ids: seq<NoteId>,
                                                      orders: seq<seq<Op>>, gap: nat, id: NoteId)
    requires WorldOk(w, legacy) && Lists(ids, w.files) && id in Valid(w.files) && orders != []
    ensures id in Retries(w, ids, orders, gap).tables.snapshots <==>
              id in w.tables.snapshots || !Indexed(w.files, w.s.table.rows, id)
  {
    hide WorldOk, Valid, Indexed, SyncAndDeliver;
    var earlier := orders[..|orders| - 1];
    RetriesKeep(w, legacy, ids, earlier, gap);
    RoundDelivers(Retries(w, ids, earlier, gap), legacy, ids, orders[|orders| - 1], gap, id);
    if earlier != [] {
      if Indexed(w.files, w.s.table.rows, id) { RetriesStayIndexed(w, ids, earlier, gap, id); }
      RetriesDeliverIffUnindexed(w, legacy, ids, earlier, gap, id);
    }
  }

  // A note about another principal, and a ledger on which nothing ever happened.
  const TOLD := Note(0, 5, Shared, Plain, None, [], [1], None, [], 0, 0)
  const AT := Path(1, 0)
  const FRESH_LEDGER := Tables(ReasonRows(map[], 0), Projection(map[], map[], {}), map[], 0, map[], map[], map[])
  const FRESH := World(map[], State(NOTHING_INDEXED, map[]), FRESH_LEDGER, map[])

  lemma FreshLedgerIsOk()
    ensures DeliveriesOk(FRESH_LEDGER, {})
  {
  }

  lemma FreshIsInitial()
    ensures CreationRuns.Initial(FRESH, {})
  {
    FreshLedgerIsOk();
    hide DeliveriesOk;
  }

  lemma ToldIsValid()
    ensures Valid(map[AT := TOLD]) == map[0 := AT] && Find(map[AT := TOLD], 0) == Some(AT)
    ensures CollidedIds(map[AT := TOLD]) == {} && Target(1, AboutReason) in DeliveryTargets(TOLD)
  {
    var files := map[AT := TOLD];
    assert !Collides(files, AT);
    assert OnlyFile(files, 0, AT);
    assert TOLD.about[0] == 1;
  }

  lemma ToldIsIndexed()
    ensures var files, op := map[AT := TOLD], Op(0, TOLD, AT);
            var stopped := ProcessJobs(files, State(NOTHING_INDEXED, map[op := Pending]), [op]);
            stopped == State(Table(map[0 := Row(AT, TOLD, 1)], {}), map[op := Done])
  {
    var files, op := map[AT := TOLD], Op(0, TOLD, AT);
    var s := State(NOTHING_INDEXED, map[op := Pending]);
    ToldIsValid();
    hide Find;
    assert ProcessJobs(files, s, [op]) == ProcessJob(files, s, op) by {
      assert [op][..0] == [];
    }
    assert RelationRows(TOLD) == {};
  }
  function ToldIndexed(): World {
    World(map[AT := TOLD], State(Table(map[0 := Row(AT, TOLD, 1)], {}), map[Op(0, TOLD, AT) := Done]), FRESH_LEDGER, map[])
  }

  lemma ToldIsPlanned()
    ensures 0 in Valid(map[AT := TOLD])
    ensures Plan(map[AT := TOLD], State(NOTHING_INDEXED, map[]), [0]) == State(NOTHING_INDEXED, map[Op(0, TOLD, AT) := Pending])
  {
    var files := map[AT := TOLD];
    ToldIsValid();
    hide Valid;
    assert JobFor(files, 0) == Op(0, TOLD, AT);
    assert [0][..0] == [] && PlanJobs(files, NOTHING_INDEXED.rows, map[], []) == map[];
    assert PlanJobs(files, NOTHING_INDEXED.rows, map[], [0]) == PlanJob(files, NOTHING_INDEXED.rows, map[], 0);
  }

  lemma ToldIsReached()
    ensures var steps := [CreationRuns.Edit(map[AT := TOLD]), CreationRuns.PlanPending([0]),
                          CreationRuns.Process([Op(0, TOLD, AT)], 1, 0)];
            CreationRuns.Execute(FRESH, {}, steps) == ToldIndexed()
  {
    var files, op := map[AT := TOLD], Op(0, TOLD, AT);
    var edited := FRESH.(files := files);
    var planned := edited.(s := State(NOTHING_INDEXED, map[op := Pending]));
    assert CreationRuns.Next(FRESH, {}, CreationRuns.Edit(files)) == edited;
    assert Lists([0], files) by { ToldIsValid(); }
    ToldIsPlanned();
    hide Find, Valid, CollidedIds, PlanJobs, Plan;
    assert CreationRuns.Next(edited, {}, CreationRuns.PlanPending([0])) == planned;
    assert CreationRuns.Next(planned, {}, CreationRuns.Process([op], 1, 0)) == ToldIndexed() by {
      ToldIsIndexed();
      assert [op][..1] == [op];
      hide ProcessJobs;
    }
    hide CreationRuns.Next, ProcessJobs;
    ThreeSteps(FRESH, {}, CreationRuns.Edit(files), CreationRuns.PlanPending([0]), CreationRuns.Process([op], 1, 0));
  }

  lemma ThreeSteps(w: World, legacy: set<Route>, a: CreationRuns.Step, b: CreationRuns.Step, c: CreationRuns.Step)
    ensures CreationRuns.Execute(w, legacy, [a, b, c]) ==
            CreationRuns.Next(CreationRuns.Next(CreationRuns.Next(w, legacy, a), legacy, b), legacy, c)
  {
    hide CreationRuns.Next;
    assert [a, b, c][..2] == [a, b] && [a, b][..1] == [a] && [a][..0] == [];
    assert CreationRuns.Execute(w, legacy, [a]) == CreationRuns.Next(w, legacy, a);
    assert CreationRuns.Execute(w, legacy, [a, b]) == CreationRuns.Next(CreationRuns.Next(w, legacy, a), legacy, b);
  }

  lemma ToldIsReachable()
    ensures CreationRuns.Reachable(ToldIndexed(), {})
  {
    FreshIsInitial();
    ToldIsReached();
    hide CreationRuns.Execute, CreationRuns.Initial;
  }

  lemma IndexedStaysUntold(w: World, legacy: set<Route>, ids: seq<NoteId>, orders: seq<seq<Op>>, gap: nat, id: NoteId)
    requires WorldOk(w, legacy) && Lists(ids, w.files) && id in Valid(w.files)
    requires Indexed(w.files, w.s.table.rows, id) && id !in w.tables.snapshots
    ensures id !in Retries(w, ids, orders, gap).tables.snapshots
  {
    hide WorldOk, Valid, Indexed, Sync, CreationRuns.EvaluateChanged;
    if orders != [] { RetriesDeliverIffUnindexed(w, legacy, ids, orders, gap, id); }
  }

  lemma ToldIsOwed()
    ensures Lists([0], ToldIndexed().files) && 0 in Valid(ToldIndexed().files)
    ensures Indexed(ToldIndexed().files, ToldIndexed().s.table.rows, 0)
    ensures Target(1, AboutReason) in DeliveryTargets(TOLD)
  {
    ToldIsValid();
    hide Valid, DeliveryTargets, CollidedIds, Find;
    assert JobFor(ToldIndexed().files, 0) == Op(0, TOLD, AT);
  }

  /** The exception is real: a stopped synchronisation whose recipient no later one of the same process tells. */
  lemma StoppedSyncExample(orders: seq<seq<Op>>, gap: nat)
    ensures CreationRuns.Reachable(ToldIndexed(), {}) && Lists([0], ToldIndexed().files)
    ensures Target(1, AboutReason) in DeliveryTargets(TOLD)
    ensures 0 !in Retries(ToldIndexed(), [0], orders, gap).tables.snapshots
  {
    ToldIsOwed();
    hide CreationRuns.Reachable, WorldOk, Retries, Valid, Indexed, DeliveryTargets;
    ToldIsReachable();
    CreationRuns.ReachableOk(ToldIndexed(), {});
    IndexedStaysUntold(ToldIndexed(), {}, [0], orders, gap, 0);
  }

  // ---------------------------------------------------------------------------------------------
  // The next start

  datatype Entry = Entry(path: Path, note: Note)

  // The corpus revision hashes the id, path and content of every valid note.
  type Corpus = map<NoteId, Entry>

  function CorpusOf(files: Files): Corpus {
    map id | id in Valid(files) :: Entry(JobFor(files, id).path, JobFor(files, id).note)
  }

  // `recorded` is the `delivery_backfill_version`; what this process scanned, and whether it evaluated all of it, is lost
  // in a crash.
  datatype Hub = Hub(world: World, recorded: Option<Corpus>, scanned: Option<Corpus>, evaluated: bool)

  // A start is a scan, recovery steps of the service, the backfill and its record, with anything in between.
  datatype Step =
    | Service(step: CreationRuns.Step)
    | Scan
    | Backfill(ids: seq<NoteId>, gap: nat)
    | Record
    | Crash

  /** One transaction: the evaluations of the listed notes of a scan. */
  function EvaluateAll(t: Tables, corpus: Corpus, ids: seq<NoteId>, gap: nat): Tables
    requires forall i :: 0 <= i < |ids| ==> ids[i] in corpus
  {
    if ids == [] then t else Generate(EvaluateAll(t, corpus, ids[..|ids| - 1], gap), corpus[ids[|ids| - 1]].note, gap)
  }

  ghost predicate Covers(ids: seq<NoteId>, corpus: Corpus) {
    forall id :: id in ids <==> id in corpus
  }

  /** A random id is not that of a scanned note. */
  ghost predicate MayServe(h: Hub, step: CreationRuns.Step) {
    step.Try? && h.scanned.Some? ==> step.attempt.id !in h.scanned.value
  }

  ghost function Next(h: Hub, legacy: set<Route>, step: Step): Hub {
    match step
    case Service(s) => if MayServe(h, s) then h.(world := CreationRuns.Next(h.world, legacy, s)) else h
    case Scan => h.(scanned := Some(CorpusOf(h.world.files)), evaluated := false)
    case Backfill(ids, gap) =>
      if h.scanned.None? || h.recorded == h.scanned || !Covers(ids, h.scanned.value) then h
      else h.(world := h.world.(tables := EvaluateAll(h.world.tables, h.scanned.value, ids, gap)), evaluated := true)
    case Record => if h.evaluated then h.(recorded := h.scanned) else h
    case Crash => h.(scanned := None, evaluated := false)
  }

  ghost function Execute(h: Hub, legacy: set<Route>, steps: seq<Step>): Hub {
    if steps == [] then h else Next(Execute(h, legacy, steps[..|steps| - 1]), legacy, steps[|steps| - 1])
  }

  ghost predicate AllEvaluated(corpus: Option<Corpus>, t: Tables) {
    corpus.Some? ==> corpus.value.Keys <= t.snapshots.Keys
  }

  /** A scanned note of a bound id is that id's written note. */
  ghost predicate ScanFits(scanned: Option<Corpus>, w: World) {
    scanned.Some? ==>
      forall id :: id in scanned.value ==>
        && scanned.value[id].note.id == id
        && (id in Bound(w.keys) ==> Written(w.files, scanned.value[id].note))
  }

  /** The recorded revision is of a corpus whose every note has its snapshot. */
  ghost predicate HubOk(h: Hub, legacy: set<Route>) {
    && WorldOk(h.world, legacy)
    && AllEvaluated(h.recorded, h.world.tables)
    && (h.evaluated ==> AllEvaluated(h.scanned, h.world.tables))
    && ScanFits(h.scanned, h.world)
  }

  ghost predicate Reachable(h: Hub, legacy: set<Route>) {
    exists w, steps :: CreationRuns.Initial(w, legacy) && h == Execute(Hub(w, None, None, false), legacy, steps)
  }

  lemma ServiceEvaluates(w: World, legacy: set<Route>, step: CreationRuns.Step)
    requires WorldOk(w, legacy)
    ensures w.tables.snapshots.Keys <= CreationRuns.Next(w, legacy, step).tables.snapshots.Keys
  {
    hide WorldOk, CreationRuns.MayTry, Create, RemoveCollided, Plan, DropRemoved, Lists, LeftHalfway, ProcessJobs, Generate, Spares;
    match step
    case Try(a) => if CreationRuns.MayTry(w, legacy, a) { CreateEvaluates(w, legacy, a); }
    case Evaluate(path, gap) => if path in w.files { CreationRuns.SnapshotsGrow(w, legacy, w.files[path], gap); }
    case _ =>
  }

  lemma CreateEvaluates(w: World, legacy: set<Route>, a: Attempt)
    requires WorldOk(w, legacy)
    ensures w.tables.snapshots.Keys <= Create(w, a).tables.snapshots.Keys
  {
    hide WorldOk, Find, Generate, ProcessJobs, LeftHalfway, Enqueued;
    var found := Find(w.files, IdOf(w, a));
    var note := if found.Some? then w.files[found.value] else NoteFor(a.request, a.key.principal, IdOf(w, a), a.now);
    CreationRuns.SnapshotsGrow(w, legacy, note, a.gap);
    CreationRuns.SnapshotsGrow(w, legacy, NoteFor(a.request, a.key.principal, IdOf(w, a), a.now), a.gap);
  }

  lemma ServiceBinds(w: World, legacy: set<Route>, step: CreationRuns.Step, id: NoteId)
    requires id in Bound(CreationRuns.Next(w, legacy, step).keys) && id !in Bound(w.keys)
    ensures step.Try? && step.attempt.id == id
  {
    hide Find, CreationRuns.MayTry, Generate, ProcessJobs, LeftHalfway, Enqueued, RemoveCollided, Plan, DropRemoved, Lists, Spares;
  }

  lemma ScanStaysFit(h: Hub, legacy: set<Route>, step: CreationRuns.Step)
    requires HubOk(h, legacy) && MayServe(h, step)
    ensures ScanFits(h.scanned, CreationRuns.Next(h.world, legacy, step))
  {
    var after := CreationRuns.Next(h.world, legacy, step);
    CreationRuns.StepBinds(h.world, legacy, step);
    hide WorldOk, CreationRuns.Next, Bound;
    if h.scanned.Some? {
      forall id | id in h.scanned.value
        ensures id in Bound(after.keys) ==> Written(after.files, h.scanned.value[id].note)
      {
        if id in Bound(after.keys) && id !in Bound(h.world.keys) { ServiceBinds(h.world, legacy, step, id); }
      }
    }
  }

  lemma ScanFitsFiles(w: World, legacy: set<Route>)
    requires WorldOk(w, legacy)
    ensures ScanFits(Some(CorpusOf(w.files)), w)
  {
    hide WorldOk, Bound;
    forall id | id in Valid(w.files)
      ensures JobFor(w.files, id).note.id == id
      ensures id in Bound(w.keys) ==> Written(w.files, JobFor(w.files, id).note)
    {
      ValidIsFound(w.files, id);
      CreationRuns.BoundFile(w, legacy, Valid(w.files)[id]);
    }
  }

  lemma {:induction false} EvaluateAllKeeps(w: World, legacy: set<Route>, corpus: Corpus, ids: seq<NoteId>, gap: nat)
    requires WorldOk(w, legacy) && ScanFits(Some(corpus), w) && forall i :: 0 <= i < |ids| ==> ids[i] in corpus
    ensures WorldOk(w.(tables := EvaluateAll(w.tables, corpus, ids, gap)), legacy)
    ensures w.tables.snapshots.Keys <= EvaluateAll(w.tables, corpus, ids, gap).snapshots.Keys
    ensures forall id :: id in ids ==> id in EvaluateAll(w.tables, corpus, ids, gap).snapshots
  {
    hide WorldOk, Generate, Bound;
    if ids != [] {
      var before, last := ids[..|ids| - 1], ids[|ids| - 1];
      EvaluateAllKeeps(w, legacy, corpus, before, gap);
      var earlier := w.(tables := EvaluateAll(w.tables, corpus, before, gap));
      assert ids == before + [last];
      CreationRuns.EvaluateNoteKeeps(earlier, legacy, corpus[last].note, gap);
      CreationRuns.SnapshotsGrow(earlier, legacy, corpus[last].note, gap);
    }
  }

  lemma BackfillKeeps(h: Hub, legacy: set<Route>, ids: seq<NoteId>, gap: nat)
    requires HubOk(h, legacy)
    ensures HubOk(Next(h, legacy, Backfill(ids, gap)), legacy)
    ensures h.scanned.Some? && Covers(ids, h.scanned.value) ==>
              AllEvaluated(h.scanned, Next(h, legacy, Backfill(ids, gap)).world.tables)
  {
    hide WorldOk, EvaluateAll, Written, Bound, CreationRuns.Next;
    if h.scanned.Some? && Covers(ids, h.scanned.value) {
      EvaluateAllKeeps(h.world, legacy, h.scanned.value, ids, gap);
    }
  }

  lemma StepKeeps(h: Hub, legacy: set<Route>, step: Step)
    requires HubOk(h, legacy)
    ensures HubOk(Next(h, legacy, step), legacy)
    ensures h.world.tables.snapshots.Keys <= Next(h, legacy, step).world.tables.snapshots.Keys
  {
    hide WorldOk, CreationRuns.Next, EvaluateAll, Written, Bound;
    match step
    case Service(s) =>
      CreationRuns.StepKeeps(h.world, legacy, s);
      ServiceEvaluates(h.world, legacy, s);
      if MayServe(h, s) { ScanStaysFit(h, legacy, s); }
    case Scan => ScanFitsFiles(h.world, legacy);
    case Backfill(ids, gap) =>
      BackfillKeeps(h, legacy, ids, gap);
      if h.scanned.Some? && Covers(ids, h.scanned.value) { EvaluateAllKeeps(h.world, legacy, h.scanned.value, ids, gap); }
    case Record =>
    case Crash =>
  }

  lemma {:induction false} RunsKeep(h: Hub, legacy: set<Route>, steps: seq<Step>)
    requires HubOk(h, legacy)
    ensures HubOk(Execute(h, legacy, steps), legacy)
    ensures h.world.tables.snapshots.Keys <= Execute(h, legacy, steps).world.tables.snapshots.Keys
  {
    hide HubOk, Next;
    if steps != [] {
      RunsKeep(h, legacy, steps[..|steps| - 1]);
      StepKeeps(Execute(h, legacy, steps[..|steps| - 1]), legacy, steps[|steps| - 1]);
    }
  }

  lemma StartOk(w: World, legacy: set<Route>)
    requires CreationRuns.Initial(w, legacy)
    ensures HubOk(Hub(w, None, None, false), legacy)
  {
    hide CreationRuns.Initial, WorldOk;
    CreationRuns.InitialOk(w, legacy);
  }

  /** In every run, every note of the recorded corpus has its snapshot, whatever crashed in between. */
  lemma RecordedIsEvaluated(h: Hub, legacy: set<Route>)
    requires Reachable(h, legacy)
    ensures HubOk(h, legacy) && AllEvaluated(h.recorded, h.world.tables)
  {
    hide Execute, CreationRuns.Initial, WorldOk;
    var w, steps :| CreationRuns.Initial(w, legacy) && h == Execute(Hub(w, None, None, false), legacy, steps);
    StartOk(w, legacy);
    RunsKeep(Hub(w, None, None, false), legacy, steps);
  }

  /** The process lives on, and does not scan again for its backfill. */
  ghost predicate LivesOn(steps: seq<Step>) {
    forall i :: 0 <= i < |steps| ==> steps[i] != Crash && steps[i] != Scan
  }

  lemma {:induction false} ScanStays(h: Hub, legacy: set<Route>, steps: seq<Step>)
    requires LivesOn(steps)
    ensures Execute(h, legacy, steps).scanned == h.scanned
  {
    if steps != [] { ScanStays(h, legacy, steps[..|steps| - 1]); }
  }

  /**
   * A start delivers whatever any crash left undone: from its backfill on, for ever, every note that its scan found valid
   * has its snapshot and, if no row of it was migrated, exactly the deliveries recorded there; those of a bound note are
   * its targets.
   */
  lemma StartDelivers(h: Hub, legacy: set<Route>, between: seq<Step>, ids: seq<NoteId>, gap: nat, later: seq<Step>,
                      id: NoteId)
    requires HubOk(h, legacy) && LivesOn(between) && Covers(ids, CorpusOf(h.world.files)) && id in Valid(h.world.files)
    ensures var started := Execute(Next(h, legacy, Scan), legacy, between);
            var after := Execute(Next(started, legacy, Backfill(ids, gap)), legacy, later).world;
            && id in after.tables.snapshots
            && (!NoteLegacy(legacy, id) ==> DeliveredAs(after.tables, id, after.tables.snapshots[id].routes))
            && (id in Bound(after.keys) ==>
                  Canonical(id) in after.files && DeliveredAs(after.tables, id, DeliveryTargets(after.files[Canonical(id)])))
  {
    var started := Execute(Next(h, legacy, Scan), legacy, between);
    var backfilled := Next(started, legacy, Backfill(ids, gap));
    var after := Execute(backfilled, legacy, later);
    StepKeeps(h, legacy, Scan);
    RunsKeep(Next(h, legacy, Scan), legacy, between);
    ScanStays(Next(h, legacy, Scan), legacy, between);
    assert started.scanned == Some(CorpusOf(h.world.files));
    hide Execute, Next, DeliveredAs, NoteLegacy, Bound, DeliveryTargets, DeliveriesOk, KeysOk, IndexOk;
    BackfillKeeps(started, legacy, ids, gap);
    StepKeeps(started, legacy, Backfill(ids, gap));
    RunsKeep(backfilled, legacy, later);
    assert id in after.world.tables.snapshots;
    if !NoteLegacy(legacy, id) { SnapshotDelivers(after.world.tables, legacy, id); }
    assert id in Bound(after.world.keys) ==> !NoteLegacy(legacy, id);
  }
}
