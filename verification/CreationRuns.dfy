/**
 * Creation over whole runs: any number of attempts, crashes inside them, restarts, synchronisation, evaluations, and edits
 * from outside that spare the notes of bound keys.
 */
module CreationRuns {
  import opened Base
  import opened Notes
  import opened NoteIndex
  import opened IndexSync
  import IndexRuns
  import opened Ledger
  import opened LedgerInvariant
  import opened LedgerTheorems
  import opened NoteCreation

  // A restart and a synchronisation are made of the steps from `Requeue` to `Evaluate`, with crashes between any two.
  datatype Step =
    | Try(attempt: Attempt)
    | Requeue
    | RemoveCollidedRows
    | PlanPending(ids: seq<NoteId>)
    | Process(order: seq<Op>, jobsDone: nat, halfway: nat)
    | DropRemovedRows
    | Evaluate(path: Path, gap: nat)
    | Edit(files: Files)

  /** The note of an attempt: the one already written for its key, else the one it would write. */
  function NoteOf(w: World, a: Attempt): Note {
    var id := IdOf(w, a);
    if Canonical(id) in w.files then w.files[Canonical(id)] else NoteFor(a.request, a.key.principal, id, a.now)
  }

  /** A new id is random: nothing was ever stored under it or at its path. */
  ghost predicate Unused(w: World, legacy: set<Route>, id: NoteId) {
    && (forall p :: p in w.files ==> w.files[p].id != id && p.key != Canonical(id).key)
    && (forall m :: m in w.s.table.rows ==> m != id && w.s.table.rows[m].path != Canonical(id))
    && (forall op :: op in w.s.jobs ==> op.id != id)
    && id !in Bound(w.keys) && id !in w.tables.snapshots && !NoteLegacy(legacy, id)
  }

  /** An attempt runs in a live process; the id it would allocate was never used before. */
  ghost predicate MayTry(w: World, legacy: set<Route>, a: Attempt) {
    && NoneIn(w.s.jobs, Running)
    && Orders(a.order, w.s.jobs) && JobOf(NoteOf(w, a)) in a.order
    && Unused(w, legacy, a.id)
  }

  ghost function Next(w: World, legacy: set<Route>, step: Step): World {
    match step
    case Try(a) => if MayTry(w, legacy, a) then Create(w, a) else w
    case Requeue => w.(s := w.s.(jobs := IndexRuns.Requeue(w.s.jobs)))
    case RemoveCollidedRows => w.(s := w.s.(table := RemoveCollided(w.files, w.s.table)))
    case PlanPending(ids) => if Lists(ids, w.files) then w.(s := Plan(w.files, w.s, ids)) else w
    case Process(order, jobsDone, halfway) =>
      var done := Min(jobsDone, |order|);
      w.(s := LeftHalfway(w.files, ProcessJobs(w.files, w.s, order[..done]), order, done, halfway))
    case DropRemovedRows => w.(s := w.s.(table := DropRemoved(w.files, w.s.table)))
    case Evaluate(path, gap) =>
      if path in w.files then w.(tables := Generate(w.tables, w.files[path], gap)) else w
    case Edit(files) => if Spares(w.files, files, Bound(w.keys)) then w.(files := files) else w
  }

  ghost function Execute(w: World, legacy: set<Route>, steps: seq<Step>): World {
    if steps == [] then w else Next(Execute(w, legacy, steps[..|steps| - 1]), legacy, steps[|steps| - 1])
  }

  /** Any note files with any consistent index, jobs and ledger; no key is bound yet. */
  ghost predicate Initial(w: World, legacy: set<Route>) {
    w.keys == map[] && TableOk(w.s.table) && DeliveriesOk(w.tables, legacy)
  }

  ghost predicate Reachable(w: World, legacy: set<Route>) {
    exists start, steps :: Initial(start, legacy) && w == Execute(start, legacy, steps)
  }

  // ---------------------------------------------------------------------------------------------
  // Each step

  lemma BoundOwns(w: World, legacy: set<Route>, k: Key)
    requires WorldOk(w, legacy) && k in w.keys
    ensures w.keys[k].id in Bound(w.keys) && Owns(w.files, w.keys[k].id)
  {
    hide Owns, RowFits, JobsFit, KeysOk, DeliveriesOk, RoutesFit, TableOk;
    assert NoteFits(w.files, w.s, w.keys[k].id);
  }

  /** Whether its key is bound or not, an attempt's id belongs to no other file. */
  lemma AttemptOwns(w: World, legacy: set<Route>, a: Attempt)
    requires WorldOk(w, legacy) && MayTry(w, legacy, a)
    ensures Owns(w.files, IdOf(w, a)) && (a.key !in w.keys ==> Canonical(a.id) !in w.files)
  {
    if a.key in w.keys { BoundOwns(w, legacy, a.key); }
    hide WorldOk;
  }

  lemma GenerateSnapshots(t: Tables, legacy: set<Route>, note: Note, gap: nat)
    requires DeliveriesOk(t, legacy)
    ensures Generate(t, note, gap).snapshots == TakeSnapshot(t.snapshots, note.id, DeliveryTargets(note))
    ensures note.id in Generate(t, note, gap).snapshots
  {
    hide DeliveriesOk, Generate, Filed, Grown, DeliveryTargets, Recipients;
    GenerateFiles(t, legacy, note, gap);
  }

  lemma BoundFile(w: World, legacy: set<Route>, path: Path)
    requires WorldOk(w, legacy) && path in w.files
    ensures w.files[path].id in Bound(w.keys) ==> path == Canonical(w.files[path].id)
  {
    hide KeysOk, DeliveriesOk, RoutesFit, TableOk, Bound;
    if w.files[path].id in Bound(w.keys) {
      assert NoteFits(w.files, w.s, w.files[path].id);
    }
  }

  lemma SnapshotFits(files: Files, snapshots: map<NoteId, Snapshot>, legacy: set<Route>, bound: set<NoteId>, note: Note)
    requires RoutesFit(files, snapshots, legacy, bound) && (note.id in bound ==> Written(files, note))
    ensures RoutesFit(files, TakeSnapshot(snapshots, note.id, DeliveryTargets(note)), legacy, bound)
  {
    hide DeliveryTargets, NoteLegacy;
  }

  lemma TablesOnly(w: World, legacy: set<Route>, tables: Tables)
    requires WorldOk(w, legacy) && DeliveriesOk(tables, legacy)
    requires RoutesFit(w.files, tables.snapshots, legacy, Bound(w.keys))
    ensures WorldOk(w.(tables := tables), legacy)
  {
    hide KeysOk, IndexOk, DeliveriesOk, RoutesFit;
  }

  /** An evaluation of any note in any version; a bound note has one file and one version. */
  lemma EvaluateNoteKeeps(w: World, legacy: set<Route>, note: Note, gap: nat)
    requires WorldOk(w, legacy) && (note.id in Bound(w.keys) ==> Written(w.files, note))
    ensures WorldOk(w.(tables := Generate(w.tables, note, gap)), legacy) && note.id in Generate(w.tables, note, gap).snapshots
  {
    var tables := Generate(w.tables, note, gap);
    hide IndexOk, DeliveriesOk, DeliveryTargets, RoutesFit, KeysOk, Bound, Generate, TakeSnapshot;
    assert DeliveriesOk(w.tables, legacy) && RoutesFit(w.files, w.tables.snapshots, legacy, Bound(w.keys));
    hide WorldOk;
    GenerateKeeps(w.tables, legacy, note, gap);
    GenerateSnapshots(w.tables, legacy, note, gap);
    SnapshotFits(w.files, w.tables.snapshots, legacy, Bound(w.keys), note);
    TablesOnly(w, legacy, tables);
  }

  lemma EvaluateKeeps(w: World, legacy: set<Route>, path: Path, gap: nat)
    requires WorldOk(w, legacy) && path in w.files
    ensures var note := w.files[path];
            WorldOk(w.(tables := Generate(w.tables, note, gap)), legacy) && note.id in Generate(w.tables, note, gap).snapshots
  {
    BoundFile(w, legacy, path);
    hide WorldOk, Bound, Generate;
    EvaluateNoteKeeps(w, legacy, w.files[path], gap);
  }

  lemma IndexOnly(w: World, legacy: set<Route>, s: State)
    requires WorldOk(w, legacy) && IndexOk(w.files, s, Bound(w.keys))
    ensures WorldOk(w.(s := s), legacy)
  {
    hide KeysOk, IndexOk, DeliveriesOk, RoutesFit;
  }

  lemma ReconcileKeeps(w: World, legacy: set<Route>, note: Note, a: Attempt)
    requires WorldOk(w, legacy) && (a.stages >= 3 ==> Written(w.files, note))
    ensures WorldOk(Reconcile(w, note, a), legacy)
  {
    if a.stages >= 3 {
      var enqueued := Enqueued(w.s, note);
      var done := if a.stages >= 4 || a.jobsDone > |a.order| then |a.order| else a.jobsDone;
      var processed := ProcessJobs(w.files, enqueued, a.order[..done]);
      EnqueueFits(w.files, w.s, note, Bound(w.keys));
      hide KeysOk, IndexOk, DeliveriesOk, RoutesFit, ProcessJobs, LeftHalfway, Enqueued;
      ProcessJobsFit(w.files, enqueued, a.order[..done], Bound(w.keys));
      LeftHalfwayFits(w.files, processed, a.order, done, a.halfway, Bound(w.keys));
      IndexOnly(w, legacy, processed);
      IndexOnly(w, legacy, LeftHalfway(w.files, processed, a.order, done, a.halfway));
      if a.stages >= 5 {
        EvaluateKeeps(w.(s := processed), legacy, Canonical(note.id), a.gap);
      }
    }
  }

  lemma UnusedFits(w: World, legacy: set<Route>, id: NoteId)
    requires Unused(w, legacy, id)
    ensures NoteFits(w.files, w.s, id)
  {
  }

  lemma ReserveKeeps(w: World, legacy: set<Route>, k: Key, reservation: Reservation)
    requires WorldOk(w, legacy) && k !in w.keys && Unused(w, legacy, reservation.id)
    ensures WorldOk(w.(keys := w.keys[k := reservation]), legacy)
  {
    UnusedFits(w, legacy, reservation.id);
    var keys := w.keys[k := reservation];
    assert forall id :: id in Bound(keys) ==> id in Bound(w.keys) || id == reservation.id;
    assert forall l :: l in w.keys ==> w.keys[l].id in Bound(w.keys);
    hide NoteFits, DeliveriesOk, NoteLegacy, TableOk;
  }

  lemma WriteFileKeeps(w: World, legacy: set<Route>, k: Key, now: nat)
    requires WorldOk(w, legacy) && k in w.keys && Canonical(w.keys[k].id) !in w.files
    ensures var note := NoteFor(w.keys[k].request, k.principal, w.keys[k].id, now);
            WorldOk(w.(files := w.files[Canonical(note.id) := note]), legacy)
  {
    var note := NoteFor(w.keys[k].request, k.principal, w.keys[k].id, now);
    assert note.id in Bound(w.keys);
    WriteFits(w.files, w.s, note, Bound(w.keys));
    hide IndexOk, DeliveriesOk, NoteLegacy, Bound;
    var files := w.files[Canonical(note.id) := note];
    forall l | l in w.keys && Canonical(w.keys[l].id) in files
      ensures exists at :: files[Canonical(w.keys[l].id)] == NoteFor(w.keys[l].request, l.principal, w.keys[l].id, at)
    {
      if l == k {
        assert files[Canonical(w.keys[l].id)] == NoteFor(w.keys[l].request, l.principal, w.keys[l].id, now);
      }
    }
  }

  lemma WriteKeeps(w: World, legacy: set<Route>, a: Attempt)
    requires WorldOk(w, legacy) && MayTry(w, legacy, a) && Find(w.files, IdOf(w, a)).None?
    requires a.key in w.keys ==> w.keys[a.key].request == a.request
    ensures WorldOk(Write(w, a), legacy)
    ensures a.stages >= 2 ==> Written(Write(w, a).files, NoteFor(a.request, a.key.principal, IdOf(w, a), a.now))
  {
    var id := IdOf(w, a);
    assert Canonical(id) !in w.files by {
      AttemptOwns(w, legacy, a);
      WrittenIsFound(w.files, id);
    }
    hide WorldOk, Find, Unused;
    if a.key !in w.keys && a.stages >= 1 {
      ReserveKeeps(w, legacy, a.key, Reservation(a.request, id));
    }
    if a.stages >= 2 {
      var reserved := w.(keys := if a.key !in w.keys then w.keys[a.key := Reservation(a.request, id)] else w.keys);
      WriteFileKeeps(reserved, legacy, a.key, a.now);
      assert Write(w, a) == reserved.(files := w.files[Canonical(id) := NoteFor(a.request, a.key.principal, id, a.now)]);
    }
  }

  lemma CreateKeeps(w: World, legacy: set<Route>, a: Attempt)
    requires WorldOk(w, legacy) && MayTry(w, legacy, a)
    ensures WorldOk(Create(w, a), legacy)
  {
    if OutcomeOf(w, a) != Conflict && OutcomeOf(w, a) != Rejected {
      var found := Find(w.files, IdOf(w, a));
      AttemptOwns(w, legacy, a);
      WrittenIsFound(w.files, IdOf(w, a));
      hide WorldOk, MayTry, Find, Reconcile, Write, Owns;
      if a.key in w.keys && found.Some? {
        assert Written(w.files, w.files[found.value]);
        ReconcileKeeps(w, legacy, w.files[found.value], a);
      } else {
        WriteKeeps(w, legacy, a);
        ReconcileKeeps(Write(w, a), legacy, NoteFor(a.request, a.key.principal, IdOf(w, a), a.now), a);
      }
    }
  }

  lemma ProcessKeeps(w: World, legacy: set<Route>, order: seq<Op>, jobsDone: nat, halfway: nat)
    requires WorldOk(w, legacy)
    ensures WorldOk(Next(w, legacy, Process(order, jobsDone, halfway)), legacy)
  {
    var done := Min(jobsDone, |order|);
    hide IndexOk, ProcessJobs, LeftHalfway;
    ProcessJobsFit(w.files, w.s, order[..done], Bound(w.keys));
    LeftHalfwayFits(w.files, ProcessJobs(w.files, w.s, order[..done]), order, done, halfway, Bound(w.keys));
    IndexOnly(w, legacy, Next(w, legacy, Process(order, jobsDone, halfway)).s);
  }

  lemma EditKeeps(w: World, legacy: set<Route>, files: Files)
    requires WorldOk(w, legacy) && Spares(w.files, files, Bound(w.keys))
    ensures WorldOk(w.(files := files), legacy)
  {
    EditFits(w.files, files, w.s, Bound(w.keys));
    assert forall k :: k in w.keys ==> w.keys[k].id in Bound(w.keys);
    hide IndexOk, DeliveriesOk, NoteLegacy, DeliveryTargets, Owns, Bound;
    forall k | k in w.keys && Canonical(w.keys[k].id) in files
      ensures exists now :: files[Canonical(w.keys[k].id)] == NoteFor(w.keys[k].request, k.principal, w.keys[k].id, now)
    {
      assert files[Canonical(w.keys[k].id)] == w.files[Canonical(w.keys[k].id)];
    }
  }

  lemma StepKeeps(w: World, legacy: set<Route>, step: Step)
    requires WorldOk(w, legacy)
    ensures WorldOk(Next(w, legacy, step), legacy)
  {
    hide IndexOk, KeysOk, DeliveriesOk, RoutesFit, MayTry, Create, RemoveCollided, Plan, DropRemoved, Lists, Spares;
    match step
    case Try(a) => if MayTry(w, legacy, a) { CreateKeeps(w, legacy, a); }
    case Requeue =>
      RequeueFits(w.files, w.s, Bound(w.keys));
      IndexOnly(w, legacy, Next(w, legacy, step).s);
    case RemoveCollidedRows =>
      RemoveCollidedFits(w.files, w.s, Bound(w.keys));
      IndexOnly(w, legacy, Next(w, legacy, step).s);
    case PlanPending(ids) =>
      if Lists(ids, w.files) {
        PlanFits(w.files, w.s, ids, Bound(w.keys));
        IndexOnly(w, legacy, Next(w, legacy, step).s);
      }
    case Process(order, jobsDone, halfway) => ProcessKeeps(w, legacy, order, jobsDone, halfway);
    case DropRemovedRows =>
      DropRemovedFits(w.files, w.s, Bound(w.keys));
      IndexOnly(w, legacy, Next(w, legacy, step).s);
    case Evaluate(path, gap) => if path in w.files { EvaluateKeeps(w, legacy, path, gap); }
    case Edit(files) => if Spares(w.files, files, Bound(w.keys)) { EditKeeps(w, legacy, files); }
  }

  lemma {:induction false} RunsKeep(w: World, legacy: set<Route>, steps: seq<Step>)
    requires WorldOk(w, legacy)
    ensures WorldOk(Execute(w, legacy, steps), legacy)
  {
    hide WorldOk, Next;
    if steps != [] {
      RunsKeep(w, legacy, steps[..|steps| - 1]);
      StepKeeps(Execute(w, legacy, steps[..|steps| - 1]), legacy, steps[|steps| - 1]);
    }
  }

  lemma InitialOk(w: World, legacy: set<Route>)
    requires Initial(w, legacy)
    ensures WorldOk(w, legacy)
  {
    hide DeliveriesOk, TableOk;
    assert Bound(w.keys) == {};
  }

  lemma ReachableOk(w: World, legacy: set<Route>)
    requires Reachable(w, legacy)
    ensures WorldOk(w, legacy)
  {
    var start, steps :| Initial(start, legacy) && w == Execute(start, legacy, steps);
    hide Execute, Initial, WorldOk;
    InitialOk(start, legacy);
    RunsKeep(start, legacy, steps);
  }

  // ---------------------------------------------------------------------------------------------
  // Theorems

  /** Bound keys stay bound as they are, and the written file of a bound note stays as it is. */
  ghost predicate BindingsKept(before: World, after: World) {
    && (forall k :: k in before.keys ==> k in after.keys && after.keys[k] == before.keys[k])
    && (forall id :: id in Bound(before.keys) && Canonical(id) in before.files ==>
          Canonical(id) in after.files && after.files[Canonical(id)] == before.files[Canonical(id)])
  }

  lemma CreateBinds(w: World, legacy: set<Route>, a: Attempt)
    requires WorldOk(w, legacy) && MayTry(w, legacy, a)
    ensures BindingsKept(w, Create(w, a))
  {
    hide WorldOk, MayTry, Owns, Find, Write, Create, BindingsKept;
    AttemptOwns(w, legacy, a);
    WrittenIsFound(w.files, IdOf(w, a));
    BindingsReflexive(w);
    CreateKeepsFiles(w, a);
    if Find(w.files, IdOf(w, a)).None? {
      WriteBinds(w, a);
      SameBindings(w, Write(w, a), Create(w, a));
    }
    SameBindings(w, w, Create(w, a));
  }

  lemma SameBindings(w: World, u: World, v: World)
    requires BindingsKept(w, u)
    ensures v.files == u.files && v.keys == u.keys ==> BindingsKept(w, v)
  {
  }

  lemma CreateKeepsFiles(w: World, a: Attempt)
    ensures var basis := if a.key in w.keys && Find(w.files, IdOf(w, a)).Some? then w else Write(w, a);
            Create(w, a) == w || (Create(w, a).files == basis.files && Create(w, a).keys == basis.keys)
  {
    hide Find, Write;
  }

  lemma WriteBinds(w: World, a: Attempt)
    requires Canonical(IdOf(w, a)) !in w.files
    ensures BindingsKept(w, Write(w, a))
  {
  }

  lemma StepBinds(w: World, legacy: set<Route>, step: Step)
    requires WorldOk(w, legacy)
    ensures BindingsKept(w, Next(w, legacy, step))
  {
    hide WorldOk, MayTry, Create, Owns, Bound, RemoveCollided, Plan, DropRemoved, Lists, LeftHalfway, ProcessJobs, Generate;
    if step.Try? && MayTry(w, legacy, step.attempt) {
      CreateBinds(w, legacy, step.attempt);
    }
  }

  lemma BindingsChain(a: World, b: World, c: World)
    requires BindingsKept(a, b) && BindingsKept(b, c)
    ensures BindingsKept(a, c)
  {
  }

  /** Once a key is bound to a note id, and once its note file is written, no run changes either. */
  lemma {:induction false} BindingsNeverChange(w: World, legacy: set<Route>, steps: seq<Step>)
    requires WorldOk(w, legacy)
    ensures BindingsKept(w, Execute(w, legacy, steps))
  {
    hide WorldOk, Next, BindingsKept;
    if steps == [] {
      assert BindingsKept(w, w) by { BindingsReflexive(w); }
    } else {
      var before := Execute(w, legacy, steps[..|steps| - 1]);
      BindingsNeverChange(w, legacy, steps[..|steps| - 1]);
      RunsKeep(w, legacy, steps[..|steps| - 1]);
      StepBinds(before, legacy, steps[|steps| - 1]);
      BindingsChain(w, before, Execute(w, legacy, steps));
    }
  }

  lemma BindingsReflexive(w: World)
    ensures BindingsKept(w, w)
  {
  }

  /** The note says what its request says, in the name of the caller. */
  ghost predicate Says(note: Note, request: Request, author: Name, id: NoteId) {
    && note.id == id && note.author == author
    && note.visibility == request.visibility && note.kind == request.kind && note.project == request.project
    && note.participants == request.participants && note.about == request.about
    && note.supersedes == request.supersedes && note.relations == request.relations && note.body == request.body
  }

  /** Whatever the attempts, crashes and outside edits: at most one file per bound note id, and one key. */
  lemma OneFilePerKey(w: World, legacy: set<Route>, k: Key, l: Key, p: Path, q: Path)
    requires Reachable(w, legacy) && k in w.keys && l in w.keys && p in w.files && q in w.files
    ensures w.files[p].id == w.keys[k].id && w.files[q].id == w.keys[k].id ==> p == q
    ensures w.keys[k].id == w.keys[l].id ==> k == l
    ensures w.files[p].id == w.keys[k].id ==> Says(w.files[p], w.keys[k].request, k.principal, w.keys[k].id)
  {
    hide Reachable;
    ReachableOk(w, legacy);
    BoundOwns(w, legacy, k);
    hide IndexOk, DeliveriesOk, RoutesFit;
  }

  /**
   * Whatever happened since a key was bound, a different request under it is a conflict, and trying it changes nothing.
   */
  lemma OtherRequestChangesNothing(w: World, legacy: set<Route>, steps: seq<Step>, a: Attempt)
    requires WorldOk(w, legacy) && a.key in w.keys && w.keys[a.key].request != a.request
    ensures var later := Execute(w, legacy, steps);
            OutcomeOf(later, a) == Conflict && Next(later, legacy, Try(a)) == later
  {
    hide WorldOk, Execute;
    BindingsNeverChange(w, legacy, steps);
  }

  ghost predicate IndexedAs(rows: map<NoteId, Row>, note: Note) {
    note.id in rows && rows[note.id].note == note && rows[note.id].path == Canonical(note.id)
  }

  /**
   * How an attempt ends, from what is there before it. A key bound to another request is a conflict. Else, when the key's
   * note is there, the attempt returns it, unless it crashes. Else it is rejected exactly when its request supersedes a note
   * that is missing, ambiguous, or another's and the caller is no administrator.
   */
  lemma OutcomeIs(w: World, legacy: set<Route>, a: Attempt)
    requires WorldOk(w, legacy) && MayTry(w, legacy, a)
    ensures var outcome := OutcomeOf(w, a);
            var other := a.key in w.keys && w.keys[a.key].request != a.request;
            var written := a.key in w.keys && Canonical(w.keys[a.key].id) in w.files;
            var barred := a.request.supersedes.Some? &&
                          forall p :: OnlyFile(w.files, a.request.supersedes.value, p) ==>
                            w.files[p].author != a.key.principal && !a.admin;
            && (outcome == Conflict <==> other)
            && (outcome == Rejected <==> !other && !written && barred)
            && (outcome.Returned? <==> !other && (written || !barred) && a.stages >= 5)
            && (outcome.Returned? ==>
                  (outcome.created <==> !written) && outcome.id == if a.key in w.keys then w.keys[a.key].id else a.id)
            && (outcome == Conflict || outcome == Rejected ==> Create(w, a) == w)
  {
    AttemptOwns(w, legacy, a);
    WrittenIsFound(w.files, IdOf(w, a));
    hide WorldOk, MayTry, Owns, Write, Reconcile;
    SupersedeIff(w.files, a);
    hide MaySupersede, Find;
  }

  lemma SupersedeIff(files: Files, a: Attempt)
    ensures MaySupersede(files, a) <==>
              !(a.request.supersedes.Some? &&
                forall p :: OnlyFile(files, a.request.supersedes.value, p) ==>
                  files[p].author != a.key.principal && !a.admin)
  {
    if a.request.supersedes.Some? {
      var found := Find(files, a.request.supersedes.value);
      forall p | OnlyFile(files, a.request.supersedes.value, p)
        ensures found == Some(p)
      {
      }
    }
  }

  /** The note is indexed under its path with its content, and its deliveries are exactly its targets. */
  ghost predicate Delivered(w: World, note: Note) {
    && (Distinct(note.relations) ==> IndexedAs(w.s.table.rows, note))
    && DeliveredAs(w.tables, note.id, DeliveryTargets(note))
  }

  lemma ProcessedIsIndexed(files: Files, s: State, order: seq<Op>, note: Note, bound: set<NoteId>)
    requires IndexOk(files, s, bound) && note.id in bound && NoDuplicates(order) && NoneIn(s.jobs, Running)
    requires JobOf(note) in s.jobs && JobOf(note) in order
    requires Distinct(note.relations) && Written(files, note)
    ensures IndexedAs(ProcessJobs(files, s, order).table.rows, note)
  {
    var op := JobOf(note);
    JobsEnd(files, s, order, op);
    ProcessJobsFit(files, s, order, bound);
    hide ProcessJobs, TableOk, Owns;
    var after := ProcessJobs(files, s, order);
    assert NoteFits(files, after, note.id);
    assert JobFits(files, after, note.id, op);
  }

  lemma EvaluatedIsDelivered(w: World, legacy: set<Route>, note: Note)
    requires WorldOk(w, legacy) && Written(w.files, note) && note.id in Bound(w.keys) && note.id in w.tables.snapshots
    ensures DeliveredAs(w.tables, note.id, DeliveryTargets(note))
  {
    hide KeysOk, IndexOk, DeliveriesOk, DeliveredAs, NoteLegacy, DeliveryTargets;
    SnapshotDelivers(w.tables, legacy, note.id);
  }

  lemma FullyProcessed(files: Files, s: State, order: seq<Op>, note: Note, bound: set<NoteId>)
    requires IndexOk(files, s, bound) && note.id in bound && Written(files, note) && NoneIn(s.jobs, Running)
    requires NoDuplicates(order) && JobOf(note) in order
    ensures var after := ProcessJobs(files, Enqueued(s, note), order);
            && IndexOk(files, after, bound)
            && (Distinct(note.relations) ==> IndexedAs(after.table.rows, note))
  {
    EnqueueFits(files, s, note, bound);
    assert NoneIn(Enqueued(s, note).jobs, Running);
    hide IndexOk;
    ProcessJobsFit(files, Enqueued(s, note), order, bound);
    if Distinct(note.relations) {
      ProcessedIsIndexed(files, Enqueued(s, note), order, note, bound);
    }
  }

  lemma ReconcileIs(w: World, note: Note, a: Attempt)
    requires a.stages >= ALL_STAGES
    ensures Reconcile(w, note, a) ==
            w.(s := ProcessJobs(w.files, Enqueued(w.s, note), a.order), tables := Generate(w.tables, note, a.gap))
  {
    hide ProcessJobs, Enqueued, Generate, LeftHalfway;
    assert a.order[..|a.order|] == a.order;
  }

  lemma FullReconcile(w: World, legacy: set<Route>, note: Note, a: Attempt)
    requires WorldOk(w, legacy) && Written(w.files, note) && note.id in Bound(w.keys) && a.stages >= ALL_STAGES
    requires NoneIn(w.s.jobs, Running) && NoDuplicates(a.order) && JobOf(note) in a.order
    ensures Delivered(Reconcile(w, note, a), note)
  {
    var processed := w.(s := ProcessJobs(w.files, Enqueued(w.s, note), a.order));
    ReconcileIs(w, note, a);
    assert IndexOk(w.files, w.s, Bound(w.keys));
    hide Reconcile, IndexOk;
    FullyProcessed(w.files, w.s, a.order, note, Bound(w.keys));
    hide WorldOk, ProcessJobs, Enqueued, Generate, DeliveredAs, DeliveryTargets, Bound;
    IndexOnly(w, legacy, processed.s);
    EvaluateKeeps(processed, legacy, Canonical(note.id), a.gap);
    EvaluatedIsDelivered(processed.(tables := Generate(w.tables, note, a.gap)), legacy, note);
  }

  lemma WrittenNoteFor(w: World, legacy: set<Route>, k: Key)
    requires WorldOk(w, legacy) && k in w.keys && Canonical(w.keys[k].id) in w.files
    ensures var note := w.files[Canonical(w.keys[k].id)];
            note == NoteFor(w.keys[k].request, k.principal, w.keys[k].id, note.recordedAt) && note.id in Bound(w.keys)
  {
    hide IndexOk, DeliveriesOk, RoutesFit;
  }

  /**
   * An attempt that returns gives the id its key is bound to; the note is its request's, its file is written, and unless
   * it repeats a relation it is indexed; its deliveries are exactly its targets.
   */
  lemma ReturnMeansDone(w: World, legacy: set<Route>, a: Attempt)
    requires WorldOk(w, legacy) && MayTry(w, legacy, a) && OutcomeOf(w, a).Returned?
    ensures var after := Create(w, a);
            var id := OutcomeOf(w, a).id;
            && a.key in after.keys && after.keys[a.key] == Reservation(a.request, id)
            && Canonical(id) in after.files
            && var note := after.files[Canonical(id)];
               && Says(note, a.request, a.key.principal, id) && Delivered(after, note)
               && (Canonical(id) !in w.files ==> note.recordedAt == a.now)
  {
    var id := IdOf(w, a);
    AttemptOwns(w, legacy, a);
    WrittenIsFound(w.files, id);
    hide WorldOk, MayTry, Find, Owns, Delivered, Create, Reconcile, Write;
    if a.key in w.keys && Find(w.files, id).Some? {
      ReturnsExisting(w, legacy, a);
    } else {
      ReturnsCreated(w, legacy, a);
    }
  }

  lemma ReturnsExisting(w: World, legacy: set<Route>, a: Attempt)
    requires WorldOk(w, legacy) && MayTry(w, legacy, a) && a.stages >= ALL_STAGES
    requires a.key in w.keys && w.keys[a.key].request == a.request && Find(w.files, w.keys[a.key].id).Some?
    ensures var note := NoteOf(w, a);
            && Canonical(w.keys[a.key].id) in w.files && note == w.files[Canonical(w.keys[a.key].id)]
            && note == NoteFor(a.request, a.key.principal, w.keys[a.key].id, note.recordedAt)
            && Create(w, a) == Reconcile(w, note, a) && Delivered(Reconcile(w, note, a), note)
  {
    BoundOwns(w, legacy, a.key);
    WrittenIsFound(w.files, w.keys[a.key].id);
    hide WorldOk, Find, Owns, Unused, Bound, Reconcile, Delivered;
    WrittenNoteFor(w, legacy, a.key);
    FullReconcile(w, legacy, NoteOf(w, a), a);
  }

  lemma ReturnsCreated(w: World, legacy: set<Route>, a: Attempt)
    requires WorldOk(w, legacy) && MayTry(w, legacy, a) && a.stages >= ALL_STAGES
    requires a.key in w.keys ==> w.keys[a.key].request == a.request && Find(w.files, w.keys[a.key].id).None?
    requires OutcomeOf(w, a).Returned?
    ensures var note, written := NoteOf(w, a), Write(w, a);
            && a.key in written.keys && written.keys[a.key] == Reservation(a.request, IdOf(w, a))
            && note == NoteFor(a.request, a.key.principal, IdOf(w, a), a.now) && Written(written.files, note)
            && Create(w, a) == Reconcile(written, note, a) && Delivered(Reconcile(written, note, a), note)
  {
    CreateWrites(w, a);
    AttemptOwns(w, legacy, a);
    WrittenIsFound(w.files, IdOf(w, a));
    assert Canonical(IdOf(w, a)) !in w.files;
    WriteKeeps(w, legacy, a);
    assert MayTry(w, legacy, a) ==> NoneIn(w.s.jobs, Running) && NoDuplicates(a.order) && JobOf(NoteOf(w, a)) in a.order;
    ReservedInWrite(w, a);
    hide WorldOk, MayTry, Find, Owns, Bound, Reconcile, Delivered, Create, Write, OutcomeOf;
    WrittenNoteFor(Write(w, a), legacy, a.key);
    FullReconcile(Write(w, a), legacy, NoteOf(w, a), a);
  }

  lemma CreateWrites(w: World, a: Attempt)
    requires OutcomeOf(w, a).Returned? && (a.key in w.keys ==> Find(w.files, w.keys[a.key].id).None?)
    ensures Create(w, a) == Reconcile(Write(w, a), NoteFor(a.request, a.key.principal, IdOf(w, a), a.now), a)
  {
    hide Find, Reconcile, Write;
  }

  lemma ReservedInWrite(w: World, a: Attempt)
    requires a.stages >= 2 && (a.key in w.keys ==> w.keys[a.key].request == a.request)
    ensures var written := Write(w, a);
            && a.key in written.keys && written.keys[a.key] == Reservation(a.request, IdOf(w, a))
            && written.s == w.s && Canonical(IdOf(w, a)) in written.files
  {
  }

  lemma {:induction false} NothingPending(files: Files, s: State, order: seq<Op>)
    requires NoneIn(s.jobs, Pending)
    ensures ProcessJobs(files, s, order) == s
  {
    if order != [] { NothingPending(files, s, order[..|order| - 1]); }
  }

  /** Repeating a request whose note is done changes no file, key, row, job or delivery, wherever the repeat crashes. */
  lemma RepeatChangesNothing(w: World, legacy: set<Route>, a: Attempt)
    requires WorldOk(w, legacy) && a.key in w.keys && w.keys[a.key].request == a.request
    requires Canonical(w.keys[a.key].id) in w.files && JobOf(w.files[Canonical(w.keys[a.key].id)]) in w.s.jobs
    requires NoneIn(w.s.jobs, Pending) && w.keys[a.key].id in w.tables.snapshots
    ensures var after := Create(w, a);
            && after.files == w.files && after.keys == w.keys && after.s == w.s
            && after.tables.v1.at == w.tables.v1.at && after.tables.v2 == w.tables.v2
  {
    var note := w.files[Canonical(w.keys[a.key].id)];
    assert DeliveriesOk(w.tables, legacy);
    BoundOwns(w, legacy, a.key);
    hide WorldOk, DeliveriesOk;
    WrittenIsFound(w.files, w.keys[a.key].id);
    RegenerateChangesNothing(w.tables, legacy, note, a.gap);
    hide Generate, Find, Owns, Bound, Reconcile;
    CreateReconciles(w, note, a);
    hide Create;
    NothingToReconcile(w, note, a);
  }

  lemma NothingToReconcile(w: World, note: Note, a: Attempt)
    requires NoneIn(w.s.jobs, Pending) && JobOf(note) in w.s.jobs
    ensures Reconcile(w, note, a).s == w.s
    ensures Reconcile(w, note, a).tables == if a.stages >= 5 then Generate(w.tables, note, a.gap) else w.tables
  {
    hide Generate;
    var done := if a.stages >= 4 || a.jobsDone > |a.order| then |a.order| else a.jobsDone;
    NothingPending(w.files, w.s, a.order[..done]);
    hide ProcessJobs;
  }

  lemma CreateReconciles(w: World, note: Note, a: Attempt)
    requires a.key in w.keys && w.keys[a.key].request == a.request && Canonical(w.keys[a.key].id) in w.files
    requires Find(w.files, w.keys[a.key].id) == Some(Canonical(w.keys[a.key].id))
    requires note == w.files[Canonical(w.keys[a.key].id)]
    ensures Create(w, a) == Reconcile(w, note, a)
  {
    hide Find, Reconcile;
  }

  // ---------------------------------------------------------------------------------------------
  // Synchronising with deliveries

  /** The evaluations at the end of a synchronisation: every note whose manifest entry differed when it began. */
  function EvaluateChanged(t: Tables, files: Files, manifest: map<NoteId, Row>, ids: seq<NoteId>, gap: nat): Tables
    requires forall i :: 0 <= i < |ids| ==> ids[i] in Valid(files)
  {
    if ids == [] then t
    else
      var earlier := EvaluateChanged(t, files, manifest, ids[..|ids| - 1], gap);
      var id := ids[|ids| - 1];
      if Indexed(files, manifest, id) then earlier else Generate(earlier, JobFor(files, id).note, gap)
  }

  lemma SyncFits(files: Files, s: State, ids: seq<NoteId>, order: seq<Op>, bound: set<NoteId>)
    requires IndexOk(files, s, bound) && Lists(ids, files)
    ensures IndexOk(files, Sync(files, s, ids, order), bound)
  {
    hide IndexOk, Recovered, ProcessJobs, Prune;
    RecoverFits(files, s, ids, bound);
    ProcessJobsFit(files, Recovered(files, s, ids), order, bound);
    PruneFits(files, ProcessJobs(files, Recovered(files, s, ids), order), bound);
  }

  lemma {:induction false} EvaluateChangedKeeps(w: World, legacy: set<Route>, manifest: map<NoteId, Row>, ids: seq<NoteId>, gap: nat)
    requires WorldOk(w, legacy) && forall i :: 0 <= i < |ids| ==> ids[i] in Valid(w.files)
    ensures WorldOk(w.(tables := EvaluateChanged(w.tables, w.files, manifest, ids, gap)), legacy)
    ensures w.tables.snapshots.Keys <= EvaluateChanged(w.tables, w.files, manifest, ids, gap).snapshots.Keys
    ensures forall id :: id in ids && !Indexed(w.files, manifest, id) ==>
              id in EvaluateChanged(w.tables, w.files, manifest, ids, gap).snapshots
  {
    hide WorldOk, Valid, Generate, Indexed, NoteLegacy, DeliveryTargets;
    if ids != [] {
      var before, id := ids[..|ids| - 1], ids[|ids| - 1];
      var earlier := w.(tables := EvaluateChanged(w.tables, w.files, manifest, before, gap));
      EvaluateChangedKeeps(w, legacy, manifest, before, gap);
      assert ids == before + [id];
      ValidIsFound(w.files, id);
      if !Indexed(w.files, manifest, id) {
        EvaluateKeeps(earlier, legacy, Valid(w.files)[id], gap);
        SnapshotsGrow(earlier, legacy, JobFor(w.files, id).note, gap);
      }
    }
  }

  lemma SnapshotsGrow(w: World, legacy: set<Route>, note: Note, gap: nat)
    requires WorldOk(w, legacy)
    ensures w.tables.snapshots.Keys <= Generate(w.tables, note, gap).snapshots.Keys
  {
    hide IndexOk, KeysOk, RoutesFit, Generate, DeliveriesOk;
    GenerateSnapshots(w.tables, legacy, note, gap);
    hide DeliveryTargets;
  }

  /**
   * Every bound note that changed is delivered to exactly its targets by the synchronisation that sees it, even when a
   * constraint keeps it out of the index.
   */
  lemma SyncDeliversChanged(w: World, legacy: set<Route>, ids: seq<NoteId>, order: seq<Op>, gap: nat, id: NoteId)
    requires WorldOk(w, legacy) && Lists(ids, w.files)
    requires id in Bound(w.keys) && Changed(w.files, w.s.table.rows, id)
    ensures var after := World(w.files, Sync(w.files, w.s, ids, order),
                               EvaluateChanged(w.tables, w.files, w.s.table.rows, ids, gap), w.keys);
            && WorldOk(after, legacy)
            && Canonical(id) in w.files && DeliveredAs(after.tables, id, DeliveryTargets(w.files[Canonical(id)]))
  {
    var synced := w.(s := Sync(w.files, w.s, ids, order));
    assert Canonical(id) in w.files && w.files[Canonical(id)].id == id by {
      assert NoteFits(w.files, w.s, id);
      BoundIsValid(w.files, id);
      WrittenIsFound(w.files, id);
    }
    assert IndexOk(w.files, w.s, Bound(w.keys));
    hide WorldOk, IndexOk, Sync, Valid, Indexed, Bound, DeliveredAs, DeliveryTargets;
    SyncFits(w.files, w.s, ids, order, Bound(w.keys));
    IndexOnly(w, legacy, synced.s);
    EvaluateChangedKeeps(synced, legacy, w.s.table.rows, ids, gap);
    assert id in ids;
    EvaluatedIsDelivered(synced.(tables := EvaluateChanged(w.tables, w.files, w.s.table.rows, ids, gap)), legacy,
                         w.files[Canonical(id)]);
  }
}
