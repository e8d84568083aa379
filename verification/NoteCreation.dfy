/**
 * Idempotent creation: a reservation, the note file, a job, the index and the deliveries, written one after another.
 * A crash may fall after any of these writes and inside the processing of jobs; the next process then starts afresh.
 */
module NoteCreation {
  import opened Base
  import opened Notes
  import opened NoteIndex
  import opened IndexSync
  import IndexRuns
  import opened Ledger
  import opened LedgerInvariant
  import opened LedgerTheorems

  // The (principal, operation, key) under which a request is idempotent.
  datatype Key = Key(principal: Name, operation: nat, key: nat)

  // What the caller supplies; its hash stands for the whole request.
  datatype Request = Request(
    visibility: Visibility,
    kind: Kind,
    project: Option<nat>,
    participants: seq<Name>,
    about: seq<Name>,
    supersedes: Option<NoteId>,
    relations: seq<Relation>,
    body: nat)

  datatype Reservation = Reservation(request: Request, id: NoteId)

  function NoteFor(request: Request, author: Name, id: NoteId, now: nat): Note {
    Note(id, author, request.visibility, request.kind, request.project, request.participants, request.about,
         request.supersedes, request.relations, now, request.body)
  }

  /** `note_path`: distinct ids have distinct normalised paths. */
  function Canonical(id: NoteId): Path {
    Path(2 * id, 0)
  }

  datatype World = World(files: Files, s: State, tables: Tables, keys: map<Key, Reservation>)

  /**
   * One attempt: the id it would allocate, its clock, the job order it meets, the numbers its ignored inserts use up, and
   * how many of its stages it gets through: 1 reserve, 2 write, 3 enqueue, 4 process, 5 deliver. An attempt that stops
   * before stage 4 has processed `jobsDone` of the jobs and left the next one at `halfway`.
   */
  datatype Attempt = Attempt(key: Key, request: Request, admin: bool, id: NoteId, now: nat, order: seq<Op>, gap: nat,
                             stages: nat, jobsDone: nat, halfway: nat)

  datatype Outcome = Crashed | Returned(id: NoteId, created: bool) | Conflict | Rejected

  const ALL_STAGES := 5

  function IdOf(w: World, a: Attempt): NoteId {
    if a.key in w.keys then w.keys[a.key].id else a.id
  }

  /** The superseded note must exist and be the caller's own, unless the caller is an administrator. */
  predicate MaySupersede(files: Files, a: Attempt) {
    a.request.supersedes.Some? ==>
      var found := Find(files, a.request.supersedes.value);
      found.Some? && (files[found.value].author == a.key.principal || a.admin)
  }

  /** The first job after the processed ones may have been claimed, and even upserted, when the crash came. */
  function LeftHalfway(files: Files, s: State, order: seq<Op>, done: nat, halfway: nat): State {
    if halfway == 0 || done >= |order| || order[done] !in s.jobs || s.jobs[order[done]] != Pending then s
    else
      var claimed := s.(jobs := s.jobs[order[done] := Running]);
      if halfway == 1 then claimed
      else
        match IndexRuns.ApplyUpsert(files, s.table, order[done])
        case None => claimed
        case Some(table) => claimed.(table := table)
  }

  function JobOf(note: Note): Op {
    Op(note.id, note, Canonical(note.id))
  }

  /** `INSERT OR IGNORE` of the note's job. */
  function Enqueued(s: State, note: Note): State {
    if JobOf(note) in s.jobs then s else s.(jobs := s.jobs[JobOf(note) := Pending])
  }

  /** The note's job, processing, deliveries: what a new note and a repeated request share. */
  function Reconcile(w: World, note: Note, a: Attempt): (after: World)
    ensures after.files == w.files && after.keys == w.keys
  {
    var done := if a.stages >= 4 || a.jobsDone > |a.order| then |a.order| else a.jobsDone;
    var processed := ProcessJobs(w.files, Enqueued(w.s, note), a.order[..done]);
    if a.stages < 3 then w
    else if a.stages == 3 then w.(s := LeftHalfway(w.files, processed, a.order, done, a.halfway))
    else w.(s := processed, tables := if a.stages >= 5 then Generate(w.tables, note, a.gap) else w.tables)
  }

  /** The reservation and the note file of a request that has no readable note yet. */
  function Write(w: World, a: Attempt): World {
    var id := IdOf(w, a);
    var reserved := if a.stages >= 1 && a.key !in w.keys then w.keys[a.key := Reservation(a.request, id)] else w.keys;
    var files := if a.stages >= 2 then w.files[Canonical(id) := NoteFor(a.request, a.key.principal, id, a.now)] else w.files;
    w.(keys := reserved, files := files)
  }

  function OutcomeOf(w: World, a: Attempt): Outcome {
    if a.key in w.keys && w.keys[a.key].request != a.request then Conflict
    else if a.key in w.keys && Find(w.files, w.keys[a.key].id).Some? then
      if a.stages < ALL_STAGES then Crashed else Returned(w.keys[a.key].id, false)
    else if !MaySupersede(w.files, a) then Rejected
    else if a.stages < ALL_STAGES then Crashed
    else Returned(IdOf(w, a), true)
  }

  function Create(w: World, a: Attempt): World {
    if OutcomeOf(w, a) == Conflict || OutcomeOf(w, a) == Rejected then w
    else
      var found := Find(w.files, IdOf(w, a));
      if a.key in w.keys && found.Some? then Reconcile(w, w.files[found.value], a)
      else
        Reconcile(Write(w, a), NoteFor(a.request, a.key.principal, IdOf(w, a), a.now), a)
  }

  // ---------------------------------------------------------------------------------------------
  // What every state keeps

  /** The note ids that some key is bound to. */
  function Bound(keys: map<Key, Reservation>): set<NoteId> {
    set k | k in keys :: keys[k].id
  }

  /** No file but the note's own has its id or its normalised path. */
  ghost predicate Owns(files: Files, id: NoteId) {
    forall p :: p in files && (files[p].id == id || p.key == Canonical(id).key) ==> p == Canonical(id) && files[p].id == id
  }

  ghost predicate Written(files: Files, note: Note) {
    Canonical(note.id) in files && files[Canonical(note.id)] == note
  }

  /** A row of the note or at its path shows the note's file at that path. */
  ghost predicate RowFits(files: Files, rows: map<NoteId, Row>, id: NoteId) {
    forall m :: m in rows && (m == id || rows[m].path == Canonical(id)) ==>
      m == id && rows[m].path == Canonical(id) && Canonical(id) in files && rows[m].note == files[Canonical(id)]
  }

  /** A job of the note is for its written file; it ends well when the relations are distinct, and then the note is indexed. */
  ghost predicate JobFits(files: Files, s: State, id: NoteId, op: Op)
    requires op in s.jobs
  {
    && Canonical(id) in files && op == JobOf(files[Canonical(id)])
    && (s.jobs[op] == Done ==> id in s.table.rows)
    && (s.jobs[op] == Quarantined ==> !Distinct(op.note.relations))
  }

  ghost predicate JobsFit(files: Files, s: State, id: NoteId) {
    forall op :: op in s.jobs && op.id == id ==> JobFits(files, s, id, op)
  }

  /** What holds of one bound note in the files, the index and the job table. */
  ghost predicate NoteFits(files: Files, s: State, id: NoteId) {
    Owns(files, id) && RowFits(files, s.table.rows, id) && JobsFit(files, s, id)
  }

  ghost predicate IndexOk(files: Files, s: State, bound: set<NoteId>) {
    TableOk(s.table) && forall id :: id in bound ==> NoteFits(files, s, id)
  }

  /** A key's note, once written, is its request's; keys do not share ids. */
  ghost predicate KeysOk(files: Files, keys: map<Key, Reservation>) {
    && (forall k, l :: k in keys && l in keys && keys[k].id == keys[l].id ==> k == l)
    && (forall k :: k in keys && Canonical(keys[k].id) in files ==>
          exists now :: files[Canonical(keys[k].id)] == NoteFor(keys[k].request, k.principal, keys[k].id, now))
  }

  /**
   * A reserved id was never used for another note; its note is not evaluated before it is written, and its first
   * evaluation recorded exactly its targets.
   */
  ghost predicate RoutesFit(files: Files, snapshots: map<NoteId, Snapshot>, legacy: set<Route>, bound: set<NoteId>) {
    forall id :: id in bound ==>
      && !NoteLegacy(legacy, id)
      && (id in snapshots ==> Canonical(id) in files && snapshots[id].routes == DeliveryTargets(files[Canonical(id)]))
  }

  ghost predicate WorldOk(w: World, legacy: set<Route>) {
    && KeysOk(w.files, w.keys)
    && IndexOk(w.files, w.s, Bound(w.keys))
    && DeliveriesOk(w.tables, legacy) && RoutesFit(w.files, w.tables.snapshots, legacy, Bound(w.keys))
  }

  lemma WrittenIsFound(files: Files, id: NoteId)
    requires Owns(files, id)
    ensures Find(files, id) == if Canonical(id) in files then Some(Canonical(id)) else None
    ensures Canonical(id) in files ==> files[Canonical(id)].id == id
  {
    if Canonical(id) in files {
      assert OnlyFile(files, id, Canonical(id));
    }
  }

  lemma BoundIsValid(files: Files, id: NoteId)
    requires Owns(files, id)
    ensures id !in CollidedIds(files)
    ensures id in Valid(files) <==> Canonical(id) in files
    ensures id in Valid(files) ==> Valid(files)[id] == Canonical(id)
  {
    if Canonical(id) in files {
      assert files[Canonical(id)].id == id;
      assert !Collides(files, Canonical(id));
    }
  }

  // ---------------------------------------------------------------------------------------------
  // The index part, one bound note at a time

  lemma OtherFileElsewhere(files: Files, id: NoteId, other: NoteId)
    requires Owns(files, id) && other != id && Find(files, other).Some?
    ensures Find(files, other).value != Canonical(id)
  {
  }

  lemma UpsertFits(files: Files, s: State, id: NoteId, other: NoteId)
    requires Owns(files, id) && RowFits(files, s.table.rows, id) && Find(files, other).Some?
    requires Upsert(s.table, Find(files, other).value, files[Find(files, other).value], None).Some?
    ensures var after := Upsert(s.table, Find(files, other).value, files[Find(files, other).value], None).value.rows;
            RowFits(files, after, id) && after.Keys == s.table.rows.Keys + {other}
  {
    WrittenIsFound(files, id);
    if other != id { OtherFileElsewhere(files, id, other); }
    hide Find, Owns;
  }

  lemma BoundUpserts(files: Files, s: State, id: NoteId)
    requires Owns(files, id) && RowFits(files, s.table.rows, id) && Canonical(id) in files
    ensures Find(files, id) == Some(Canonical(id))
    ensures Upsert(s.table, Canonical(id), files[Canonical(id)], None).Some? <==> Distinct(files[Canonical(id)].relations)
  {
    WrittenIsFound(files, id);
    hide Find, Owns;
  }

  lemma ProcessJobFits(files: Files, s: State, op: Op, id: NoteId)
    requires NoteFits(files, s, id)
    ensures NoteFits(files, ProcessJob(files, s, op), id)
  {
    if op in s.jobs && s.jobs[op] == Pending {
      var after := ProcessJob(files, s, op);
      if op.id == id {
        assert JobFits(files, s, id, op);
        BoundUpserts(files, s, id);
      }
      if Find(files, op.id).Some? && Upsert(s.table, Find(files, op.id).value, files[Find(files, op.id).value], None).Some? {
        UpsertFits(files, s, id, op.id);
      }
      hide Find, Upsert, RowFits, Owns;
      forall other | other in after.jobs && other.id == id
        ensures JobFits(files, after, id, other)
      {
        assert JobFits(files, s, id, other);
      }
    }
  }

  lemma ProcessJobTable(files: Files, s: State, op: Op)
    requires TableOk(s.table)
    ensures TableOk(ProcessJob(files, s, op).table)
  {
    hide TableOk, Find, Upsert;
    if Find(files, op.id).Some? && Upsert(s.table, Find(files, op.id).value, files[Find(files, op.id).value], None).Some? {
      UpsertKeeps(s.table, Find(files, op.id).value, files[Find(files, op.id).value], None);
    }
  }

  lemma {:induction false} ProcessJobsFit(files: Files, s: State, order: seq<Op>, bound: set<NoteId>)
    requires IndexOk(files, s, bound)
    ensures IndexOk(files, ProcessJobs(files, s, order), bound)
  {
    hide TableOk, NoteFits, ProcessJob;
    if order != [] {
      var before := ProcessJobs(files, s, order[..|order| - 1]);
      ProcessJobsFit(files, s, order[..|order| - 1], bound);
      ProcessJobTable(files, before, order[|order| - 1]);
      forall id | id in bound
        ensures NoteFits(files, ProcessJobs(files, s, order), id)
      {
        ProcessJobFits(files, before, order[|order| - 1], id);
      }
    }
  }

  /** Claiming a job leaves it running; its upsert may have happened. */
  lemma LeftHalfwayFits(files: Files, s: State, order: seq<Op>, done: nat, halfway: nat, bound: set<NoteId>)
    requires IndexOk(files, s, bound)
    ensures IndexOk(files, LeftHalfway(files, s, order, done, halfway), bound)
  {
    if done < |order| && order[done] in s.jobs && s.jobs[order[done]] == Pending {
      var op := order[done];
      var upserted := IndexRuns.ApplyUpsert(files, s.table, op);
      assert upserted.Some? ==> TableOk(upserted.value) by {
        if upserted.Some? {
          UpsertKeeps(s.table, Find(files, op.id).value, files[Find(files, op.id).value], None);
        }
      }
      hide TableOk, Find, Upsert, NoteFits;
      forall id | id in bound
        ensures NoteFits(files, LeftHalfway(files, s, order, done, halfway), id)
      {
        ClaimedFits(files, s, op, id);
      }
    }
  }

  lemma ClaimedFits(files: Files, s: State, op: Op, id: NoteId)
    requires NoteFits(files, s, id) && op in s.jobs && s.jobs[op] == Pending
    ensures NoteFits(files, s.(jobs := s.jobs[op := Running]), id)
    ensures IndexRuns.ApplyUpsert(files, s.table, op).Some? ==>
              NoteFits(files, State(IndexRuns.ApplyUpsert(files, s.table, op).value, s.jobs[op := Running]), id)
  {
    if IndexRuns.ApplyUpsert(files, s.table, op).Some? {
      UpsertFits(files, s, id, op.id);
    }
    hide Find, Upsert, RowFits, Owns;
    var jobs := s.jobs[op := Running];
    forall other | other in jobs && other.id == id
      ensures JobFits(files, s.(jobs := jobs), id, other)
    {
      assert JobFits(files, s, id, other);
    }
  }

  lemma EnqueueFits(files: Files, s: State, note: Note, bound: set<NoteId>)
    requires IndexOk(files, s, bound) && Written(files, note)
    ensures IndexOk(files, Enqueued(s, note), bound)
  {
    hide TableOk, RowFits, Owns;
    var after := Enqueued(s, note);
    forall id | id in bound
      ensures NoteFits(files, after, id)
    {
      assert NoteFits(files, s, id);
      forall other | other in after.jobs && other.id == id
        ensures JobFits(files, after, id, other)
      {
        assert other in s.jobs ==> JobFits(files, s, id, other);
      }
    }
  }

  /** The file of a note that had none changes nothing for what is already indexed or queued. */
  lemma WriteFits(files: Files, s: State, note: Note, bound: set<NoteId>)
    requires IndexOk(files, s, bound) && note.id in bound && Canonical(note.id) !in files
    ensures IndexOk(files[Canonical(note.id) := note], s, bound)
  {
    hide TableOk;
    var after := files[Canonical(note.id) := note];
    forall id | id in bound
      ensures NoteFits(after, s, id)
    {
      assert NoteFits(files, s, id) && NoteFits(files, s, note.id);
      forall op | op in s.jobs && op.id == id
        ensures JobFits(after, s, id, op)
      {
        assert JobFits(files, s, id, op);
      }
    }
  }

  /** Removing rows of other notes leaves bound notes as they were. */
  lemma RemoveFits(files: Files, s: State, gone: set<NoteId>, bound: set<NoteId>)
    requires IndexOk(files, s, bound) && forall id :: id in bound && id in s.table.rows ==> id !in gone
    ensures IndexOk(files, s.(table := RemoveIds(s.table, gone)), bound)
  {
    RemoveKeeps(s.table, gone);
    hide TableOk, Owns;
    var after := s.(table := RemoveIds(s.table, gone));
    forall id | id in bound
      ensures NoteFits(files, after, id)
    {
      assert NoteFits(files, s, id);
      forall op | op in after.jobs && op.id == id
        ensures JobFits(files, after, id, op)
      {
        assert JobFits(files, s, id, op);
      }
    }
  }

  lemma RemoveCollidedFits(files: Files, s: State, bound: set<NoteId>)
    requires IndexOk(files, s, bound)
    ensures IndexOk(files, s.(table := RemoveCollided(files, s.table)), bound)
  {
    hide TableOk, RowFits, JobsFit;
    forall id | id in bound
      ensures id !in CollidedIds(files)
    {
      assert NoteFits(files, s, id);
      BoundIsValid(files, id);
    }
    RemoveFits(files, s, CollidedIds(files), bound);
  }

  lemma DropRemovedFits(files: Files, s: State, bound: set<NoteId>)
    requires IndexOk(files, s, bound)
    ensures IndexOk(files, s.(table := DropRemoved(files, s.table)), bound)
  {
    var gone := s.table.rows.Keys - Valid(files).Keys;
    hide TableOk, JobsFit, Valid, RemoveIds;
    forall id | id in bound && id in s.table.rows
      ensures id !in gone
    {
      assert NoteFits(files, s, id);
      BoundIsValid(files, id);
    }
    RemoveFits(files, s, gone, bound);
  }

  lemma PlanFits(files: Files, s: State, ids: seq<NoteId>, bound: set<NoteId>)
    requires IndexOk(files, s, bound) && Lists(ids, files)
    ensures IndexOk(files, Plan(files, s, ids), bound)
  {
    hide TableOk, PlanJobs, RowFits, Owns;
    var after := Plan(files, s, ids);
    forall id | id in bound
      ensures NoteFits(files, after, id)
    {
      assert NoteFits(files, s, id);
      forall op | op in after.jobs && op.id == id
        ensures JobFits(files, after, id, op)
      {
        JobPlanned(files, s, ids, id, op);
      }
    }
  }

  lemma RecoverFits(files: Files, s: State, ids: seq<NoteId>, bound: set<NoteId>)
    requires IndexOk(files, s, bound) && Lists(ids, files)
    ensures IndexOk(files, Recovered(files, s, ids), bound)
  {
    TransactionsMakeRecovery(files, s, ids);
    hide IndexOk, Recovered, Plan, RemoveCollided;
    RemoveCollidedFits(files, s, bound);
    PlanFits(files, s.(table := RemoveCollided(files, s.table)), ids, bound);
  }

  lemma JobPlanned(files: Files, s: State, ids: seq<NoteId>, id: NoteId, op: Op)
    requires NoteFits(files, s, id) && Lists(ids, files) && op.id == id
    requires op in PlanJobs(files, s.table.rows, s.jobs, ids)
    ensures JobFits(files, State(s.table, PlanJobs(files, s.table.rows, s.jobs, ids)), id, op)
  {
    BoundIsValid(files, id);
    WrittenIsFound(files, id);
    PlanEffect(files, s.table.rows, s.jobs, ids, op);
    hide Valid, Find, PlanJobs, CollidedIds, RowFits, Owns;
    if op in s.jobs {
      assert JobFits(files, s, id, op);
    }
  }

  lemma RequeueFits(files: Files, s: State, bound: set<NoteId>)
    requires IndexOk(files, s, bound)
    ensures IndexOk(files, s.(jobs := IndexRuns.Requeue(s.jobs)), bound)
  {
    hide TableOk, RowFits, Owns;
    var after := s.(jobs := IndexRuns.Requeue(s.jobs));
    forall id | id in bound
      ensures NoteFits(files, after, id)
    {
      assert NoteFits(files, s, id);
      forall op | op in after.jobs && op.id == id
        ensures JobFits(files, after, id, op)
      {
        assert JobFits(files, s, id, op);
      }
    }
  }

  /** Pruning removes no row of a bound note. */
  lemma PruneFits(files: Files, s: State, bound: set<NoteId>)
    requires IndexOk(files, s, bound)
    ensures IndexOk(files, s.(table := Prune(files, s.table)), bound)
  {
    hide IndexOk, RemoveCollided, DropRemoved;
    RemoveCollidedFits(files, s, bound);
    DropRemovedFits(files, s.(table := RemoveCollided(files, s.table)), bound);
  }

  /** An edit from outside spares bound notes: it leaves their files alone and takes none of their ids and paths. */
  ghost predicate Spares(before: Files, after: Files, bound: set<NoteId>) {
    forall id :: id in bound ==>
      && Owns(after, id)
      && (Canonical(id) in after <==> Canonical(id) in before)
      && (Canonical(id) in before ==> after[Canonical(id)] == before[Canonical(id)])
  }

  lemma EditFits(before: Files, after: Files, s: State, bound: set<NoteId>)
    requires IndexOk(before, s, bound) && Spares(before, after, bound)
    ensures IndexOk(after, s, bound)
  {
    hide TableOk, Owns;
    forall id | id in bound
      ensures NoteFits(after, s, id)
    {
      assert NoteFits(before, s, id);
      forall op | op in s.jobs && op.id == id
        ensures JobFits(after, s, id, op)
      {
        assert JobFits(before, s, id, op);
      }
    }
  }
}
