/**
 * The derived index of a memory root: scanning the note files, the job queue, the upsert transaction with its two
 * constraints, incremental synchronisation and rebuilding from scratch.
 */
module NoteIndex {
  import opened Base
  import opened Notes

  // Two paths collide when they are equal after Unicode normalisation and case folding, their `key`.
  datatype Path = Path(key: nat, spelling: nat)

  // The parsable note files. A content hash is the note it was taken of.
  type Files = map<Path, Note>

  datatype Row = Row(path: Path, note: Note, revision: nat)

  // The notes and manifest tables, always written together, and the relations table.
  datatype Table = Table(rows: map<NoteId, Row>, relations: set<(NoteId, Relation)>)

  const NOTHING_INDEXED := Table(map[], {})

  // A job's id names the note, its content hash and its path.
  datatype Op = Op(id: NoteId, note: Note, path: Path)

  datatype JobState = Pending | Running | Done | Quarantined

  type Jobs = map<Op, JobState>

  datatype State = State(table: Table, jobs: Jobs)

  // ---------------------------------------------------------------------------------------------
  // Scanning

  /** The file at `p` shares its id or its normalised path with another. */
  predicate Collides(files: Files, p: Path) {
    p in files && exists q :: q in files && q != p && (files[q].id == files[p].id || q.key == p.key)
  }

  function CollidedIds(files: Files): set<NoteId> {
    set p | p in files && Collides(files, p) :: files[p].id
  }

  /** The authoritative file of every note that does not collide. */
  function Valid(files: Files): map<NoteId, Path> {
    map p | p in files && !Collides(files, p) :: files[p].id := p
  }

  predicate OnlyFile(files: Files, id: NoteId, p: Path) {
    p in files && files[p].id == id && forall q :: q in files && files[q].id == id ==> q == p
  }

  /** What a job reads for its note: its only file, or an error. */
  function Find(files: Files, id: NoteId): (found: Option<Path>)
    ensures found.Some? ==> OnlyFile(files, id, found.value)
    ensures (exists p :: OnlyFile(files, id, p)) ==> found.Some?
  {
    if exists p :: p in files && OnlyFile(files, id, p) then
      var p :| p in files && OnlyFile(files, id, p);
      Some(p)
    else None
  }

  lemma ValidIsFound(files: Files, id: NoteId)
    requires id in Valid(files)
    ensures OnlyFile(files, id, Valid(files)[id]) && Find(files, id) == Some(Valid(files)[id])
    ensures id !in CollidedIds(files)
  {
    var p := Valid(files)[id];
    assert p in files && !Collides(files, p) && files[p].id == id;
  }

  lemma FoundIsValid(files: Files, id: NoteId)
    requires Find(files, id).Some? && id !in CollidedIds(files)
    ensures id in Valid(files)
  {
    var p := Find(files, id).value;
    assert !Collides(files, p);
  }

  // ---------------------------------------------------------------------------------------------
  // The index tables

  predicate Distinct(relations: seq<Relation>) {
    forall i, j :: 0 <= i < j < |relations| ==> relations[i] != relations[j]
  }

  function RelationRows(note: Note): set<(NoteId, Relation)> {
    set r | r in note.relations :: (note.id, r)
  }

  predicate PathTaken(rows: map<NoteId, Row>, path: Path, id: NoteId) {
    exists m :: m in rows && m != id && rows[m].path == path
  }

  function NextRevision(previous: Option<Row>, note: Note): nat {
    if previous.None? then 1
    else if previous.value.note == note then previous.value.revision
    else previous.value.revision + 1
  }

  function RowOf(rows: map<NoteId, Row>, id: NoteId): Option<Row> {
    if id in rows then Some(rows[id]) else None
  }

  /**
   * The upsert transaction; it rolls back when another note's row holds the path (UNIQUE) or the note repeats a
   * relation (PRIMARY KEY). `prior` is consulted when the note has no row.
   */
  function Upsert(table: Table, path: Path, note: Note, prior: Option<Row>): Option<Table> {
    if PathTaken(table.rows, path, note.id) || !Distinct(note.relations) then None
    else
      var previous := if note.id in table.rows then Some(table.rows[note.id]) else prior;
      Some(Table(table.rows[note.id := Row(path, note, NextRevision(previous, note))],
                 (set e | e in table.relations && e.0 != note.id) + RelationRows(note)))
  }

  function RemoveIds(table: Table, ids: set<NoteId>): Table {
    Table(map id | id in table.rows && id !in ids :: table.rows[id], set e | e in table.relations && e.0 !in ids)
  }

  ghost predicate PathsUnique(rows: map<NoteId, Row>) {
    forall m, n :: m in rows && n in rows && rows[m].path == rows[n].path ==> m == n
  }

  ghost predicate RowsOk(rows: map<NoteId, Row>) {
    forall id :: id in rows ==> rows[id].note.id == id && Distinct(rows[id].note.relations)
  }

  /** The relations table holds exactly the relations of the indexed notes. */
  ghost predicate RelationsMatch(table: Table) {
    && (forall e :: e in table.relations ==> e.0 in table.rows && e.1 in table.rows[e.0].note.relations)
    && (forall id, r :: id in table.rows && r in table.rows[id].note.relations ==> (id, r) in table.relations)
  }

  ghost predicate TableOk(table: Table) {
    PathsUnique(table.rows) && RowsOk(table.rows) && RelationsMatch(table)
  }

  lemma UpsertKeeps(table: Table, path: Path, note: Note, prior: Option<Row>)
    requires TableOk(table) && Upsert(table, path, note, prior).Some?
    ensures TableOk(Upsert(table, path, note, prior).value)
  {
  }

  lemma RemoveKeeps(table: Table, ids: set<NoteId>)
    requires TableOk(table)
    ensures TableOk(RemoveIds(table, ids))
  {
  }

  lemma RowsDetermineTable(a: Table, b: Table)
    requires RelationsMatch(a) && RelationsMatch(b) && a.rows == b.rows
    ensures a == b
  {
    assert a.relations == b.relations by {
      forall e ensures e in a.relations <==> e in b.relations {
        assert e == (e.0, e.1);
      }
    }
  }

  // ---------------------------------------------------------------------------------------------
  // Jobs

  function JobFor(files: Files, id: NoteId): Op
    requires id in Valid(files)
  {
    var path := Valid(files)[id];
    assert path in files;
    Op(id, files[path], path)
  }

  /** The manifest already shows the file's path and hash. */
  predicate Indexed(files: Files, rows: map<NoteId, Row>, id: NoteId)
    requires id in Valid(files)
  {
    var op := JobFor(files, id);
    id in rows && rows[id].path == op.path && rows[id].note == op.note
  }

  /** The state that planning gives the job of one valid note, if it writes one. */
  function Planned(files: Files, rows: map<NoteId, Row>, jobs: Jobs, id: NoteId): Option<JobState>
    requires id in Valid(files)
  {
    var op := JobFor(files, id);
    if Indexed(files, rows, id) then (if op in jobs then None else Some(Done))
    else if op in jobs && (jobs[op] == Pending || jobs[op] == Running) then None
    else Some(Pending)
  }

  function PlanJob(files: Files, rows: map<NoteId, Row>, jobs: Jobs, id: NoteId): Jobs
    requires id in Valid(files)
  {
    match Planned(files, rows, jobs, id) case Some(state) => jobs[JobFor(files, id) := state] case None => jobs
  }

  function PlanJobs(files: Files, rows: map<NoteId, Row>, jobs: Jobs, ids: seq<NoteId>): Jobs
    requires forall i :: 0 <= i < |ids| ==> ids[i] in Valid(files)
  {
    if ids == [] then jobs
    else PlanJob(files, rows, PlanJobs(files, rows, jobs, ids[..|ids| - 1]), ids[|ids| - 1])
  }

  /** One job of `process_jobs`: what is read is the note's file now, not the version the job was made for. */
  function ProcessJob(files: Files, s: State, op: Op): State {
    if op !in s.jobs || s.jobs[op] != Pending then s
    else
      match Find(files, op.id)
      case None => s.(jobs := s.jobs[op := Quarantined])
      case Some(path) =>
        match Upsert(s.table, path, files[path], None)
        case None => s.(jobs := s.jobs[op := Quarantined])
        case Some(table) => State(table, s.jobs[op := Done])
  }

  /** The pending jobs in table order; `order` lists every job by creation time and id. */
  function ProcessJobs(files: Files, s: State, order: seq<Op>): State {
    if order == [] then s else ProcessJob(files, ProcessJobs(files, s, order[..|order| - 1]), order[|order| - 1])
  }

  ghost predicate NoDuplicates<T>(s: seq<T>) {
    forall i, j :: 0 <= i < j < |s| ==> s[i] != s[j]
  }

  /** `order` lists every job once. */
  ghost predicate Orders(order: seq<Op>, jobs: Jobs) {
    NoDuplicates(order) && forall op :: op in jobs ==> op in order
  }

  ghost predicate NoneIn(jobs: Jobs, state: JobState) {
    forall op :: op in jobs ==> jobs[op] != state
  }

  // ---------------------------------------------------------------------------------------------
  // Synchronising and rebuilding

  function Recovered(files: Files, s: State, ids: seq<NoteId>): State
    requires forall i :: 0 <= i < |ids| ==> ids[i] in Valid(files)
  {
    State(RemoveCollided(files, s.table), PlanJobs(files, s.table.rows, s.jobs, ids))
  }

  /** One transaction on the index: the rows of colliding notes go. */
  function RemoveCollided(files: Files, table: Table): Table {
    RemoveIds(table, CollidedIds(files))
  }

  /** One transaction on the job table. */
  function Plan(files: Files, s: State, ids: seq<NoteId>): State
    requires forall i :: 0 <= i < |ids| ==> ids[i] in Valid(files)
  {
    s.(jobs := PlanJobs(files, s.table.rows, s.jobs, ids))
  }

  /** One transaction on the index: the rows of notes that are no longer valid files go. */
  function DropRemoved(files: Files, table: Table): Table {
    RemoveIds(table, table.rows.Keys - Valid(files).Keys)
  }

  /** The two removals that end a synchronisation. */
  function Prune(files: Files, table: Table): Table {
    DropRemoved(files, RemoveCollided(files, table))
  }

  function Sync(files: Files, s: State, ids: seq<NoteId>, order: seq<Op>): State
    requires forall i :: 0 <= i < |ids| ==> ids[i] in Valid(files)
  {
    var processed := ProcessJobs(files, Recovered(files, s, ids), order);
    processed.(table := Prune(files, processed.table))
  }

  function RebuildFrom(files: Files, before: map<NoteId, Row>, ids: seq<NoteId>): Option<Table>
    requires forall i :: 0 <= i < |ids| ==> ids[i] in Valid(files)
  {
    if ids == [] then Some(NOTHING_INDEXED)
    else
      match RebuildFrom(files, before, ids[..|ids| - 1])
      case None => None
      case Some(table) =>
        var op := JobFor(files, ids[|ids| - 1]);
        Upsert(table, op.path, op.note, RowOf(before, op.id))
  }

  /** `ids` lists every valid note once. */
  ghost predicate Lists(ids: seq<NoteId>, files: Files) {
    NoDuplicates(ids) && forall id :: id in ids <==> id in Valid(files)
  }

  // ---------------------------------------------------------------------------------------------
  // What a rebuild makes

  /** The row a valid note should have: its file, its hash, and a revision that rose by one iff the hash changed. */
  function Settled(files: Files, rows: map<NoteId, Row>, id: NoteId): Row
    requires id in Valid(files)
  {
    var op := JobFor(files, id);
    Row(op.path, op.note, NextRevision(RowOf(rows, id), op.note))
  }

  function SettledRows(files: Files, rows: map<NoteId, Row>): map<NoteId, Row> {
    map id | id in Valid(files) :: Settled(files, rows, id)
  }

  ghost predicate AllDistinct(files: Files) {
    forall id :: id in Valid(files) ==> Distinct(JobFor(files, id).note.relations)
  }
}
