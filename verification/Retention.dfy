/**
 * Recoverable trash: an intent row, an atomic move and a completion mark, with recovery at the start of the next
 * operation. A crash may fall between any two of these steps.
 */
module Retention {
  import opened Base

  type Bytes = seq<nat>

  datatype Kind = MemoryNote | Artifact

  datatype Object = Object(kind: Kind, id: nat)

  // Where an object lives is up to its owner; its trash path is a function of its kind and id.
  datatype Path = Live(name: nat) | Trash(item: Object)

  datatype State = Preparing | Trashed | Restoring | Restored

  // The recorded SHA-256 is the bytes it was taken of.
  datatype Tombstone = Tombstone(state: State, original: Path, digest: Bytes)

  type Files = map<Path, Bytes>

  type Tombstones = map<Object, Tombstone>

  function Move(files: Files, source: Path, target: Path): Files
    requires source in files
  {
    files[target := files[source]] - {source}
  }

  // ---------------------------------------------------------------------------------------------
  // Recovery

  datatype Verdict = Settled | Forget | Mark(state: State) | ManualReview

  /** What `_recover_transitions` decides for one row from the two files. */
  function Judge(files: Files, o: Object, row: Tombstone): Verdict {
    var originalOk := row.original in files && files[row.original] == row.digest;
    var trashOk := Trash(o) in files && files[Trash(o)] == row.digest;
    match row.state
    case Preparing =>
      if originalOk && Trash(o) !in files then Forget
      else if trashOk && row.original !in files then Mark(Trashed)
      else ManualReview
    case Restoring =>
      if trashOk && row.original !in files then Mark(Trashed)
      else if originalOk && Trash(o) !in files then Mark(Restored)
      else ManualReview
    case _ => Settled
  }

  function Apply(verdict: Verdict, row: Tombstone): Tombstone {
    match verdict case Mark(state) => row.(state := state) case _ => row
  }

  /** The rows after recovery, or nothing when some row needs manual review and the transaction rolls back. */
  function Recover(files: Files, rows: Tombstones): Option<Tombstones> {
    if exists o :: o in rows && Judge(files, o, rows[o]) == ManualReview then None
    else Some(map o | o in rows && Judge(files, o, rows[o]) != Forget ::
                Apply(Judge(files, o, rows[o]), rows[o]))
  }

  // ---------------------------------------------------------------------------------------------
  // The state machine

  // The operation holding the state lease, by how far it has come.
  datatype Phase = Idle | Prepared(item: Object) | InTrash(item: Object) | Returning(item: Object) | Back(item: Object)

  datatype Store = Store(files: Files, rows: Tombstones, phase: Phase)

  datatype Step =
    | PrepareTrash(item: Object, original: Path)
    | MoveToTrash
    | MarkTrashed
    | PrepareRestore(item: Object)
    | MoveBack
    | MarkRestored
    | Crash
    | Edit(path: Path, content: Option<Bytes>)

  function TrashIntent(s: Store, o: Object, original: Path): Store {
    match Recover(s.files, s.rows)
    case None => s
    case Some(rows) =>
      if (o in rows && rows[o].state == Trashed) || original !in s.files || !original.Live? || Trash(o) in s.files then
        s.(rows := rows)
      else
        Store(s.files, rows[o := Tombstone(Preparing, original, s.files[original])], Prepared(o))
  }

  function RestoreIntent(s: Store, o: Object): Store {
    match Recover(s.files, s.rows)
    case None => s
    case Some(rows) =>
      if o !in rows || rows[o].state != Trashed || Trash(o) !in s.files || s.files[Trash(o)] != rows[o].digest
         || rows[o].original in s.files then
        s.(rows := rows)
      else
        Store(s.files, rows[o := rows[o].(state := Restoring)], Returning(o))
  }

  predicate Active(row: Tombstone) {
    row.state != Restored
  }

  /** No path that an unfinished or trashed object needs: such paths are not edited from outside. */
  ghost predicate Free(rows: Tombstones, path: Path) {
    path.Live? && forall o :: o in rows && Active(rows[o]) ==> rows[o].original != path
  }

  ghost function Next(s: Store, step: Step): Store {
    match step
    case PrepareTrash(o, original) => if s.phase.Idle? then TrashIntent(s, o, original) else s
    case MoveToTrash =>
      if s.phase.Prepared? && s.phase.item in s.rows && s.rows[s.phase.item].original in s.files then
        s.(files := Move(s.files, s.rows[s.phase.item].original, Trash(s.phase.item)), phase := InTrash(s.phase.item))
      else s
    case MarkTrashed =>
      if s.phase.InTrash? && s.phase.item in s.rows then
        s.(rows := s.rows[s.phase.item := s.rows[s.phase.item].(state := Trashed)], phase := Idle)
      else s
    case PrepareRestore(o) => if s.phase.Idle? then RestoreIntent(s, o) else s
    case MoveBack =>
      if s.phase.Returning? && s.phase.item in s.rows && Trash(s.phase.item) in s.files then
        s.(files := Move(s.files, Trash(s.phase.item), s.rows[s.phase.item].original), phase := Back(s.phase.item))
      else s
    case MarkRestored =>
      if s.phase.Back? && s.phase.item in s.rows then
        s.(rows := s.rows[s.phase.item := s.rows[s.phase.item].(state := Restored)], phase := Idle)
      else s
    case Crash => s.(phase := Idle)
    case Edit(path, content) =>
      if !Free(s.rows, path) then s
      else s.(files := if content.Some? then s.files[path := content.value] else s.files - {path})
  }

  ghost function Execute(s: Store, steps: seq<Step>): Store {
    if steps == [] then s else Next(Execute(s, steps[..|steps| - 1]), steps[|steps| - 1])
  }

  /** Any live files, nothing trashed yet. */
  ghost predicate Initial(s: Store) {
    s.rows == map[] && s.phase == Idle && forall path :: path in s.files ==> path.Live?
  }

  // ---------------------------------------------------------------------------------------------
  // The invariant

  ghost predicate AtOriginal(files: Files, o: Object, row: Tombstone) {
    row.original in files && files[row.original] == row.digest && Trash(o) !in files
  }

  ghost predicate AtTrash(files: Files, o: Object, row: Tombstone) {
    Trash(o) in files && files[Trash(o)] == row.digest && row.original !in files
  }

  ghost predicate RowOk(files: Files, o: Object, row: Tombstone) {
    && row.original.Live?
    && match row.state
       case Trashed => AtTrash(files, o, row)
       case Restored => Trash(o) !in files
       case _ => AtOriginal(files, o, row) || AtTrash(files, o, row)
  }

  ghost predicate RowsOk(files: Files, rows: Tombstones) {
    && (forall o :: o in rows ==> RowOk(files, o, rows[o]))
    && (forall o :: Trash(o) in files ==> o in rows)
    && (forall o, p :: o in rows && p in rows && o != p && Active(rows[o]) && Active(rows[p]) ==>
          rows[o].original != rows[p].original)
  }

  ghost predicate PhaseOk(s: Store) {
    match s.phase
    case Idle => true
    case Prepared(o) => o in s.rows && s.rows[o].state == Preparing && AtOriginal(s.files, o, s.rows[o])
    case InTrash(o) => o in s.rows && s.rows[o].state == Preparing && AtTrash(s.files, o, s.rows[o])
    case Returning(o) => o in s.rows && s.rows[o].state == Restoring && AtTrash(s.files, o, s.rows[o])
    case Back(o) => o in s.rows && s.rows[o].state == Restoring && AtOriginal(s.files, o, s.rows[o])
  }

  ghost predicate StoreOk(s: Store) {
    RowsOk(s.files, s.rows) && PhaseOk(s)
  }

  // ---------------------------------------------------------------------------------------------
  // Recovery is total, exact and idempotent

  /** Recovery settles a row by where the bytes are, without ever asking for manual review. */
  lemma RowSettles(files: Files, o: Object, row: Tombstone)
    requires RowOk(files, o, row)
    ensures var verdict := Judge(files, o, row);
            && verdict != ManualReview
            && (verdict == Forget ==> Trash(o) !in files && row.state == Preparing)
            && (verdict != Forget ==>
                  RowOk(files, o, Apply(verdict, row))
                  && Apply(verdict, row).state == if Trash(o) in files then Trashed else Restored)
  {
  }

  /** The rows after recovery, by object. */
  ghost predicate SettledAs(files: Files, rows: Tombstones, after: Tombstones) {
    && (forall o :: o in after ==>
          o in rows && after[o] == rows[o].(state := if Trash(o) in files then Trashed else Restored))
    && (forall o :: o in rows && o !in after ==> rows[o].state == Preparing && Trash(o) !in files)
  }

  /** Recovery always succeeds: every row ends trashed or restored according to where the bytes are, or is forgotten. */
  lemma RecoverySettles(files: Files, rows: Tombstones)
    requires RowsOk(files, rows)
    ensures Recover(files, rows).Some? && SettledAs(files, rows, Recover(files, rows).value)
  {
    forall o | o in rows ensures Judge(files, o, rows[o]) != ManualReview {
      RowSettles(files, o, rows[o]);
    }
    var after := Recover(files, rows).value;
    forall o | o in after ensures after[o] == rows[o].(state := if Trash(o) in files then Trashed else Restored) {
      RowSettles(files, o, rows[o]);
    }
    forall o | o in rows && o !in after ensures rows[o].state == Preparing && Trash(o) !in files {
      RowSettles(files, o, rows[o]);
    }
  }

  lemma SettledOk(files: Files, rows: Tombstones, after: Tombstones)
    requires RowsOk(files, rows) && SettledAs(files, rows, after)
    ensures RowsOk(files, after)
    ensures forall o :: o in after && after[o].state == Trashed <==> Trash(o) in files
  {
    forall o | o in after ensures RowOk(files, o, after[o]) {
      assert RowOk(files, o, rows[o]);
    }
  }

  /** Recovering twice is recovering once. */
  lemma RecoveryIsIdempotent(files: Files, rows: Tombstones)
    requires RowsOk(files, rows)
    ensures Recover(files, rows).Some?
    ensures Recover(files, Recover(files, rows).value) == Recover(files, rows)
  {
    RecoverySettles(files, rows);
    var after := Recover(files, rows).value;
    SettledOk(files, rows, after);
    RecoverySettles(files, after);
    var again := Recover(files, after).value;
    assert forall o :: o in after ==> o in again && again[o] == after[o];
    assert again == after;
  }

  // ---------------------------------------------------------------------------------------------
  // Every step keeps the invariant

  lemma NewRowOk(files: Files, rows: Tombstones, o: Object, row: Tombstone)
    requires RowsOk(files, rows) && RowOk(files, o, row)
    requires forall p :: p in rows && p != o && Active(rows[p]) ==> rows[p].original != row.original
    ensures RowsOk(files, rows[o := row])
  {
    var after := rows[o := row];
    forall p | p in after ensures RowOk(files, p, after[p]) {
      if p != o { assert RowOk(files, p, rows[p]); }
    }
  }

  lemma TrashIntentOk(s: Store, o: Object, original: Path)
    requires StoreOk(s) && s.phase.Idle?
    ensures StoreOk(TrashIntent(s, o, original))
  {
    RecoverySettles(s.files, s.rows);
    var rows := Recover(s.files, s.rows).value;
    SettledOk(s.files, s.rows, rows);
    if original in s.files && original.Live? && Trash(o) !in s.files {
      forall p | p in rows && p != o && Active(rows[p]) ensures rows[p].original != original {
        assert RowOk(s.files, p, rows[p]);
      }
      NewRowOk(s.files, rows, o, Tombstone(Preparing, original, s.files[original]));
    }
  }

  lemma RestoreIntentOk(s: Store, o: Object)
    requires StoreOk(s) && s.phase.Idle?
    ensures StoreOk(RestoreIntent(s, o))
  {
    RecoverySettles(s.files, s.rows);
    var rows := Recover(s.files, s.rows).value;
    SettledOk(s.files, s.rows, rows);
    if o in rows && rows[o].state == Trashed {
      assert RowOk(s.files, o, rows[o]);
      NewRowOk(s.files, rows, o, rows[o].(state := Restoring));
    }
  }

  lemma MovedOk(files: Files, rows: Tombstones, o: Object, there: bool)
    requires RowsOk(files, rows) && o in rows && (rows[o].state == Preparing || rows[o].state == Restoring)
    requires if there then AtOriginal(files, o, rows[o]) else AtTrash(files, o, rows[o])
    ensures var original := rows[o].original;
            var moved := if there then Move(files, original, Trash(o)) else Move(files, Trash(o), original);
            RowsOk(moved, rows) && (if there then AtTrash(moved, o, rows[o]) else AtOriginal(moved, o, rows[o]))
  {
    var original := rows[o].original;
    assert RowOk(files, o, rows[o]);
    var moved := if there then Move(files, original, Trash(o)) else Move(files, Trash(o), original);
    forall p | p in rows ensures RowOk(moved, p, rows[p]) {
      assert RowOk(files, p, rows[p]);
    }
  }

  lemma MarkedOk(files: Files, rows: Tombstones, o: Object, state: State)
    requires RowsOk(files, rows) && o in rows
    requires state == Trashed || state == Restored
    requires if state == Trashed then Active(rows[o]) && AtTrash(files, o, rows[o]) else AtOriginal(files, o, rows[o])
    ensures RowsOk(files, rows[o := rows[o].(state := state)])
  {
    assert RowOk(files, o, rows[o]);
    forall p | p in rows && p != o ensures RowOk(files, p, rows[p]) {
      assert RowOk(files, p, rows[p]);
    }
  }

  lemma EditOk(s: Store, path: Path, content: Option<Bytes>)
    requires StoreOk(s)
    ensures StoreOk(Next(s, Edit(path, content)))
  {
    if Free(s.rows, path) {
      var files := if content.Some? then s.files[path := content.value] else s.files - {path};
      forall o | o in s.rows ensures RowOk(files, o, s.rows[o]) {
        assert RowOk(s.files, o, s.rows[o]);
      }
    }
  }

  lemma StepOk(s: Store, step: Step)
    requires StoreOk(s)
    ensures StoreOk(Next(s, step))
  {
    match step
    case PrepareTrash(o, original) => if s.phase.Idle? { TrashIntentOk(s, o, original); }
    case MoveToTrash => if s.phase.Prepared? { MovedOk(s.files, s.rows, s.phase.item, true); }
    case MarkTrashed => if s.phase.InTrash? { MarkedOk(s.files, s.rows, s.phase.item, Trashed); }
    case PrepareRestore(o) => if s.phase.Idle? { RestoreIntentOk(s, o); }
    case MoveBack => if s.phase.Returning? { MovedOk(s.files, s.rows, s.phase.item, false); }
    case MarkRestored => if s.phase.Back? { MarkedOk(s.files, s.rows, s.phase.item, Restored); }
    case Crash =>
    case Edit(path, content) => EditOk(s, path, content);
  }

  lemma {:induction false} RunsOk(s: Store, steps: seq<Step>)
    requires Initial(s)
    ensures StoreOk(Execute(s, steps))
  {
    if steps != [] {
      RunsOk(s, steps[..|steps| - 1]);
      StepOk(Execute(s, steps[..|steps| - 1]), steps[|steps| - 1]);
    }
  }

  // ---------------------------------------------------------------------------------------------
  // What retention promises

  /**
   * In every reachable state, every crash point included, an object in retention is in exactly one of its two places,
   * byte for byte as recorded.
   */
  lemma ExactlyOnePlace(start: Store, steps: seq<Step>, o: Object)
    requires Initial(start)
    requires var s := Execute(start, steps); o in s.rows && Active(s.rows[o])
    ensures var s := Execute(start, steps);
            AtOriginal(s.files, o, s.rows[o]) != AtTrash(s.files, o, s.rows[o])
  {
    RunsOk(start, steps);
    var s := Execute(start, steps);
    assert RowOk(s.files, o, s.rows[o]);
  }

  /** A step of the service leaves all files alone or renames one file to a path that was vacant. */
  lemma NothingLostOrDoubled(s: Store, step: Step)
    requires StoreOk(s) && !step.Edit?
    ensures var files := Next(s, step).files;
            files == s.files ||
            exists source, target :: source in s.files && target !in s.files && files == Move(s.files, source, target)
  {
    match step
    case MoveToTrash => if s.phase.Prepared? { assert Trash(s.phase.item) !in s.files; }
    case MoveBack => if s.phase.Returning? { assert s.rows[s.phase.item].original !in s.files; }
    case _ =>
  }

  /**
   * A trash that crashes is undone or completed by the next recovery: before the move the row is gone and the files are
   * as they were, after the move the object is trashed.
   */
  lemma CrashedTrashRecovers(s: Store, o: Object, original: Path)
    requires StoreOk(s) && s.phase.Idle? && Next(s, PrepareTrash(o, original)).phase == Prepared(o)
    ensures var prepared := Next(s, PrepareTrash(o, original));
            && prepared.files == s.files
            && Recover(prepared.files, prepared.rows).Some?
            && o !in Recover(prepared.files, prepared.rows).value
    ensures var moved := Next(Next(s, PrepareTrash(o, original)), MoveToTrash);
            && moved.files == Move(s.files, original, Trash(o))
            && Recover(moved.files, moved.rows).Some?
            && o in Recover(moved.files, moved.rows).value
            && Recover(moved.files, moved.rows).value[o] == Tombstone(Trashed, original, s.files[original])
  {
    var prepared := Next(s, PrepareTrash(o, original));
    StepOk(s, PrepareTrash(o, original));
    RecoverySettles(prepared.files, prepared.rows);
    var moved := Next(prepared, MoveToTrash);
    StepOk(prepared, MoveToTrash);
    RecoverySettles(moved.files, moved.rows);
    RowSettles(moved.files, o, moved.rows[o]);
  }

  /** A restore that crashes is undone or completed by the next recovery; the bytes come back as they went. */
  lemma CrashedRestoreRecovers(s: Store, o: Object)
    requires StoreOk(s) && s.phase.Idle? && Next(s, PrepareRestore(o)).phase == Returning(o)
    ensures var returning := Next(s, PrepareRestore(o));
            && returning.files == s.files
            && Recover(returning.files, returning.rows).Some?
            && o in Recover(returning.files, returning.rows).value
            && Recover(returning.files, returning.rows).value[o].state == Trashed
    ensures var back := Next(Next(s, PrepareRestore(o)), MoveBack);
            && Recover(back.files, back.rows).Some?
            && o in Recover(back.files, back.rows).value
            && Recover(back.files, back.rows).value[o].state == Restored
            && AtOriginal(back.files, o, back.rows[o])
  {
    var returning := Next(s, PrepareRestore(o));
    StepOk(s, PrepareRestore(o));
    RecoverySettles(returning.files, returning.rows);
    RowSettles(returning.files, o, returning.rows[o]);
    var back := Next(returning, MoveBack);
    StepOk(returning, MoveBack);
    RecoverySettles(back.files, back.rows);
    RowSettles(back.files, o, back.rows[o]);
  }
}
