/** The retention manager: file system and tombstone table changed in place, one operation at a time. */
module RetentionManager {
  import opened Base
  import opened Retention

  datatype Outcome = Done | Idempotent | Blocked

  class Manager {
    var files: Files
    var rows: Tombstones

    ghost predicate Valid()
      reads this
    {
      RowsOk(files, rows)
    }

    function Contents(): Store
      reads this
    {
      Store(files, rows, Idle)
    }

    constructor (files: Files)
      requires forall path :: path in files ==> path.Live?
      ensures Valid() && Initial(Contents()) && this.files == files
    {
      this.files, rows := files, map[];
    }

    /** `_recover_transitions`: one transaction over the unfinished rows, rolled back when one needs review. */
    method RecoverTransitions() returns (ok: bool)
      modifies this`rows
      ensures ok <==> Recover(files, old(rows)).Some?
      ensures rows == if ok then Recover(files, old(rows)).value else old(rows)
    {
      var todo := set o | o in rows && (rows[o].state == Preparing || rows[o].state == Restoring);
      var after := rows;
      while todo != {}
        invariant forall o :: o in todo ==> o in rows
        invariant forall o :: o in rows && Judge(files, o, rows[o]) == ManualReview ==> o in todo
        invariant forall o :: o in after <==> o in rows && (o in todo || Judge(files, o, rows[o]) != Forget)
        invariant forall o :: o in after ==>
                    after[o] == if o in todo then rows[o] else Apply(Judge(files, o, rows[o]), rows[o])
      {
        var o :| o in todo;
        var row := rows[o];
        var originalOk := row.original in files && files[row.original] == row.digest;
        var trashOk := Trash(o) in files && files[Trash(o)] == row.digest;
        if row.state == Preparing {
          if originalOk && Trash(o) !in files {
            after := after - {o};
          } else if trashOk && row.original !in files {
            after := after[o := row.(state := Trashed)];
          } else {
            return false;
          }
        } else if trashOk && row.original !in files {
          after := after[o := row.(state := Trashed)];
        } else if originalOk && Trash(o) !in files {
          after := after[o := row.(state := Restored)];
        } else {
          return false;
        }
        todo := todo - {o};
      }
      assert after == Recover(files, rows).value;
      rows := after;
      return true;
    }

    /**
     * `trash_note` and `trash_artifact` from lease to completion mark; `permitted` stands for the checks of authority,
     * visibility, references and acknowledged deliveries.
     */
    method TrashObject(o: Object, original: Path, permitted: bool) returns (outcome: Outcome)
      requires Valid() && original.Live?
      modifies this
      ensures Valid()
      ensures outcome == Done ==>
                original in old(files) && files == Move(old(files), original, Trash(o))
                && o in rows && rows[o] == Tombstone(Trashed, original, old(files)[original])
      ensures outcome != Done ==> files == old(files) && rows == Recover(old(files), old(rows)).value
      ensures outcome == Idempotent <==> Trash(o) in old(files)
      ensures outcome == Idempotent ==> o in rows && rows[o].state == Trashed
      ensures outcome == Done <==> permitted && original in old(files) && Trash(o) !in old(files)
    {
      RecoverySettles(files, rows);
      SettledOk(files, rows, Recover(files, rows).value);
      ghost var start := Contents();
      var ok := RecoverTransitions();
      if o in rows && rows[o].state == Trashed {
        return Idempotent;
      }
      if !permitted || original !in files || Trash(o) in files {
        return Blocked;
      }
      TrashIntentOk(start, o, original);
      rows := rows[o := Tombstone(Preparing, original, files[original])];
      assert Store(files, rows, Prepared(o)) == TrashIntent(start, o, original);
      MovedOk(files, rows, o, true);
      files := Move(files, original, Trash(o));
      MarkedOk(files, rows, o, Trashed);
      rows := rows[o := rows[o].(state := Trashed)];
      return Done;
    }

    /** `restore` of a trashed object, byte for byte to where it came from. */
    method Restore(o: Object) returns (outcome: Outcome)
      requires Valid()
      modifies this
      ensures Valid()
      ensures outcome == Done ==>
                Trash(o) in old(files) && o in old(rows) && files == Move(old(files), Trash(o), old(rows)[o].original)
                && files[old(rows)[o].original] == old(rows)[o].digest
                && o in rows && rows[o].state == Restored
      ensures outcome != Done ==> files == old(files) && rows == Recover(old(files), old(rows)).value
      ensures outcome == Done <==> Trash(o) in old(files)
      ensures outcome == Idempotent <==> o in rows && Trash(o) !in old(files)
    {
      RecoverySettles(files, rows);
      SettledOk(files, rows, Recover(files, rows).value);
      ghost var start := Contents();
      var ok := RecoverTransitions();
      if o in rows && rows[o].state == Restored {
        return Idempotent;
      }
      if o !in rows || rows[o].state != Trashed {
        return Blocked;
      }
      assert RowOk(files, o, rows[o]);
      if Trash(o) !in files || files[Trash(o)] != rows[o].digest || rows[o].original in files {
        return Blocked;
      }
      RestoreIntentOk(start, o);
      rows := rows[o := rows[o].(state := Restoring)];
      assert Store(files, rows, Returning(o)) == RestoreIntent(start, o);
      MovedOk(files, rows, o, false);
      files := Move(files, Trash(o), rows[o].original);
      MarkedOk(files, rows, o, Restored);
      rows := rows[o := rows[o].(state := Restored)];
      return Done;
    }
  }
}
