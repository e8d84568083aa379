/** The debounce queue as an object: its two critical sections, and a flush made of them. */
module MemoryWatcher {
  import opened Watcher

  class DebounceQueue {
    var pending: Pending
    var nextGeneration: nat
    ghost var keyOf: map<nat, Key>

    ghost function Contents(): Queue
      reads this
    {
      Queue(pending, nextGeneration, keyOf)
    }

    constructor ()
      ensures Contents() == EMPTY
    {
      pending, nextGeneration, keyOf := map[], 0, map[];
    }

    /** `notify`; event types other than created, modified, moved and deleted are ignored. */
    method NotifyPaths(candidates: seq<Key>, relevant: bool, due: nat)
      modifies this
      ensures Contents() == if relevant then Notify(old(Contents()), candidates, due) else old(Contents())
      ensures if relevant then Noted(old(Contents()), Contents(), candidates, due) else Contents() == old(Contents())
    {
      if !relevant {
        return;
      }
      ghost var before := Contents();
      NotifyNotes(before, candidates, due);
      hide Noted;
      for i := 0 to |candidates|
        invariant Contents() == Notify(before, candidates[..i], due)
      {
        assert candidates[..i + 1][..i] == candidates[..i];
        nextGeneration := nextGeneration + 1;
        pending := pending[candidates[i] := Entry(due, nextGeneration)];
        keyOf := keyOf[nextGeneration := candidates[i]];
      }
      assert candidates[..|candidates|] == candidates;
    }

    /** The second critical section of a flush: removes what it took, unless notified again since. */
    method RemoveTaken(ready: Pending)
      modifies this`pending
      ensures Contents() == old(Contents()).(pending := Discard(old(pending), ready))
    {
      var todo := ready.Keys;
      while todo != {}
        invariant todo <= ready.Keys
        invariant pending == Discard(old(pending), map key | key in ready && key !in todo :: ready[key])
      {
        var key :| key in todo;
        if key in pending && pending[key] == ready[key] {
          pending := pending - {key};
        }
        todo := todo - {key};
      }
      assert ready == map key | key in ready && key !in todo :: ready[key];
    }

    /** `flush` when nothing is notified during the sync; `succeeds` is whether the sync returns. */
    method Flush(force: bool, now: nat, succeeds: bool) returns (ran: bool)
      modifies this`pending
      ensures ran <==> Ready(old(pending), force, now) != map[]
      ensures !succeeds ==> Contents() == old(Contents())
      ensures succeeds ==> forall key :: key in pending <==> key in old(pending) && !force && old(pending)[key].due > now
      ensures forall key :: key in pending ==> key in old(pending) && pending[key] == old(pending)[key]
    {
      var ready := Ready(pending, force, now);
      ran := ready != map[];
      if ran && succeeds {
        RemoveTaken(ready);
      }
      if !ran {
        assert forall key :: key in ready <==> key in pending && (force || pending[key].due <= now);
      }
    }
  }
}
