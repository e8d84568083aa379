/**
 * The server's convergence loop around the watcher queue: event handlers notify the queue and then set `changed`; one
 * thread waits for `changed`, clears it, waits a little, and flushes everything.
 */
module WatcherLoop {
  import opened Base
  import opened Watcher

  datatype At =
    | Waiting                              // in `changed.wait`
    | Woken                                // it returned true
    | Cleared                              // after `changed.clear()`, in `stopped.wait`
    | Flushing(ready: Pending)             // the snapshot is taken, the sync not yet started
    | InSync(ready: Pending, started: nat)
    | Done(ready: Pending)                 // the sync completed, entries not yet removed
    | Exited

  // `handlers` are event handlers between their notification and their `changed.set()`, with the generations they gave.
  datatype Loop = Loop(queue: Queue, changed: bool, stopped: bool, at: At, handlers: map<nat, set<nat>>, covered: nat)

  datatype Step =
    | HandlerNotify(handler: nat, keys: seq<Key>, due: nat)
    | HandlerSet(handler: nat)
    | Wake
    | Clear
    | Snapshot
    | StartSync
    | SyncCompletes
    | SyncFails
    | Discarded
    | Stop

  const START := Loop(EMPTY, false, false, Waiting, map[], 0)

  function Next(s: Loop, step: Step): Loop {
    match step
    case HandlerNotify(h, keys, due) =>
      if h in s.handlers then s
      else
        var q := Notify(s.queue, keys, due);
        s.(queue := q, handlers := s.handlers[h := set g | g in q.keyOf && g > s.queue.last])
    case HandlerSet(h) =>
      if h in s.handlers then s.(changed := true, handlers := s.handlers - {h}) else s
    case Wake =>
      if s.at != Waiting then s
      else if s.stopped then s.(at := Exited)
      else if s.changed then s.(at := Woken)
      else s
    case Clear => if s.at == Woken then s.(changed := false, at := Cleared) else s
    case Snapshot =>
      if s.at != Cleared then s
      else if s.stopped then s.(at := Exited)
      else if s.queue.pending == map[] then s.(at := Waiting)
      else s.(at := Flushing(Ready(s.queue.pending, true, 0)))
    case StartSync => if s.at.Flushing? then s.(at := InSync(s.at.ready, s.queue.last)) else s
    case SyncCompletes =>
      if s.at.InSync? then s.(at := Done(s.at.ready), covered := Max(s.covered, s.at.started)) else s
    case SyncFails => if s.at.InSync? then s.(at := Waiting, changed := true) else s
    case Discarded =>
      if s.at.Done? then s.(queue := s.queue.(pending := Discard(s.queue.pending, s.at.ready)), at := Waiting) else s
    case Stop => s.(stopped := true, changed := true)
  }

  function Execute(s: Loop, steps: seq<Step>): Loop {
    if steps == [] then s else Next(Execute(s, steps[..|steps| - 1]), steps[|steps| - 1])
  }

  function Held(at: At): Pending {
    match at
    case Flushing(ready) => ready
    case InSync(ready, _) => ready
    case Done(ready) => ready
    case _ => map[]
  }

  /** Somebody is going to look at this entry. */
  ghost predicate Attended(s: Loop, key: Key, entry: Entry) {
    || s.changed
    || (exists h :: h in s.handlers && entry.generation in s.handlers[h])
    || s.at == Cleared
    || (key in Held(s.at) && Held(s.at)[key] == entry)
  }

  ghost predicate AllAttended(s: Loop) {
    forall key :: key in s.queue.pending ==> Attended(s, key, s.queue.pending[key])
  }

  ghost predicate HeldOk(s: Loop) {
    match s.at
    case Woken => s.changed
    case Flushing(ready) => WithinLast(ready, s.queue.last)
    case InSync(ready, started) => WithinLast(ready, started) && started <= s.queue.last
    case Done(ready) => WithinLast(ready, s.covered)
    case _ => true
  }

  ghost predicate LoopOk(s: Loop) {
    && QueueOk(s.queue)
    && (forall g :: Accounted(s.queue, s.covered, g))
    && HeldOk(s)
    && (!s.stopped ==> s.at != Exited && AllAttended(s))
  }

  lemma HandlerNotifyOk(s: Loop, h: nat, keys: seq<Key>, due: nat)
    requires LoopOk(s) && h !in s.handlers
    ensures LoopOk(Next(s, HandlerNotify(h, keys, due)))
  {
    var u := Next(s, HandlerNotify(h, keys, due));
    NotifyAccounts(s.queue, keys, due, s.covered);
    if !s.stopped {
      forall key | key in u.queue.pending ensures Attended(u, key, u.queue.pending[key]) {
        if u.queue.pending[key].generation > s.queue.last {
          assert h in u.handlers && u.queue.pending[key].generation in u.handlers[h];
        } else {
          assert Attended(s, key, s.queue.pending[key]);
          if g :| g in s.handlers && s.queue.pending[key].generation in s.handlers[g] {
            assert g in u.handlers && u.handlers[g] == s.handlers[g];
          }
        }
      }
    }
  }

  lemma DiscardedOk(s: Loop)
    requires LoopOk(s) && s.at.Done?
    ensures LoopOk(Next(s, Discarded))
  {
    var u := Next(s, Discarded);
    DiscardAccounts(s.queue, s.at.ready, s.covered);
    if !s.stopped {
      forall key | key in u.queue.pending ensures Attended(u, key, u.queue.pending[key]) {
        assert Attended(s, key, s.queue.pending[key]);
      }
    }
  }

  lemma CompletesOk(s: Loop)
    requires LoopOk(s) && s.at.InSync?
    ensures LoopOk(Next(s, SyncCompletes))
  {
    var u := Next(s, SyncCompletes);
    forall g ensures Accounted(u.queue, u.covered, g) {
      assert Accounted(s.queue, s.covered, g);
    }
    if !s.stopped {
      forall key | key in u.queue.pending ensures Attended(u, key, u.queue.pending[key]) {
        assert Attended(s, key, s.queue.pending[key]);
      }
    }
  }

  lemma OtherStepOk(s: Loop, step: Step)
    requires LoopOk(s) && !step.HandlerNotify? && !step.Discarded? && !step.SyncCompletes?
    ensures LoopOk(Next(s, step))
  {
    var u := Next(s, step);
    forall g ensures Accounted(u.queue, u.covered, g) {
      assert Accounted(s.queue, s.covered, g);
    }
    if !u.stopped {
      forall key | key in u.queue.pending ensures Attended(u, key, u.queue.pending[key]) {
        assert Attended(s, key, s.queue.pending[key]);
      }
    }
  }

  lemma StepOk(s: Loop, step: Step)
    requires LoopOk(s)
    ensures LoopOk(Next(s, step))
  {
    match step
    case HandlerNotify(h, keys, due) => if h !in s.handlers { HandlerNotifyOk(s, h, keys, due); }
    case Discarded => if s.at.Done? { DiscardedOk(s); }
    case SyncCompletes => if s.at.InSync? { CompletesOk(s); }
    case _ => OtherStepOk(s, step);
  }

  lemma {:induction false} RunsOk(steps: seq<Step>)
    ensures LoopOk(Execute(START, steps))
  {
    if steps != [] {
      RunsOk(steps[..|steps| - 1]);
      StepOk(Execute(START, steps[..|steps| - 1]), steps[|steps| - 1]);
    }
  }

  /**
   * Until the loop is stopped, an entry that the running flush does not hold is never forgotten: `changed` is set, its
   * notifier is about to set it, or the loop has cleared it and not yet taken its snapshot.
   */
  lemma PendingWorkIsAttended(steps: seq<Step>, key: Key)
    requires var s := Execute(START, steps); !s.stopped && key in s.queue.pending
    ensures var s := Execute(START, steps);
            var entry := s.queue.pending[key];
            (key in Held(s.at) && Held(s.at)[key] == entry)
            || s.changed || s.at == Cleared || exists h :: h in s.handlers && entry.generation in s.handlers[h]
  {
    RunsOk(steps);
    assert Attended(Execute(START, steps), key, Execute(START, steps).queue.pending[key]);
  }

  lemma StepKeepsHistory(s: Loop, step: Step, g: nat)
    requires LoopOk(s) && g in s.queue.keyOf
    ensures g in Next(s, step).queue.keyOf && Next(s, step).queue.keyOf[g] == s.queue.keyOf[g]
  {
    if step.HandlerNotify? { NotifyAccounts(s.queue, step.keys, step.due, s.covered); }
  }

  lemma {:induction false} HistoryStays(s: Loop, steps: seq<Step>, g: nat)
    requires LoopOk(s) && g in s.queue.keyOf
    ensures var u := Execute(s, steps); LoopOk(u) && g in u.queue.keyOf && u.queue.keyOf[g] == s.queue.keyOf[g]
  {
    hide LoopOk, Next;
    if steps != [] {
      HistoryStays(s, steps[..|steps| - 1], g);
      StepOk(Execute(s, steps[..|steps| - 1]), steps[|steps| - 1]);
      StepKeepsHistory(Execute(s, steps[..|steps| - 1]), steps[|steps| - 1], g);
    }
  }

  lemma HandlerIsNotLost(s: Loop, h: nat, keys: seq<Key>, due: nat, later: seq<Step>, i: nat)
    requires LoopOk(s) && i < |keys| && h !in s.handlers
    ensures var noticed := Next(s, HandlerNotify(h, keys, due));
            var u := Execute(noticed, later);
            && h in noticed.handlers && noticed.queue.last == s.queue.last + |keys|
            && keys[i] in noticed.queue.pending && noticed.queue.pending[keys[i]].due == due
            && (s.queue.last + i < u.covered
                || (keys[i] in u.queue.pending && s.queue.last + i < u.queue.pending[keys[i]].generation))
  {
    var noticed := Next(s, HandlerNotify(h, keys, due));
    hide Execute, LoopOk, Notify, Noted;
    StepOk(s, HandlerNotify(h, keys, due));
    NotifyNotes(s.queue, keys, due);
    NotedEnters(s.queue, noticed.queue, keys, due, i);
    StaysAccounted(noticed, later, s.queue.last + i + 1);
  }

  /**
   * In the loop, too, no notification is lost: each path of a handler's notification is pending until a sync that started
   * after it has completed, failing syncs, other handlers and a stop included.
   */
  lemma LoopLosesNothing(steps: seq<Step>, h: nat, keys: seq<Key>, due: nat, later: seq<Step>, i: nat)
    requires i < |keys| && h !in Execute(START, steps).handlers
    ensures var s := Execute(START, steps);
            var noticed := Next(s, HandlerNotify(h, keys, due));
            var u := Execute(noticed, later);
            && h in noticed.handlers && noticed.queue.last == s.queue.last + |keys|
            && keys[i] in noticed.queue.pending && noticed.queue.pending[keys[i]].due == due
            && (s.queue.last + i < u.covered
                || (keys[i] in u.queue.pending && s.queue.last + i < u.queue.pending[keys[i]].generation))
  {
    hide Execute, LoopOk, Next;
    RunsOk(steps);
    HandlerIsNotLost(Execute(START, steps), h, keys, due, later, i);
  }

  lemma StaysAccounted(s: Loop, steps: seq<Step>, g: nat)
    requires LoopOk(s) && g in s.queue.keyOf
    ensures var u := Execute(s, steps);
            g <= u.covered || (s.queue.keyOf[g] in u.queue.pending && g <= u.queue.pending[s.queue.keyOf[g]].generation)
  {
    HistoryStays(s, steps, g);
    hide Execute, QueueOk, HeldOk, AllAttended;
    assert Accounted(Execute(s, steps).queue, Execute(s, steps).covered, g);
  }

  /**
   * A quiet loop converges: with no handler in flight and pending work, the loop is awake, and one round whose sync
   * completes leaves nothing pending and every notification followed by a completed sync.
   */
  lemma QuietRoundDrains(s: Loop)
    requires LoopOk(s) && !s.stopped && s.handlers == map[] && s.at == Waiting && s.queue.pending != map[]
    ensures s.changed
    ensures var u := Next(Next(Next(Next(Next(Next(s, Wake), Clear), Snapshot), StartSync), SyncCompletes), Discarded);
            u.queue.pending == map[] && u.at == Waiting && !u.changed && forall g :: g in u.queue.keyOf ==> g <= u.covered
  {
    assert s.queue.pending.Keys != {};
    var key :| key in s.queue.pending;
    assert Attended(s, key, s.queue.pending[key]);
    var ready := Ready(s.queue.pending, true, 0);
    assert ready == s.queue.pending;
    assert Discard(s.queue.pending, ready) == map[];
  }
}
