/**
 * The watcher's hand-off: notifications go into a queue of pending paths, a flush takes a snapshot of it, runs a sync
 * and then removes what it took. Generations tell a path that was notified again during the sync from one that was not.
 */
module Watcher {
  import opened Base

  // A path in its normalised, case-folded form.
  type Key = nat

  datatype Entry = Entry(due: nat, generation: nat)

  type Pending = map<Key, Entry>

  // `keyOf` is history: which path each generation was given for.
  datatype Queue = Queue(pending: Pending, last: nat, keyOf: map<nat, Key>)

  const EMPTY := Queue(map[], 0, map[])

  function NotifyOne(q: Queue, key: Key, due: nat): Queue {
    Queue(q.pending[key := Entry(due, q.last + 1)], q.last + 1, q.keyOf[q.last + 1 := key])
  }

  /** One notification, of a path and perhaps its destination, under one lock. */
  function Notify(q: Queue, keys: seq<Key>, due: nat): Queue {
    if keys == [] then q
    else NotifyOne(Notify(q, keys[..|keys| - 1], due), keys[|keys| - 1], due)
  }

  /** No later path of the notification is the same. */
  ghost predicate LastOccurrence(keys: seq<Key>, i: nat) {
    i < |keys| && forall j :: i < j < |keys| ==> keys[j] != keys[i]
  }

  /** The history gains one number for each path, in order. */
  ghost predicate NumbersGiven(q: Queue, u: Queue, keys: seq<Key>) {
    && u.last == q.last + |keys|
    && (forall g :: g in u.keyOf <==> g in q.keyOf || q.last < g <= u.last)
    && (forall g :: g in u.keyOf ==> u.keyOf[g] == NumberFor(q, keys, g))
  }

  ghost function NumberFor(q: Queue, keys: seq<Key>, g: nat): Key {
    if q.last < g <= q.last + |keys| then keys[g - q.last - 1] else if g in q.keyOf then q.keyOf[g] else 0
  }

  /** Every path has the entry of its last occurrence, with just this due time. */
  ghost predicate EntriesMade(before: nat, pending: Pending, keys: seq<Key>, due: nat) {
    forall i :: 0 <= i < |keys| && LastOccurrence(keys, i) ==>
      keys[i] in pending && pending[keys[i]] == Entry(due, before + i + 1)
  }

  ghost predicate OthersKept(before: Pending, after: Pending, keys: seq<Key>) {
    && (forall key :: key !in keys ==> (key in after <==> key in before))
    && (forall key :: key !in keys && key in before ==> after[key] == before[key])
  }

  /** What a notification leaves. */
  ghost predicate Noted(q: Queue, u: Queue, keys: seq<Key>, due: nat) {
    NumbersGiven(q, u, keys) && EntriesMade(q.last, u.pending, keys, due) && OthersKept(q.pending, u.pending, keys)
  }

  lemma LastOfMore(keys: seq<Key>, key: Key, i: nat)
    requires i < |keys| && LastOccurrence(keys + [key], i)
    ensures LastOccurrence(keys, i) && keys[i] != key
  {
    var all := keys + [key];
    assert all[|keys|] == key && all[i] == keys[i];
    forall j | i < j < |keys|
      ensures keys[j] != keys[i]
    {
      assert all[j] == keys[j];
    }
  }

  lemma EntriesMore(before: nat, pending: Pending, keys: seq<Key>, key: Key, due: nat)
    requires EntriesMade(before, pending, keys, due)
    ensures EntriesMade(before, pending[key := Entry(due, before + |keys| + 1)], keys + [key], due)
  {
    forall i | 0 <= i < |keys| && LastOccurrence(keys + [key], i)
      ensures LastOccurrence(keys, i) && keys[i] != key
    {
      LastOfMore(keys, key, i);
    }
  }

  lemma OthersMore(before: Pending, pending: Pending, keys: seq<Key>, key: Key, entry: Entry)
    requires OthersKept(before, pending, keys)
    ensures OthersKept(before, pending[key := entry], keys + [key])
  {
    assert (keys + [key])[|keys|] == key;
    assert forall other :: other !in keys + [key] ==> other !in keys && other != key;
  }

  lemma NumbersMore(q: Queue, u: Queue, keys: seq<Key>, key: Key, due: nat)
    requires NumbersGiven(q, u, keys)
    ensures NumbersGiven(q, NotifyOne(u, key, due), keys + [key])
  {
    var v := NotifyOne(u, key, due);
    forall g | g in v.keyOf
      ensures v.keyOf[g] == NumberFor(q, keys + [key], g)
    {
      assert g != v.last ==> g in u.keyOf && v.keyOf[g] == NumberFor(q, keys, g);
    }
  }

  lemma NotedOne(q: Queue, u: Queue, keys: seq<Key>, key: Key, due: nat)
    requires Noted(q, u, keys, due)
    ensures Noted(q, NotifyOne(u, key, due), keys + [key], due)
  {
    assert u.last == q.last + |keys|;
    EntriesMore(q.last, u.pending, keys, key, due);
    OthersMore(q.pending, u.pending, keys, key, Entry(due, u.last + 1));
    NumbersMore(q, u, keys, key, due);
    hide EntriesMade, OthersKept, NumbersGiven;
  }

  lemma {:induction false} NotifyNotes(q: Queue, keys: seq<Key>, due: nat)
    ensures Noted(q, Notify(q, keys, due), keys, due)
  {
    if keys != [] {
      var n := |keys| - 1;
      NotifyNotes(q, keys[..n], due);
      NotedOne(q, Notify(q, keys[..n], due), keys[..n], keys[n], due);
      assert keys[..n] + [keys[n]] == keys;
    }
  }

  function Ready(p: Pending, force: bool, now: nat): Pending {
    map key | key in p && (force || p[key].due <= now) :: p[key]
  }

  /** Removes the taken entries that are still the same: a path notified again keeps its newer entry. */
  function Discard(p: Pending, ready: Pending): Pending {
    map key | key in p && !(key in ready && ready[key] == p[key]) :: p[key]
  }

  // ---------------------------------------------------------------------------------------------
  // Any number of concurrent flushes

  // `started` is the number of notifications given when the flight's sync started.
  datatype Flight = Taken(ready: Pending) | Syncing(ready: Pending, started: nat) | Synced(ready: Pending)

  // `covered` is history: the most notifications any completed sync had before its start.
  datatype System = System(queue: Queue, flights: map<nat, Flight>, covered: nat)

  datatype Step =
    | Notice(keys: seq<Key>, due: nat)
    | Take(flight: nat, force: bool, now: nat)
    | Start(flight: nat)
    | Complete(flight: nat)
    | Fail(flight: nat)
    | Remove(flight: nat)

  function Next(s: System, step: Step): System {
    match step
    case Notice(keys, due) => s.(queue := Notify(s.queue, keys, due))
    case Take(f, force, now) =>
      if f in s.flights || Ready(s.queue.pending, force, now) == map[] then s
      else s.(flights := s.flights[f := Taken(Ready(s.queue.pending, force, now))])
    case Start(f) =>
      if f in s.flights && s.flights[f].Taken? then
        s.(flights := s.flights[f := Syncing(s.flights[f].ready, s.queue.last)])
      else s
    case Complete(f) =>
      if f in s.flights && s.flights[f].Syncing? then
        s.(flights := s.flights[f := Synced(s.flights[f].ready)], covered := Max(s.covered, s.flights[f].started))
      else s
    case Fail(f) => s.(flights := s.flights - {f})
    case Remove(f) =>
      if f in s.flights && s.flights[f].Synced? then
        s.(queue := s.queue.(pending := Discard(s.queue.pending, s.flights[f].ready)), flights := s.flights - {f})
      else s
  }

  function Execute(s: System, steps: seq<Step>): System {
    if steps == [] then s else Next(Execute(s, steps[..|steps| - 1]), steps[|steps| - 1])
  }

  const START := System(EMPTY, map[], 0)

  /** A notification is accounted for: a sync that started after it has completed, or its path is still pending. */
  ghost predicate Accounted(q: Queue, covered: nat, generation: nat) {
    generation in q.keyOf ==>
      generation <= covered
      || (q.keyOf[generation] in q.pending && generation <= q.pending[q.keyOf[generation]].generation)
  }

  ghost predicate QueueOk(q: Queue) {
    && (forall g :: g in q.keyOf <==> 1 <= g <= q.last)
    && (forall key :: key in q.pending ==> 1 <= q.pending[key].generation <= q.last)
  }

  ghost predicate WithinLast(ready: Pending, bound: nat) {
    forall key :: key in ready ==> ready[key].generation <= bound
  }

  ghost predicate FlightOk(s: System, flight: Flight) {
    match flight
    case Taken(ready) => WithinLast(ready, s.queue.last)
    case Syncing(ready, started) => WithinLast(ready, started) && started <= s.queue.last
    case Synced(ready) => WithinLast(ready, s.covered)
  }

  ghost predicate SystemOk(s: System) {
    && QueueOk(s.queue)
    && (forall g :: Accounted(s.queue, s.covered, g))
    && (forall f :: f in s.flights ==> FlightOk(s, s.flights[f]))
  }

  lemma NotifyOneAccounts(q: Queue, key: Key, due: nat, covered: nat)
    requires QueueOk(q) && forall g :: Accounted(q, covered, g)
    ensures QueueOk(NotifyOne(q, key, due)) && forall g :: Accounted(NotifyOne(q, key, due), covered, g)
  {
    forall g ensures Accounted(NotifyOne(q, key, due), covered, g) {
      assert Accounted(q, covered, g);
    }
  }

  lemma {:induction false} NotifyAccounts(q: Queue, keys: seq<Key>, due: nat, covered: nat)
    requires QueueOk(q) && forall g :: Accounted(q, covered, g)
    ensures var u := Notify(q, keys, due);
            && QueueOk(u) && (forall g :: Accounted(u, covered, g))
            && q.last <= u.last
            && (forall key :: key in u.pending ==> u.pending[key].generation > q.last || (key in q.pending && u.pending[key] == q.pending[key]))
            && (forall g :: g in q.keyOf ==> g in u.keyOf && u.keyOf[g] == q.keyOf[g])
  {
    if keys != [] {
      var n := |keys| - 1;
      NotifyAccounts(q, keys[..n], due, covered);
      NotifyOneAccounts(Notify(q, keys[..n], due), keys[n], due, covered);
    }
  }

  /** Discarding entries that a completed sync has covered leaves every notification accounted for. */
  lemma DiscardAccounts(q: Queue, ready: Pending, covered: nat)
    requires QueueOk(q) && WithinLast(ready, covered) && forall g :: Accounted(q, covered, g)
    ensures var u := q.(pending := Discard(q.pending, ready));
            QueueOk(u) && forall g :: Accounted(u, covered, g)
  {
    var u := q.(pending := Discard(q.pending, ready));
    forall g ensures Accounted(u, covered, g) {
      assert Accounted(q, covered, g);
    }
  }

  lemma StepOk(s: System, step: Step)
    requires SystemOk(s)
    ensures SystemOk(Next(s, step))
  {
    var u := Next(s, step);
    match step {
      case Notice(keys, due) => NotifyAccounts(s.queue, keys, due, s.covered);
      case Remove(f) =>
        if f in s.flights && s.flights[f].Synced? {
          assert FlightOk(s, s.flights[f]);
          DiscardAccounts(s.queue, s.flights[f].ready, s.covered);
        }
      case Complete(f) =>
        forall g ensures Accounted(u.queue, u.covered, g) {
          assert Accounted(s.queue, s.covered, g);
        }
      case _ =>
    }
    forall f | f in u.flights ensures FlightOk(u, u.flights[f]) {
      if f in s.flights { assert FlightOk(s, s.flights[f]); }
    }
  }

  lemma {:induction false} RunsOk(steps: seq<Step>)
    ensures SystemOk(Execute(START, steps))
  {
    if steps != [] {
      RunsOk(steps[..|steps| - 1]);
      StepOk(Execute(START, steps[..|steps| - 1]), steps[|steps| - 1]);
    }
  }

  lemma StepKeepsHistory(s: System, step: Step, g: nat)
    requires SystemOk(s) && g in s.queue.keyOf
    ensures g in Next(s, step).queue.keyOf && Next(s, step).queue.keyOf[g] == s.queue.keyOf[g]
  {
    if step.Notice? { NotifyAccounts(s.queue, step.keys, step.due, s.covered); }
  }

  lemma {:induction false} HistoryStays(s: System, steps: seq<Step>, g: nat)
    requires SystemOk(s) && g in s.queue.keyOf
    ensures var u := Execute(s, steps); SystemOk(u) && g in u.queue.keyOf && u.queue.keyOf[g] == s.queue.keyOf[g]
  {
    hide SystemOk, Next;
    if steps != [] {
      HistoryStays(s, steps[..|steps| - 1], g);
      StepOk(Execute(s, steps[..|steps| - 1]), steps[|steps| - 1]);
      StepKeepsHistory(Execute(s, steps[..|steps| - 1]), steps[|steps| - 1], g);
    }
  }

  /**
   * No notification is lost, under any interleaving of notifications, flushes, failing syncs and paths notified again
   * during a sync. Each path of a notification is pending right after it; and ever after, a sync that started once that
   * path was entered has completed, or the path is pending, with this entry or a newer one.
   */
  lemma NoNotificationLost(steps: seq<Step>, keys: seq<Key>, due: nat, later: seq<Step>, i: nat)
    requires i < |keys|
    ensures var s := Execute(START, steps);
            var noticed := Next(s, Notice(keys, due));
            var u := Execute(noticed, later);
            && noticed.queue.last == s.queue.last + |keys|
            && keys[i] in noticed.queue.pending && noticed.queue.pending[keys[i]].due == due
            && (s.queue.last + i < u.covered
                || (keys[i] in u.queue.pending && s.queue.last + i < u.queue.pending[keys[i]].generation))
  {
    hide Execute, SystemOk;
    RunsOk(steps);
    NoticeIsNotLost(Execute(START, steps), keys, due, later, i);
  }

  lemma NoticeIsNotLost(s: System, keys: seq<Key>, due: nat, later: seq<Step>, i: nat)
    requires SystemOk(s) && i < |keys|
    ensures var noticed := Next(s, Notice(keys, due));
            var u := Execute(noticed, later);
            && noticed.queue.last == s.queue.last + |keys|
            && keys[i] in noticed.queue.pending && noticed.queue.pending[keys[i]].due == due
            && (s.queue.last + i < u.covered
                || (keys[i] in u.queue.pending && s.queue.last + i < u.queue.pending[keys[i]].generation))
  {
    var noticed := Next(s, Notice(keys, due));
    hide Execute, SystemOk, Notify, Noted;
    StepOk(s, Notice(keys, due));
    NotifyNotes(s.queue, keys, due);
    NotedEnters(s.queue, noticed.queue, keys, due, i);
    StaysAccounted(noticed, later, s.queue.last + i + 1);
  }

  lemma StaysAccounted(s: System, steps: seq<Step>, g: nat)
    requires SystemOk(s) && g in s.queue.keyOf
    ensures var u := Execute(s, steps);
            g <= u.covered || (s.queue.keyOf[g] in u.queue.pending && g <= u.queue.pending[s.queue.keyOf[g]].generation)
  {
    HistoryStays(s, steps, g);
    hide Execute, QueueOk, FlightOk;
    assert Accounted(Execute(s, steps).queue, Execute(s, steps).covered, g);
  }

  lemma NotedEnters(q: Queue, u: Queue, keys: seq<Key>, due: nat, i: nat)
    requires Noted(q, u, keys, due) && i < |keys|
    ensures u.last == q.last + |keys| && keys[i] in u.pending && u.pending[keys[i]].due == due
    ensures q.last + i + 1 in u.keyOf && u.keyOf[q.last + i + 1] == keys[i]
  {
    EntryIsNew(q, u, keys, due, i);
    assert keys[(q.last + i + 1) - q.last - 1] == keys[i];
  }

  /** Every notified path has an entry with just this due time. */
  lemma {:induction false} EntryIsNew(q: Queue, u: Queue, keys: seq<Key>, due: nat, i: nat)
    requires Noted(q, u, keys, due) && i < |keys|
    ensures keys[i] in u.pending && u.pending[keys[i]].due == due
    decreases |keys| - i
  {
    if !LastOccurrence(keys, i) {
      var j :| i < j < |keys| && keys[j] == keys[i];
      EntryIsNew(q, u, keys, due, j);
    }
  }
}
