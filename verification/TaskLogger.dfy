/** One complete replay of the terminal outbox, as the service runs it: a loop over the pending rows. */
module TaskLogger {
  import opened Tasks
  import opened TaskLog
  import HubStore

  type Notes = map<OperationId, LogNote>

  predicate RowEligible(c: Config, h: Hub, op: OperationId) {
    op in h.outbox && op.task in h.tasks && Eligible(c, h.outbox[op], h.tasks[op.task])
  }

  /** Every note is the one its row and task determine, and every acknowledged eligible row has its note. */
  ghost predicate Consistent(c: Config, h: Hub, notes: Notes) {
    && HubOk(h)
    && (forall op :: op in notes ==> RowEligible(c, h, op) && notes[op] == NoteFor(op, h.outbox[op], h.tasks[op.task]))
    && (forall op :: RowEligible(c, h, op) && op !in Pending(h) ==> op in notes)
  }

  /** The notes after one row: written when it is eligible and its file is not there yet. */
  function LogRow(c: Config, h: Hub, notes: Notes, op: OperationId): Notes {
    if RowEligible(c, h, op) && op !in notes then notes[op := NoteFor(op, h.outbox[op], h.tasks[op.task])] else notes
  }

  lemma LogRowKeeps(c: Config, h: Hub, notes: Notes, op: OperationId, now: nat)
    requires Consistent(c, h, notes) && op in Pending(h)
    ensures Consistent(c, AcknowledgeOutbox(h, op, now), LogRow(c, h, notes, op))
    ensures Pending(AcknowledgeOutbox(h, op, now)) == Pending(h) - {op}
  {
    AcknowledgeKeeps(h, op, now);
    var u := AcknowledgeOutbox(h, op, now);
    assert Pending(u) == Pending(h) - {op};
    forall x ensures RowEligible(c, u, x) <==> RowEligible(c, h, x) {
    }
  }

  /** Notes are only added, and only for these operations. */
  ghost predicate Grows(before: Notes, after: Notes, operations: set<OperationId>) {
    && (forall op :: op in before ==> op in after && after[op] == before[op])
    && (forall op :: op in after && op !in before ==> op in operations)
  }

  /** The operation has its note if and only if its task ended well enough and is fit to be logged. */
  ghost predicate Logged(c: Config, row: OutboxRow, tasks: map<TaskId, Task>, op: OperationId, notes: Notes) {
    && op.task in tasks
    && var task := tasks[op.task];
       && (op in notes <==>
             (row.state == Completed || row.state == Failed || row.state == Canceled) && task.intent in c.intents
             && task.payload.size <= c.maxPayloadBytes && !task.payload.secret)
       && (op in notes ==> Tells(notes[op], op, row, task))
  }

  lemma NothingPendingLogged(c: Config, h: Hub, notes: Notes, op: OperationId)
    requires Consistent(c, h, notes) && Pending(h) == {} && op in h.outbox
    ensures Logged(c, h.outbox[op], h.tasks, op, notes)
  {
    RowsSettled(h, op);
    assert op !in Pending(h);
  }

  class Logger {
    var notes: Notes

    constructor ()
      ensures notes == map[]
    {
      notes := map[];
    }

    method ReplayRow(c: Config, hub: HubStore.Store, op: OperationId, now: nat) returns (created: nat, suppressed: nat)
      requires Consistent(c, hub.Contents(), notes) && op in Pending(hub.Contents())
      modifies this, hub`outbox
      ensures Consistent(c, hub.Contents(), notes)
      ensures Pending(hub.Contents()) == Pending(old(hub.Contents())) - {op}
      ensures notes == LogRow(c, old(hub.Contents()), old(notes), op)
      ensures |notes| == |old(notes)| + created
      ensures suppressed == if RowEligible(c, old(hub.Contents()), op) then 0 else 1
      ensures created + suppressed <= 1
      ensures hub.tasks == old(hub.tasks) && hub.outbox.Keys == old(hub.outbox.Keys)
    {
      LogRowKeeps(c, hub.Contents(), notes, op, now);
      RowsSettled(hub.Contents(), op);
      var row, task := hub.outbox[op], hub.tasks[op.task];
      created, suppressed := 0, if Eligible(c, row, task) then 0 else 1;
      if suppressed == 0 && op !in notes {
        notes := notes[op := NoteFor(op, row, task)];
        created := 1;
      }
      var _ := hub.AcknowledgeTerminalOutbox(op, now);
    }

    /** `_replay_terminal_outbox_locked`, with no task event in between and no crash: nothing is left pending. */
    method Replay(c: Config, hub: HubStore.Store, now: nat) returns (created: nat, suppressed: nat)
      requires Consistent(c, hub.Contents(), notes)
      modifies this, hub`outbox
      ensures Consistent(c, hub.Contents(), notes)
      ensures Pending(hub.Contents()) == {}
      ensures Grows(old(notes), notes, Pending(old(hub.Contents())))
      ensures |notes| == |old(notes)| + created
      ensures hub.tasks == old(hub.tasks) && hub.outbox.Keys == old(hub.outbox.Keys)
      ensures forall op :: op in hub.outbox ==> Logged(c, hub.outbox[op], hub.tasks, op, notes)
    {
      created, suppressed := 0, 0;
      var todo := Pending(hub.Contents());
      ghost var before, listed := notes, todo;
      while todo != {}
        invariant Consistent(c, hub.Contents(), notes)
        invariant todo == Pending(hub.Contents()) && todo <= listed
        invariant Grows(before, notes, listed) && |notes| == |before| + created
        invariant hub.tasks == old(hub.tasks) && hub.outbox.Keys == old(hub.outbox.Keys)
      {
        var op :| op in todo;
        GrowsBy(before, notes, listed, c, hub.Contents(), op);
        var wrote, skipped := ReplayRow(c, hub, op, now);
        created, suppressed := created + wrote, suppressed + skipped;
        todo := todo - {op};
      }
      forall op | op in hub.outbox
        ensures Logged(c, hub.outbox[op], hub.tasks, op, notes)
      {
        NothingPendingLogged(c, hub.Contents(), notes, op);
      }
    }
  }

  lemma GrowsBy(before: Notes, notes: Notes, listed: set<OperationId>, c: Config, h: Hub, op: OperationId)
    requires Grows(before, notes, listed) && op in listed
    ensures Grows(before, LogRow(c, h, notes, op), listed)
  {
  }
}
