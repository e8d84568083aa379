/**
 * Task logs: every eligible terminal event becomes exactly one note. The outbox and the notes are two stores with no
 * common transaction; writing a note and acknowledging its outbox row are separate steps, and a crash, a further task
 * event or another replay may come between them.
 */
module TaskLog {
  import opened Base
  import opened Tasks

  datatype Config = Config(intents: set<nat>, maxPayloadBytes: nat)

  // The task-log note of one outbox row, as far as its text depends on the task and the row.
  datatype LogNote = LogNote(
    task: TaskId, conversation: nat, intent: nat, state: TaskState, from: Option<nat>, to: Option<nat>,
    eventSequence: nat, taskCreatedAt: nat, taskUpdatedAt: nat, recordedAt: nat)

  function NoteFor(op: OperationId, row: OutboxRow, task: Task): LogNote {
    LogNote(op.task, task.conversation, task.intent, row.state, task.from, task.to,
            op.sequence, task.createdAt, task.updatedAt, row.createdAt)
  }

  predicate Eligible(c: Config, row: OutboxRow, task: Task) {
    && row.state in {Completed, Failed, Canceled}
    && task.intent in c.intents
    && task.payload.size <= c.maxPayloadBytes
    && !task.payload.secret
  }

  // Note ids are hashes of operation ids. `writes` is history: the operations whose note file was written, in order.
  // `queue` is what the running replay still has to do; `logged` says its first operation's note is in place.
  datatype System = System(hub: Hub, notes: map<OperationId, LogNote>, writes: seq<OperationId>, queue: seq<OperationId>, logged: bool)

  datatype Step =
    | HubStep(step: Tasks.Step)
    | List(order: seq<OperationId>)
    | Write
    | Finish(now: nat)
    | Crash

  predicate Acknowledges(step: Tasks.Step) {
    step.Acknowledge?
  }

  function NextSystem(c: Config, s: System, step: Step): System {
    match step
    case HubStep(hubStep) => if Acknowledges(hubStep) then s else s.(hub := Next(s.hub, hubStep))
    case List(order) =>
      if s.queue == [] && (set op | op in order) == Pending(s.hub) then s.(queue := order, logged := false) else s
    case Write =>
      if s.queue == [] || s.queue[0] !in s.hub.outbox || s.queue[0].task !in s.hub.tasks then s
      else
        var op := s.queue[0];
        var row, task := s.hub.outbox[op], s.hub.tasks[op.task];
        if !Eligible(c, row, task) then s
        else if op in s.notes then s.(logged := true)
        else s.(notes := s.notes[op := NoteFor(op, row, task)], writes := s.writes + [op], logged := true)
    case Finish(now) =>
      if s.queue == [] || s.queue[0] !in s.hub.outbox || s.queue[0].task !in s.hub.tasks then s
      else
        var op := s.queue[0];
        if Eligible(c, s.hub.outbox[op], s.hub.tasks[op.task]) && !s.logged then s
        else s.(hub := AcknowledgeOutbox(s.hub, op, now), queue := s.queue[1..], logged := false)
    case Crash => s.(queue := [], logged := false)
  }

  function ExecuteSystem(c: Config, s: System, steps: seq<Step>): System {
    if steps == [] then s else NextSystem(c, ExecuteSystem(c, s, steps[..|steps| - 1]), steps[|steps| - 1])
  }

  const START := System(EMPTY, map[], [], [], false)

  // ---------------------------------------------------------------------------------------------
  // The invariant

  /** The row's task is terminal, so nothing the note is made of can change any more. */
  ghost predicate RowSettled(h: Hub, op: OperationId) {
    op in h.outbox ==> op.task in h.tasks && Terminal(h.tasks[op.task].state)
  }

  ghost predicate NoteOk(c: Config, s: System, op: OperationId) {
    op in s.notes ==>
      && op in s.hub.outbox && op.task in s.hub.tasks
      && Eligible(c, s.hub.outbox[op], s.hub.tasks[op.task])
      && s.notes[op] == NoteFor(op, s.hub.outbox[op], s.hub.tasks[op.task])
  }

  ghost predicate AcknowledgedOk(c: Config, s: System, op: OperationId) {
    (op in s.hub.outbox && s.hub.outbox[op].acknowledgedAt.Some? && op.task in s.hub.tasks
     && Eligible(c, s.hub.outbox[op], s.hub.tasks[op.task])) ==> op in s.notes
  }

  ghost predicate WritesOk(s: System) {
    && (forall op :: op in s.writes <==> op in s.notes)
    && (forall i, j :: 0 <= i < j < |s.writes| ==> s.writes[i] != s.writes[j])
  }

  ghost predicate QueueListed(s: System) {
    forall op :: op in s.queue ==> op in s.hub.outbox
  }

  ghost predicate SystemOk(c: Config, s: System) {
    && HubOk(s.hub)
    && (forall op :: NoteOk(c, s, op))
    && (forall op :: AcknowledgedOk(c, s, op))
    && WritesOk(s)
    && (s.queue != [] && s.logged ==> s.queue[0] in s.notes)
    && QueueListed(s)
  }

  lemma RowsSettled(h: Hub, op: OperationId)
    requires HubOk(h)
    ensures RowSettled(h, op)
  {
    assert TaskOk(h, op.task);
  }

  lemma OutboxGrows(h: Hub, step: Tasks.Step, op: OperationId)
    requires !Acknowledges(step) && op in h.outbox
    ensures op in Next(h, step).outbox && Next(h, step).outbox[op] == h.outbox[op]
  {
    hide LastSequence, KeyTaken;
  }

  /** A task step leaves every outbox row, and the task behind it, as they were. */
  lemma HubStepPreserves(h: Hub, step: Tasks.Step, op: OperationId)
    requires HubOk(h) && !Acknowledges(step) && op in h.outbox
    ensures var u := Next(h, step);
            op in u.outbox && u.outbox[op] == h.outbox[op] && op.task in u.tasks && op.task in h.tasks
            && u.tasks[op.task] == h.tasks[op.task]
  {
    OutboxGrows(h, step, op);
    RowsSettled(h, op);
    hide HubOk, Next, EventsOf;
    TerminalStep(h, step, op.task);
  }

  /** Outbox rows are born unacknowledged. */
  lemma HubStepAcknowledgesNothing(h: Hub, step: Tasks.Step, op: OperationId)
    requires HubOk(h) && !Acknowledges(step)
    requires op in Next(h, step).outbox && Next(h, step).outbox[op].acknowledgedAt.Some?
    ensures op in h.outbox && h.outbox[op] == Next(h, step).outbox[op]
  {
  }

  lemma HubStepOk(c: Config, s: System, step: Tasks.Step)
    requires SystemOk(c, s) && !Acknowledges(step)
    ensures SystemOk(c, s.(hub := Next(s.hub, step)))
  {
    var u := s.(hub := Next(s.hub, step));
    StepKeeps(s.hub, step);
    forall op ensures NoteOk(c, u, op) {
      assert NoteOk(c, s, op);
      if op in s.notes { HubStepPreserves(s.hub, step, op); }
    }
    forall op | op in u.queue ensures op in u.hub.outbox {
      HubStepPreserves(s.hub, step, op);
    }
    forall op ensures AcknowledgedOk(c, u, op) {
      assert AcknowledgedOk(c, s, op);
      if op in u.hub.outbox && u.hub.outbox[op].acknowledgedAt.Some? {
        HubStepAcknowledgesNothing(s.hub, step, op);
        HubStepPreserves(s.hub, step, op);
      }
    }
  }

  lemma WriteOk(c: Config, s: System)
    requires SystemOk(c, s)
    ensures SystemOk(c, NextSystem(c, s, Write))
  {
    var u := NextSystem(c, s, Write);
    forall op ensures NoteOk(c, u, op) && AcknowledgedOk(c, u, op) {
      assert NoteOk(c, s, op) && AcknowledgedOk(c, s, op);
    }
  }

  lemma FinishOk(c: Config, s: System, now: nat)
    requires SystemOk(c, s)
    ensures SystemOk(c, NextSystem(c, s, Finish(now)))
  {
    var u := NextSystem(c, s, Finish(now));
    if s.queue != [] { AcknowledgeKeeps(s.hub, s.queue[0], now); }
    forall op ensures NoteOk(c, u, op) && AcknowledgedOk(c, u, op) {
      assert NoteOk(c, s, op) && AcknowledgedOk(c, s, op);
    }
  }

  lemma ListedRowsExist(s: System, order: seq<OperationId>)
    requires QueueListed(s)
    ensures (set op | op in order) == Pending(s.hub) ==> forall op :: op in order ==> op in s.hub.outbox
  {
    if (set op | op in order) == Pending(s.hub) {
      forall op | op in order
        ensures op in s.hub.outbox
      {
        assert op in Pending(s.hub);
      }
    }
  }

  lemma SystemStepOk(c: Config, s: System, step: Step)
    requires SystemOk(c, s)
    ensures SystemOk(c, NextSystem(c, s, step))
  {
    match step
    case HubStep(hubStep) => if !Acknowledges(hubStep) { HubStepOk(c, s, hubStep); }
    case List(order) =>
      ListedRowsExist(s, order);
      SameStoresOk(c, s, NextSystem(c, s, step));
    case Write => WriteOk(c, s);
    case Finish(now) => FinishOk(c, s, now);
    case Crash => SameStoresOk(c, s, NextSystem(c, s, step));
  }

  lemma SameStoresOk(c: Config, s: System, u: System)
    requires SystemOk(c, s) && u.hub == s.hub && u.notes == s.notes && u.writes == s.writes
    requires (u.queue != [] && u.logged ==> u.queue[0] in s.notes) && QueueListed(u)
    ensures SystemOk(c, u)
  {
    forall op ensures NoteOk(c, u, op) && AcknowledgedOk(c, u, op) {
      assert NoteOk(c, s, op) && AcknowledgedOk(c, s, op);
    }
  }

  lemma {:induction false} SystemRunsOk(c: Config, steps: seq<Step>)
    ensures SystemOk(c, ExecuteSystem(c, START, steps))
  {
    if steps == [] {
      Tasks.RunsKeep([]);
    } else {
      SystemRunsOk(c, steps[..|steps| - 1]);
      SystemStepOk(c, ExecuteSystem(c, START, steps[..|steps| - 1]), steps[|steps| - 1]);
    }
  }

  // ---------------------------------------------------------------------------------------------
  // Exactly once

  function Count(writes: seq<OperationId>, op: OperationId): nat {
    if writes == [] then 0 else Count(writes[..|writes| - 1], op) + (if writes[|writes| - 1] == op then 1 else 0)
  }

  lemma {:induction false} CountDistinct(writes: seq<OperationId>, op: OperationId)
    requires forall i, j :: 0 <= i < j < |writes| ==> writes[i] != writes[j]
    ensures Count(writes, op) == if op in writes then 1 else 0
  {
    if writes != [] {
      var n := |writes| - 1;
      CountDistinct(writes[..n], op);
      assert writes == writes[..n] + [writes[n]];
    }
  }

  /** The note says which task, event and agents it is about, in which state the task ended, and when. */
  ghost predicate Tells(note: LogNote, op: OperationId, row: OutboxRow, task: Task) {
    && note.task == op.task && note.eventSequence == op.sequence
    && note.state == row.state && note.recordedAt == row.createdAt
    && note.conversation == task.conversation && note.intent == task.intent
    && note.from == task.from && note.to == task.to
    && note.taskCreatedAt == task.createdAt && note.taskUpdatedAt == task.updatedAt
  }

  /**
   * Exactly once, over any interleaving of task events, replays and crashes. A note is written at most once, only for a
   * task that ended completed, failed or canceled, with a configured intent and a payload within the limit and without a
   * secret marker, and it tells of that row and task. Once a row is acknowledged, every such operation has its note.
   */
  lemma ExactlyOnce(c: Config, steps: seq<Step>, op: OperationId)
    requires op in ExecuteSystem(c, START, steps).hub.outbox
    ensures var s := ExecuteSystem(c, START, steps);
            && op.task in s.hub.tasks
            && var row, task := s.hub.outbox[op], s.hub.tasks[op.task];
               var logged := (row.state == Completed || row.state == Failed || row.state == Canceled) && task.intent in c.intents
                             && task.payload.size <= c.maxPayloadBytes && !task.payload.secret;
               && Count(s.writes, op) == (if op in s.notes then 1 else 0)
               && (op in s.notes ==> logged && Tells(s.notes[op], op, row, task))
               && (row.acknowledgedAt.Some? ==> (op in s.notes <==> logged))
  {
    SystemRunsOk(c, steps);
    var s := ExecuteSystem(c, START, steps);
    RowsSettled(s.hub, op);
    CountDistinct(s.writes, op);
    assert NoteOk(c, s, op) && AcknowledgedOk(c, s, op);
  }

  /** A task whose payload carries a secret marker never has a note, in any state of any run. */
  lemma SecretsAreNeverLogged(c: Config, steps: seq<Step>, op: OperationId)
    requires var h := ExecuteSystem(c, START, steps).hub; op.task in h.tasks && h.tasks[op.task].payload.secret
    ensures op !in ExecuteSystem(c, START, steps).notes
  {
    SystemRunsOk(c, steps);
    assert NoteOk(c, ExecuteSystem(c, START, steps), op);
  }

  /** A written note is never rewritten, whatever follows: a replay after a crash finds it and leaves it. */
  lemma {:induction false} NoteNeverRewritten(c: Config, s: System, steps: seq<Step>, op: OperationId)
    requires op in s.notes
    ensures var u := ExecuteSystem(c, s, steps); op in u.notes && u.notes[op] == s.notes[op]
  {
    if steps != [] {
      NoteNeverRewritten(c, s, steps[..|steps| - 1], op);
    }
  }

  // ---------------------------------------------------------------------------------------------
  // A replay that is not cut off by a crash

  ghost predicate Acknowledged(s: System, op: OperationId) {
    op in s.hub.outbox && s.hub.outbox[op].acknowledgedAt.Some?
  }

  /** The running replay has acknowledged the row or still has it before it. */
  ghost predicate Handled(s: System, op: OperationId) {
    Acknowledged(s, op) || op in s.queue
  }

  lemma StepHandles(c: Config, s: System, step: Step, op: OperationId)
    requires SystemOk(c, s) && step != Crash && Handled(s, op)
    ensures Handled(NextSystem(c, s, step), op)
  {
    match step
    case HubStep(hubStep) =>
      if !Acknowledges(hubStep) && op in s.hub.outbox {
        HubStepPreserves(s.hub, hubStep, op);
      }
    case Finish(now) => hide Eligible;
    case List(order) =>
    case Write => hide Eligible;
    case Crash =>
  }

  lemma {:induction false} RunHandles(c: Config, s: System, steps: seq<Step>, op: OperationId)
    requires SystemOk(c, s) && Handled(s, op) && forall i :: 0 <= i < |steps| ==> steps[i] != Crash
    ensures SystemOk(c, ExecuteSystem(c, s, steps)) && Handled(ExecuteSystem(c, s, steps), op)
  {
    hide SystemOk, Handled, NextSystem;
    if steps != [] {
      var before := ExecuteSystem(c, s, steps[..|steps| - 1]);
      RunHandles(c, s, steps[..|steps| - 1], op);
      SystemStepOk(c, before, steps[|steps| - 1]);
      StepHandles(c, before, steps[|steps| - 1], op);
    }
  }

  /**
   * A replay that works off its list without a crash leaves none of the rows it listed pending, whatever task events come
   * between its rows; each has its note exactly if it was eligible.
   */
  lemma ReplayWorksOffItsList(c: Config, before: seq<Step>, order: seq<OperationId>, during: seq<Step>, op: OperationId)
    requires var s := ExecuteSystem(c, START, before);
             s.queue == [] && (set listed | listed in order) == Pending(s.hub) && op in Pending(s.hub)
    requires forall i :: 0 <= i < |during| ==> during[i] != Crash
    requires ExecuteSystem(c, NextSystem(c, ExecuteSystem(c, START, before), List(order)), during).queue == []
    ensures var u := ExecuteSystem(c, NextSystem(c, ExecuteSystem(c, START, before), List(order)), during);
            && Acknowledged(u, op) && op.task in u.hub.tasks
            && (op in u.notes <==> Eligible(c, u.hub.outbox[op], u.hub.tasks[op.task]))
  {
    var s := ExecuteSystem(c, START, before);
    var listed := NextSystem(c, s, List(order));
    assert op in listed.queue;
    hide NextSystem, ExecuteSystem, Eligible, HubOk, WritesOk;
    SystemRunsOk(c, before);
    SystemStepOk(c, s, List(order));
    RunHandles(c, listed, during, op);
    var u := ExecuteSystem(c, listed, during);
    RowsSettled(u.hub, op);
    assert NoteOk(c, u, op) && AcknowledgedOk(c, u, op);
  }

  /** The replay never sticks: its next row is written if need be, acknowledged and done with. */
  lemma NextRowIsDone(c: Config, s: System, now: nat)
    requires SystemOk(c, s) && s.queue != []
    ensures var u := NextSystem(c, NextSystem(c, s, Write), Finish(now));
            u.queue == s.queue[1..] && Acknowledged(u, s.queue[0])
  {
    assert s.queue[0] in s.hub.outbox;
    RowsSettled(s.hub, s.queue[0]);
    hide Eligible, SystemOk, NoteFor;
  }
}
