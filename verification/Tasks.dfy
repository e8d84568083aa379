/** The task store: tasks, their numbered events, and the outbox of terminal events. */
module Tasks {
  import opened Base

  type TaskId = nat

  datatype TaskState =
    | Submitted | Accepted | Working | InputRequired
    | Completed | Failed | Canceled | Rejected | DeadLettered

  predicate Terminal(s: TaskState) {
    s in {Completed, Failed, Canceled, Rejected, DeadLettered}
  }

  /** `ALLOWED_TASK_TRANSITIONS`; terminal states have no entry. */
  predicate Allowed(current: TaskState, requested: TaskState) {
    match current
    case Submitted => requested in {Accepted, Working, InputRequired} || Terminal(requested)
    case Accepted => requested in {Working, InputRequired} || Terminal(requested)
    case Working => requested in {Working, InputRequired} || Terminal(requested)
    case InputRequired => requested in {Working, InputRequired} || Terminal(requested)
    case _ => false
  }

  // What the log may show of a payload: its encoded size and whether it contains a secret marker.
  datatype Payload = Payload(size: nat, secret: bool, content: nat)

  // An agent is missing when its name is absent or blank.
  datatype Task = Task(
    conversation: nat,
    key: Option<nat>,
    from: Option<nat>,
    to: Option<nat>,
    intent: nat,
    state: TaskState,
    payload: Payload,
    createdAt: nat,
    updatedAt: nat)

  datatype Event = Event(task: TaskId, sequence: nat, kind: nat, state: Option<TaskState>)

  // `tasklog:<task>:<sequence>`
  datatype OperationId = OperationId(task: TaskId, sequence: nat)

  datatype OutboxRow = OutboxRow(state: TaskState, createdAt: nat, acknowledgedAt: Option<nat>)

  datatype Hub = Hub(tasks: map<TaskId, Task>, events: seq<Event>, outbox: map<OperationId, OutboxRow>)

  datatype TaskError = MissingAgent | IntegrityViolation | TaskNotFound | TaskIsTerminal | InvalidTransition

  datatype Result<+T> = Ok(value: T) | Error(error: TaskError)

  // ---------------------------------------------------------------------------------------------
  // Transactions

  /** `SELECT COALESCE(MAX(sequence), 0)` over the events of one task. */
  function LastSequence(events: seq<Event>, task: TaskId): nat {
    if events == [] then 0
    else
      var n := |events| - 1;
      Max(LastSequence(events[..n], task), if events[n].task == task then events[n].sequence else 0)
  }

  /** Appends one event and, when it is terminal, its outbox row, in the caller's transaction. */
  function AppendEventRow(h: Hub, task: TaskId, kind: nat, state: Option<TaskState>, now: nat): Hub {
    var sequence := LastSequence(h.events, task) + 1;
    var op := OperationId(task, sequence);
    h.(events := h.events + [Event(task, sequence, kind, state)],
       outbox := if state.Some? && Terminal(state.value) && op !in h.outbox
                 then h.outbox[op := OutboxRow(state.value, now, None)] else h.outbox)
  }

  predicate KeyTaken(h: Hub, key: Option<nat>) {
    key.Some? && exists t :: t in h.tasks && h.tasks[t].key == key
  }

  predicate NamesAgents(task: Task) {
    task.from.Some? && task.to.Some?
  }

  /**
   * Inserting a task with its first event. A task must name both its agents; a taken id or key violates a constraint; both
   * refusals change nothing.
   */
  function InsertTask(h: Hub, id: TaskId, task: Task): Result<Hub> {
    if !NamesAgents(task) then Error(MissingAgent)
    else if id in h.tasks || KeyTaken(h, task.key) then Error(IntegrityViolation)
    else Ok(AppendEventRow(h.(tasks := h.tasks[id := task]), id, 0, Some(task.state), task.createdAt))
  }

  function CheckTransition(current: TaskState, requested: Option<TaskState>): Option<TaskError> {
    if Terminal(current) then Some(TaskIsTerminal)
    else if requested.Some? && !Allowed(current, requested.value) then Some(InvalidTransition)
    else None
  }

  function AppendEvent(h: Hub, id: TaskId, kind: nat, state: Option<TaskState>, now: nat): Result<Hub> {
    if id !in h.tasks then Error(TaskNotFound)
    else
      match CheckTransition(h.tasks[id].state, state)
      case Some(error) => Error(error)
      case None =>
        var appended := AppendEventRow(h, id, kind, state, now);
        Ok(if state.None? then appended
           else appended.(tasks := h.tasks[id := h.tasks[id].(state := state.value, updatedAt := now)]))
  }

  /** `COALESCE(acknowledged_at, now)`: only the first acknowledgement leaves its time. */
  function AcknowledgeOutbox(h: Hub, op: OperationId, now: nat): Hub {
    if op in h.outbox && h.outbox[op].acknowledgedAt.None? then
      h.(outbox := h.outbox[op := h.outbox[op].(acknowledgedAt := Some(now))])
    else h
  }

  function Pending(h: Hub): set<OperationId> {
    set op | op in h.outbox && h.outbox[op].acknowledgedAt.None?
  }

  datatype Step =
    | Create(id: TaskId, task: Task)
    | Append(id: TaskId, kind: nat, state: Option<TaskState>, now: nat)
    | Acknowledge(op: OperationId, now: nat)

  /** A step that fails, or crashes before its commit, changes nothing. */
  function Next(h: Hub, step: Step): Hub {
    match step
    case Create(id, task) => (match InsertTask(h, id, task) case Ok(u) => u case Error(_) => h)
    case Append(id, kind, state, now) => (match AppendEvent(h, id, kind, state, now) case Ok(u) => u case Error(_) => h)
    case Acknowledge(op, now) => AcknowledgeOutbox(h, op, now)
  }

  function Execute(h: Hub, steps: seq<Step>): Hub {
    if steps == [] then h else Next(Execute(h, steps[..|steps| - 1]), steps[|steps| - 1])
  }

  const EMPTY := Hub(map[], [], map[])

  // ---------------------------------------------------------------------------------------------
  // The lifecycle invariant

  /** The events of one task, in order. */
  function EventsOf(events: seq<Event>, task: TaskId): seq<Event> {
    if events == [] then []
    else
      var n := |events| - 1;
      EventsOf(events[..n], task) + (if events[n].task == task then [events[n]] else [])
  }

  /** The state of the last event that carries one. */
  function LastState(events: seq<Event>): Option<TaskState> {
    if events == [] then None
    else
      var n := |events| - 1;
      if events[n].state.Some? then events[n].state else LastState(events[..n])
  }

  ghost predicate Numbered(events: seq<Event>, task: TaskId) {
    forall i :: 0 <= i < |events| ==> events[i].task == task && events[i].sequence == i + 1
  }

  /** Only the last event may be terminal. */
  ghost predicate EndsAtTerminal(events: seq<Event>) {
    forall i :: 0 <= i < |events| - 1 ==> !(events[i].state.Some? && Terminal(events[i].state.value))
  }

  /** A task leaves a final state never, returns to `submitted` never, and is accepted only while submitted. */
  ghost predicate MayFollow(current: TaskState, next: TaskState) {
    && current in {Submitted, Accepted, Working, InputRequired}
    && next != Submitted && (next == Accepted ==> current == Submitted)
  }

  /** Every state-bearing event but the first may follow the state before it. */
  ghost predicate LegalMoves(events: seq<Event>) {
    forall i :: 0 < i < |events| && events[i].state.Some? ==>
      LastState(events[..i]).Some? && MayFollow(LastState(events[..i]).value, events[i].state.value)
  }

  ghost predicate HistoryOk(events: seq<Event>, id: TaskId, state: TaskState) {
    && events != [] && Numbered(events, id) && LegalMoves(events)
    && LastState(events) == Some(state)
    && EndsAtTerminal(events)
    && (Terminal(state) ==> events[|events| - 1].state == Some(state))
  }

  /** A task names its agents, its history is well formed, and it has one outbox row, at its last event, iff it is terminal. */
  ghost predicate TaskOk(h: Hub, id: TaskId) {
    var events := EventsOf(h.events, id);
    if id in h.tasks then
      && HistoryOk(events, id, h.tasks[id].state) && NamesAgents(h.tasks[id])
      && (forall op :: op in h.outbox && op.task == id ==> op == OperationId(id, |events|) && Terminal(h.tasks[id].state))
      && (Terminal(h.tasks[id].state) ==>
            OperationId(id, |events|) in h.outbox && h.outbox[OperationId(id, |events|)].state == h.tasks[id].state)
    else events == [] && forall op :: op in h.outbox ==> op.task != id
  }

  ghost predicate HubOk(h: Hub) {
    forall id :: TaskOk(h, id)
  }

  lemma EventsSnoc(events: seq<Event>, e: Event, task: TaskId)
    ensures EventsOf(events + [e], task) == EventsOf(events, task) + (if e.task == task then [e] else [])
  {
    assert (events + [e])[..|events|] == events;
  }

  lemma {:induction false} LastSequenceOf(events: seq<Event>, task: TaskId)
    requires Numbered(EventsOf(events, task), task)
    ensures LastSequence(events, task) == |EventsOf(events, task)|
  {
    if events != [] {
      var n := |events| - 1;
      var before := EventsOf(events[..n], task);
      assert forall i :: 0 <= i < |before| ==> EventsOf(events, task)[i] == before[i];
      LastSequenceOf(events[..n], task);
      if events[n].task == task {
        assert EventsOf(events, task)[|before|] == events[n];
      }
    }
  }

  /** Appending to one task leaves every other task as it was. */
  lemma OtherTaskOk(h: Hub, u: Hub, e: Event, id: TaskId)
    requires TaskOk(h, id) && e.task != id
    requires u.events == h.events + [e]
    requires id in h.tasks <==> id in u.tasks
    requires id in h.tasks ==> u.tasks[id] == h.tasks[id]
    requires forall op: OperationId :: op.task == id ==> (op in u.outbox <==> op in h.outbox)
    requires forall op: OperationId :: op.task == id && op in h.outbox ==> u.outbox[op].state == h.outbox[op].state
    ensures TaskOk(u, id)
  {
    EventsSnoc(h.events, e, id);
    assert EventsOf(u.events, id) == EventsOf(h.events, id);
  }

  lemma HistoryGrows(events: seq<Event>, id: TaskId, current: TaskState, e: Event)
    requires HistoryOk(events, id, current) && !Terminal(current)
    requires e.task == id && e.sequence == |events| + 1 && (e.state.Some? ==> Allowed(current, e.state.value))
    ensures HistoryOk(events + [e], id, if e.state.Some? then e.state.value else current)
  {
    var after := events + [e];
    assert after[..|events|] == events;
    assert events[|events| - 1].state.Some? ==> LastState(events) == events[|events| - 1].state;
    MovesGrow(events, current, e);
  }

  lemma MovesGrow(events: seq<Event>, current: TaskState, e: Event)
    requires LegalMoves(events) && LastState(events) == Some(current) && (e.state.Some? ==> Allowed(current, e.state.value))
    ensures LegalMoves(events + [e])
  {
    var after := events + [e];
    hide LastState;
    forall i | 0 < i < |after| && after[i].state.Some?
      ensures LastState(after[..i]).Some? && MayFollow(LastState(after[..i]).value, after[i].state.value)
    {
      assert after[..i] == if i < |events| then events[..i] else events;
    }
  }

  lemma EndedOrNot(s: TaskState)
    ensures Terminal(s) <==> s !in {Submitted, Accepted, Working, InputRequired}
  {
    match s
    case Submitted =>
    case Accepted =>
    case Working =>
    case InputRequired =>
    case Completed =>
    case Failed =>
    case Canceled =>
    case Rejected =>
    case DeadLettered =>
  }

  lemma AllowedIsMayFollow(current: TaskState, next: TaskState)
    ensures Allowed(current, next) <==> MayFollow(current, next)
  {
    match next {
      case Submitted =>
      case Accepted =>
      case _ =>
        assert current == Submitted || current == Accepted || current == Working || current == InputRequired || Terminal(current);
    }
  }

  /** Which events a task takes: none once it has ended, and of the others any without a state or whose state may follow. */
  lemma AppendedIff(h: Hub, id: TaskId, kind: nat, state: Option<TaskState>, now: nat)
    ensures var outcome := AppendEvent(h, id, kind, state, now);
            && (outcome == Error(TaskNotFound) <==> id !in h.tasks)
            && (outcome == Error(TaskIsTerminal) <==>
                  id in h.tasks && h.tasks[id].state in {Completed, Failed, Canceled, Rejected, DeadLettered})
            && (outcome.Ok? <==>
                  id in h.tasks && h.tasks[id].state in {Submitted, Accepted, Working, InputRequired}
                  && (state.Some? ==> MayFollow(h.tasks[id].state, state.value)))
  {
    if id in h.tasks {
      var current := h.tasks[id].state;
      EndedOrNot(current);
      if state.Some? { AllowedIsMayFollow(current, state.value); }
    }
    hide Allowed;
  }

  lemma AppendKeepsTask(h: Hub, id: TaskId, kind: nat, state: Option<TaskState>, now: nat)
    requires TaskOk(h, id) && AppendEvent(h, id, kind, state, now).Ok?
    ensures TaskOk(AppendEvent(h, id, kind, state, now).value, id)
  {
    var events := EventsOf(h.events, id);
    var u := AppendEvent(h, id, kind, state, now).value;
    LastSequenceOf(h.events, id);
    var e := Event(id, |events| + 1, kind, state);
    EventsSnoc(h.events, e, id);
    HistoryGrows(events, id, h.tasks[id].state, e);
    assert EventsOf(u.events, id) == events + [e];
  }

  lemma CreateAppends(h: Hub, id: TaskId, task: Task)
    requires TaskOk(h, id) && InsertTask(h, id, task).Ok?
    ensures var u := InsertTask(h, id, task).value;
            && u.events == h.events + [Event(id, 1, 0, Some(task.state))] && u.tasks == h.tasks[id := task]
            && u.outbox == if Terminal(task.state) then h.outbox[OperationId(id, 1) := OutboxRow(task.state, task.createdAt, None)]
                           else h.outbox
  {
    LastSequenceOf(h.events, id);
    hide EventsOf, LastSequence;
  }

  lemma CreateKeepsTask(h: Hub, id: TaskId, task: Task)
    requires TaskOk(h, id) && InsertTask(h, id, task).Ok?
    ensures TaskOk(InsertTask(h, id, task).value, id)
  {
    var e := Event(id, 1, 0, Some(task.state));
    assert HistoryOk([e], id, task.state);
    CreateAppends(h, id, task);
    EventsSnoc(h.events, e, id);
    hide InsertTask, EventsOf, HistoryOk;
  }

  lemma AcknowledgeKeeps(h: Hub, op: OperationId, now: nat)
    requires HubOk(h)
    ensures HubOk(AcknowledgeOutbox(h, op, now))
  {
    forall id ensures TaskOk(AcknowledgeOutbox(h, op, now), id) {
      assert TaskOk(h, id);
    }
  }

  lemma StepKeeps(h: Hub, step: Step)
    requires HubOk(h)
    ensures HubOk(Next(h, step))
  {
    var u := Next(h, step);
    match step
    case Acknowledge(op, now) => AcknowledgeKeeps(h, op, now);
    case Create(id, task) =>
      if InsertTask(h, id, task).Ok? {
        forall other ensures TaskOk(u, other) {
          assert TaskOk(h, other);
          if other == id { CreateKeepsTask(h, id, task); } else { OtherTaskOk(h, u, u.events[|h.events|], other); }
        }
      }
    case Append(id, kind, state, now) =>
      if AppendEvent(h, id, kind, state, now).Ok? {
        forall other ensures TaskOk(u, other) {
          assert TaskOk(h, other);
          if other == id { AppendKeepsTask(h, id, kind, state, now); } else { OtherTaskOk(h, u, u.events[|h.events|], other); }
        }
      }
  }

  lemma {:induction false} RunsKeep(steps: seq<Step>)
    ensures HubOk(Execute(EMPTY, steps))
  {
    if steps != [] {
      RunsKeep(steps[..|steps| - 1]);
      StepKeeps(Execute(EMPTY, steps[..|steps| - 1]), steps[|steps| - 1]);
    }
  }

  /**
   * The lifecycle of a task over any run: it names both agents, its events are numbered 1..n, each state may follow the one
   * before it, its own state is that of its last state-bearing event, only the last event can be terminal, and its outbox row exists iff it is terminal and names that
   * event.
   */
  lemma TaskLifecycle(steps: seq<Step>, id: TaskId)
    requires id in Execute(EMPTY, steps).tasks
    ensures var h := Execute(EMPTY, steps);
            var events := EventsOf(h.events, id);
            var state := h.tasks[id].state;
            var ended := state in {Completed, Failed, Canceled, Rejected, DeadLettered};
            && HistoryOk(events, id, state) && h.tasks[id].from.Some? && h.tasks[id].to.Some?
            && (forall op :: op in h.outbox && op.task == id <==> ended && op == OperationId(id, |events|))
            && (ended ==> h.outbox[OperationId(id, |events|)].state == state)
  {
    RunsKeep(steps);
    assert TaskOk(Execute(EMPTY, steps), id);
  }

  ghost predicate KeysUnique(tasks: map<TaskId, Task>) {
    forall a, b :: a in tasks && b in tasks && tasks[a].key.Some? && tasks[a].key == tasks[b].key ==> a == b
  }

  lemma KeysUniqueStep(h: Hub, step: Step)
    requires KeysUnique(h.tasks)
    ensures KeysUnique(Next(h, step).tasks)
  {
    hide LastSequence, Allowed;
  }

  /** In every run an idempotency key belongs to at most one task. */
  lemma {:induction false} OneTaskPerKey(steps: seq<Step>)
    ensures KeysUnique(Execute(EMPTY, steps).tasks)
  {
    hide Next;
    if steps != [] {
      OneTaskPerKey(steps[..|steps| - 1]);
      KeysUniqueStep(Execute(EMPTY, steps[..|steps| - 1]), steps[|steps| - 1]);
    }
  }

  lemma TerminalStep(h: Hub, step: Step, id: TaskId)
    requires id in h.tasks && Terminal(h.tasks[id].state)
    ensures var u := Next(h, step);
            id in u.tasks && u.tasks[id] == h.tasks[id] && EventsOf(u.events, id) == EventsOf(h.events, id)
  {
    hide EventsOf, LastSequence;
    var u := Next(h, step);
    assert u.events == h.events || (u.events == h.events + [u.events[|h.events|]] && u.events[|h.events|].task != id);
    if u.events != h.events {
      EventsSnoc(h.events, u.events[|h.events|], id);
    }
  }

  /** A terminal task never changes again and gains no event. */
  lemma {:induction false} TerminalIsFinal(h: Hub, steps: seq<Step>, id: TaskId)
    requires id in h.tasks && Terminal(h.tasks[id].state)
    ensures var u := Execute(h, steps);
            id in u.tasks && u.tasks[id] == h.tasks[id] && EventsOf(u.events, id) == EventsOf(h.events, id)
  {
    if steps != [] {
      TerminalIsFinal(h, steps[..|steps| - 1], id);
      TerminalStep(Execute(h, steps[..|steps| - 1]), steps[|steps| - 1], id);
    }
  }
}
