/** Tasks, their events and the terminal outbox as an object: each method is one transaction on its tables. */
module HubStore {
  import opened Base
  import opened Tasks

  class Store {
    var tasks: map<TaskId, Task>
    var events: seq<Event>
    var outbox: map<OperationId, OutboxRow>

    function Contents(): Hub
      reads this
    {
      Hub(tasks, events, outbox)
    }

    ghost predicate Valid()
      reads this
    {
      HubOk(Contents())
    }

    constructor ()
      ensures Valid() && Contents() == EMPTY
    {
      tasks, events, outbox := map[], [], map[];
      new;
      RunsKeep([]);
    }

    /** `SELECT COALESCE(MAX(sequence), 0) + 1`. */
    method NextSequence(task: TaskId) returns (sequence: nat)
      ensures sequence == LastSequence(events, task) + 1
    {
      var largest := 0;
      for i := 0 to |events|
        invariant largest == LastSequence(events[..i], task)
      {
        assert events[..i + 1][..i] == events[..i];
        if events[i].task == task && events[i].sequence > largest {
          largest := events[i].sequence;
        }
      }
      assert events[..|events|] == events;
      sequence := largest + 1;
    }

    method AppendRow(task: TaskId, kind: nat, state: Option<TaskState>, now: nat) returns (sequence: nat)
      modifies this`events, this`outbox
      ensures Contents() == AppendEventRow(old(Contents()), task, kind, state, now)
      ensures sequence == LastSequence(old(events), task) + 1
    {
      sequence := NextSequence(task);
      events := events + [Event(task, sequence, kind, state)];
      var op := OperationId(task, sequence);
      if state.Some? && Terminal(state.value) && op !in outbox {
        outbox := outbox[op := OutboxRow(state.value, now, None)];
      }
    }

    /** A known idempotency key returns its task and inserts nothing. */
    method CreateTask(id: TaskId, task: Task) returns (result: Result<TaskId>, inserted: bool)
      requires Valid()
      modifies this
      ensures Valid()
      ensures KeyTaken(old(Contents()), task.key) ==>
                !inserted && result.Ok? && result.value in old(tasks) && old(tasks)[result.value].key == task.key
      ensures !KeyTaken(old(Contents()), task.key) ==>
                match InsertTask(old(Contents()), id, task)
                case Ok(h) => inserted && result == Ok(id) && Contents() == h
                case Error(error) => !inserted && result == Result.Error(error)
      ensures !inserted ==> Contents() == old(Contents())
      ensures inserted ==>
                && tasks == old(tasks)[id := task] && events == old(events) + [Event(id, 1, 0, Some(task.state))]
                && outbox == (if task.state in {Completed, Failed, Canceled, Rejected, DeadLettered}
                              then old(outbox)[OperationId(id, 1) := OutboxRow(task.state, task.createdAt, None)]
                              else old(outbox))
      ensures !KeyTaken(old(Contents()), task.key) ==>
                && (inserted <==> task.from.Some? && task.to.Some? && id !in old(tasks))
                && (result == Error(MissingAgent) <==> task.from.None? || task.to.None?)
    {
      if task.key.Some? {
        var known := set t | t in tasks && tasks[t].key == task.key;
        if known != {} {
          var t :| t in known;
          return Ok(t), false;
        }
        assert !KeyTaken(Contents(), task.key) by {
          assert forall t :: t in tasks && tasks[t].key == task.key ==> t in known;
        }
      }
      if task.from.None? || task.to.None? {
        return Error(MissingAgent), false;
      }
      if id in tasks {
        return Error(IntegrityViolation), false;
      }
      StepKeeps(Contents(), Create(id, task));
      assert TaskOk(Contents(), id);
      CreateAppends(Contents(), id, task);
      tasks := tasks[id := task];
      var _ := AppendRow(id, 0, Some(task.state), task.createdAt);
      return Ok(id), true;
    }

    method AppendTaskEvent(id: TaskId, kind: nat, state: Option<TaskState>, now: nat) returns (result: Result<nat>)
      requires Valid()
      modifies this
      ensures Valid()
      ensures match AppendEvent(old(Contents()), id, kind, state, now)
              case Ok(h) => Contents() == h && result == Ok(|EventsOf(old(events), id)| + 1)
              case Error(error) => Contents() == old(Contents()) && result == Result.Error(error)
      ensures result.Ok? ==>
                && id in old(tasks) && events == old(events) + [Event(id, result.value, kind, state)]
                && tasks == (if state.None? then old(tasks)
                             else old(tasks)[id := old(tasks)[id].(state := state.value, updatedAt := now)])
                && outbox == (if state.Some? && state.value in {Completed, Failed, Canceled, Rejected, DeadLettered}
                              then old(outbox)[OperationId(id, result.value) := OutboxRow(state.value, now, None)]
                              else old(outbox))
    {
      if id !in tasks {
        return Error(TaskNotFound);
      }
      if Terminal(tasks[id].state) {
        return Error(TaskIsTerminal);
      }
      if state.Some? && !Allowed(tasks[id].state, state.value) {
        return Error(InvalidTransition);
      }
      StepKeeps(Contents(), Append(id, kind, state, now));
      assert TaskOk(Contents(), id);
      LastSequenceOf(events, id);
      var sequence := AppendRow(id, kind, state, now);
      if state.Some? {
        tasks := tasks[id := tasks[id].(state := state.value, updatedAt := now)];
      }
      return Ok(sequence);
    }

    method AcknowledgeTerminalOutbox(op: OperationId, now: nat) returns (found: bool)
      requires Valid()
      modifies this`outbox
      ensures Valid()
      ensures Contents() == AcknowledgeOutbox(old(Contents()), op, now)
      ensures found <==> op in old(outbox)
      ensures tasks == old(tasks) && events == old(events) && outbox.Keys == old(outbox.Keys)
      ensures forall other :: other in outbox && other != op ==> outbox[other] == old(outbox)[other]
      ensures found ==>
                outbox[op] == old(outbox)[op].(acknowledgedAt := if old(outbox)[op].acknowledgedAt.Some?
                                                                 then old(outbox)[op].acknowledgedAt else Some(now))
    {
      AcknowledgeKeeps(Contents(), op, now);
      found := op in outbox;
      if found && outbox[op].acknowledgedAt.None? {
        outbox := outbox[op := outbox[op].(acknowledgedAt := Some(now))];
      }
    }
  }
}
