/** The event contract of internal/events/events.go: tasks, envelopes, the codec and Decode. */
module Events {
  import opened Base

  /** A status string; the three the server accepts are named, any other text is kept. */
  datatype Status = Todo | InProgress | Done | Other(text: string)

  /** All times are integers, in nanoseconds. */
  datatype Task = Task(
    id: int, projectId: int, assignee: Option<int>, assigneeName: string, title: string,
    description: string, status: Status, version: int, createdAt: int, updatedAt: int)

  datatype EventType = TaskCreated | TaskStatusChanged | OtherType(text: string)

  datatype Envelope = Envelope(
    eventId: string, eventType: EventType, schemaVersion: int, projectId: int, taskId: int,
    taskVersion: int, occurredAt: int, actor: string, task: Task)

  /** Stored or transmitted bytes: either the encoding of an envelope or bytes no decoder accepts.
      The codec round-trips by construction. */
  datatype Payload = Encoded(event: Envelope) | Malformed(raw: string)

  datatype DecodeError = NotJson | InvalidEnvelope

  const CURRENT_SCHEMA_VERSION := 1

  predicate ValidStatus(s: Status) {
    s.Todo? || s.InProgress? || s.Done?
  }

  function NewTaskEvent(eventId: string, eventType: EventType, actor: string, task: Task, now: int): Envelope {
    Envelope(eventId, eventType, CURRENT_SCHEMA_VERSION, task.projectId, task.id, task.version, now, actor, task)
  }

  function Marshal(event: Envelope): Payload {
    Encoded(event)
  }

  function Decode(payload: Payload): Result<Envelope, DecodeError> {
    match payload
    case Malformed(_) => Err(NotJson)
    case Encoded(event) =>
      if event.schemaVersion != CURRENT_SCHEMA_VERSION || event.eventId == "" || event.projectId < 1 || event.taskId < 1
      then Err(InvalidEnvelope)
      else Ok(event)
  }

  /** Decoding undoes encoding, and accepts only the current schema with an id, a project and a task. */
  lemma {:induction false} DecodeAccepts(payload: Payload)
    ensures Decode(payload).Ok? ==> Marshal(Decode(payload).value) == payload
    ensures Decode(payload).Ok? <==>
              && payload.Encoded? && payload.event.schemaVersion == 1 && payload.event.eventId != ""
              && payload.event.projectId >= 1 && payload.event.taskId >= 1
  {
  }

  /** The header of a new event agrees with its task. */
  lemma {:induction false} NewTaskEventAgrees(
    eventId: string, eventType: EventType, actor: string, task: Task, now: int)
    ensures NewTaskEvent(eventId, eventType, actor, task, now)
         == Envelope(eventId, eventType, 1, task.projectId, task.id, task.version, now, actor, task)
    ensures Decode(Marshal(NewTaskEvent(eventId, eventType, actor, task, now))).Ok?
       <==> eventId != "" && task.projectId >= 1 && task.id >= 1
  {
  }

  /** What the two write transactions put in the outbox: the header agrees with the task it carries. */
  ghost predicate WellFormedEvent(e: Envelope) {
    && e.eventId != ""
    && e.schemaVersion == CURRENT_SCHEMA_VERSION
    && e.projectId == e.task.projectId >= 1
    && e.taskId == e.task.id >= 1
    && e.taskVersion == e.task.version
    && (e.eventType.TaskCreated? || e.eventType.TaskStatusChanged?)
  }
}
