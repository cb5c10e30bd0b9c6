/**
 The domain types and the Postgres tables, as a value.  Every statement that
 internal/storage/postgres/store.go issues is one function on that value, and
 the constraints of migrations/001_init.up.sql decide when it is refused.
 */
module Storage {
  import opened Prelude

  datatype TaskState = Pending | Running | Completed | Failed | Timeout {
    predicate Terminal() { Completed? || Failed? || Timeout? }
  }

  /** `Unlisted` stands for every text outside the CHECK set of events.type. */
  datatype EventType =
    | TaskStarted | LlmCall | ToolCall | PolicyBlocked
    | TaskCompleted | TaskFailed | TaskTimeout
    | Unlisted(text: string)
  {
    predicate Terminal() { TaskCompleted? || TaskFailed? || TaskTimeout? }

    /** The state an event of this type asks for, if any. */
    function Target(): Option<TaskState> {
      match this
      case TaskStarted => Some(Running)
      case TaskCompleted => Some(Completed)
      case TaskFailed => Some(Failed)
      case TaskTimeout => Some(Timeout)
      case _ => None
    }
  }

  /** SHA-256 as a free constructor: an abstract injective function. */
  datatype Digest = Sha256(text: string)

  datatype Skill = Skill(name: string, entrypoint: string, requiredModels: seq<string>)

  datatype PolicyContext = PolicyContext(user: string, team: string, modelAllowed: seq<string>)

  datatype Task = Task(
    id: string, skillName: string, parameters: string, context: PolicyContext,
    runtime: string, state: TaskState, deadlineSecs: int, createdAt: int)

  datatype Event = Event(id: string, taskId: string, kind: EventType, payload: string, createdAt: int)

  datatype TokenRow = TokenRow(digest: Digest, revoked: bool)

  const INT32_MAX := 0x7fff_ffff

  /** The four tables; `events` is in insertion order. */
  datatype Db = Db(
    skills: map<string, Skill>, tasks: map<string, Task>,
    tokens: map<string, TokenRow>, events: seq<Event>)
  {
    predicate HasEvent(id: string) {
      exists i :: 0 <= i < |events| && events[i].id == id
    }

    /** The token of task `t` exists and has not been revoked. */
    predicate Live(t: string) { t in tokens && !tokens[t].revoked }

    predicate Revoked(t: string) { t in tokens && tokens[t].revoked }

    /** An event of type `k` is recorded for task `t`. */
    ghost predicate Logged(t: string, k: EventType) {
      exists i :: 0 <= i < |events| && events[i].taskId == t && events[i].kind == k
    }
  }

  /** The event log of one task, in insertion order. */
  function LogOf(events: seq<Event>, t: string): (log: seq<Event>)
  {
    if events == [] then []
    else
      var last := events[|events| - 1];
      LogOf(events[..|events| - 1], t) + (if last.taskId == t then [last] else [])
  }

  lemma LogOfAppend(events: seq<Event>, e: Event, t: string)
    ensures LogOf(events + [e], t) == LogOf(events, t) + (if e.taskId == t then [e] else [])
  {
  }

  // The statements.  None is a refused statement, which has no effect.

  function UpsertSkill(db: Db, s: Skill): Db {
    db.(skills := db.skills[s.name := s])
  }

  function InsertTask(db: Db, t: Task): Option<Db> {
    if t.id in db.tasks || t.skillName !in db.skills || !(-INT32_MAX - 1 <= t.deadlineSecs <= INT32_MAX)
    then None
    else Some(db.(tasks := db.tasks[t.id := t]))
  }

  function SetTaskState(db: Db, id: string, state: TaskState): Option<Db> {
    if id !in db.tasks then None
    else Some(db.(tasks := db.tasks[id := db.tasks[id].(state := state)]))
  }

  function AppendEvent(db: Db, e: Event): Option<Db> {
    if db.HasEvent(e.id) || e.taskId !in db.tasks || e.kind.Unlisted? then None
    else Some(db.(events := db.events + [e]))
  }

  /** The upsert: a row that is already there is overwritten and un-revoked. */
  function StoreAgentToken(db: Db, id: string, digest: Digest): Option<Db> {
    if id !in db.tasks then None
    else Some(db.(tokens := db.tokens[id := TokenRow(digest, false)]))
  }

  function VerifyAgentToken(db: Db, id: string, presented: Digest): bool {
    db.Live(id) && db.tokens[id].digest == presented
  }

  /** An UPDATE that touches no row is not an error. */
  function RevokeAgentToken(db: Db, id: string): Option<Db> {
    if id !in db.tokens then Some(db)
    else Some(db.(tokens := db.tokens[id := db.tokens[id].(revoked := true)]))
  }

  /** The tables after the call, and whether the caller saw success. */
  datatype Reply = Reply(db: Db, ok: bool)

  function Exec(db: Db, effect: Option<Db>, fault: Fault): Reply {
    match fault
    case LostBefore => Reply(db, false)
    case Healthy => if effect.Some? then Reply(effect.value, true) else Reply(db, false)
    case LostAfter => Reply(if effect.Some? then effect.value else db, false)
  }
}
