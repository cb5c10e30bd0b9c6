/**
 The list endpoints: the handlers' clamping of limit and offset, the builders that
 turn a filter into a numbered-placeholder query, and what such a query means on a
 table.
 */
module Queries {
  import opened Prelude
  import opened Storage

  // ---------------------------------------------------------------- Queries and their meaning

  /** A state column's text: one of the five, or any other text a caller may send. */
  datatype StateText = Listed(state: TaskState) | UnlistedState(text: string)

  datatype Value =
    | OfState(state: StateText)
    | OfText(text: string)
    | OfKind(kind: EventType)
    | OfTime(time: int)
    | OfInt(n: int)

  datatype Column = ColState | ColTaskId | ColType | ColCreatedAt

  /** `col = $ph` or `col >= $ph`. */
  datatype Clause = Equal(col: Column, ph: nat) | AtLeast(col: Column, ph: nat)

  /** SELECT ... WHERE clauses ORDER BY created_at DESC LIMIT $limitPh OFFSET $offsetPh. */
  datatype Query = Query(where: seq<Clause>, limitPh: nat, offsetPh: nat)

  datatype Row = OfTask(task: Task) | OfEvent(event: Event) {
    function CreatedAt(): int { if OfTask? then task.createdAt else event.createdAt }

    function Cell(c: Column): Option<Value> {
      match c
      case ColCreatedAt => Some(OfTime(CreatedAt()))
      case ColState => if OfTask? then Some(OfState(Listed(task.state))) else None
      case ColTaskId => if OfEvent? then Some(OfText(event.taskId)) else None
      case ColType => if OfEvent? then Some(OfKind(event.kind)) else None
    }
  }

  /** $ph, counted from 1. */
  function Arg(args: seq<Value>, ph: nat): Option<Value> {
    if 1 <= ph <= |args| then Some(args[ph - 1]) else None
  }

  predicate Holds(c: Clause, args: seq<Value>, row: Row) {
    var cell, arg := row.Cell(c.col), Arg(args, c.ph);
    && cell.Some? && arg.Some?
    && match c
       case Equal(_, _) => cell.value == arg.value
       case AtLeast(_, _) => cell.value.OfTime? && arg.value.OfTime? && cell.value.time >= arg.value.time
  }

  predicate AllHold(where: seq<Clause>, args: seq<Value>, row: Row) {
    forall i | 0 <= i < |where| :: Holds(where[i], args, row)
  }

  predicate Selects(q: Query, args: seq<Value>, row: Row) {
    AllHold(q.where, args, row)
  }

  function Filter(q: Query, args: seq<Value>, table: seq<Row>): seq<Row> {
    if table == [] then []
    else
      Filter(q, args, table[..|table| - 1]) +
      (if Selects(q, args, table[|table| - 1]) then [table[|table| - 1]] else [])
  }

  ghost predicate Descending(rows: seq<Row>) {
    forall i, j :: 0 <= i < j < |rows| ==> rows[i].CreatedAt() >= rows[j].CreatedAt()
  }

  /** `order` is one way ORDER BY created_at DESC may arrange `rows`; ties are free. */
  ghost predicate Ordering(order: seq<Row>, rows: seq<Row>) {
    multiset(order) == multiset(rows) && Descending(order)
  }

  /** Drop `offset` rows, then take `limit`. */
  function Page(order: seq<Row>, limit: nat, offset: nat): seq<Row> {
    var rest := if offset <= |order| then order[offset..] else [];
    if limit <= |rest| then rest[..limit] else rest
  }

  /** `out` is an answer the database may give; a negative limit or offset has none. */
  ghost predicate Answers(q: Query, args: seq<Value>, table: seq<Row>, out: seq<Row>) {
    var limit, offset := Arg(args, q.limitPh), Arg(args, q.offsetPh);
    && limit.Some? && limit.value.OfInt? && limit.value.n >= 0
    && offset.Some? && offset.value.OfInt? && offset.value.n >= 0
    && exists order :: Ordering(order, Filter(q, args, table)) && out == Page(order, limit.value.n, offset.value.n)
  }

  /** The placeholders, read left to right, are $1 .. $n, one per argument. */
  ghost predicate Numbered(q: Query, args: seq<Value>) {
    && |args| == |q.where| + 2
    && (forall i :: 0 <= i < |q.where| ==> q.where[i].ph == i + 1)
    && q.limitPh == |q.where| + 1 && q.offsetPh == |q.where| + 2
  }

  // ---------------------------------------------------------------- Filters and builders

  datatype TaskFilter = TaskFilter(state: Option<StateText>, limit: int, offset: int)

  datatype EventFilter = EventFilter(
    taskId: Option<string>, kind: Option<EventType>, since: Option<int>, limit: int, offset: int)

  predicate WantsTask(f: TaskFilter, row: Row) {
    row.OfTask? && (f.state.Some? ==> Listed(row.task.state) == f.state.value)
  }

  predicate WantsEvent(f: EventFilter, row: Row) {
    && row.OfEvent?
    && (f.taskId.Some? ==> row.event.taskId == f.taskId.value)
    && (f.kind.Some? ==> row.event.kind == f.kind.value)
    && (f.since.Some? ==> row.event.createdAt >= f.since.value)
  }

  function LimitOr(limit: int, fallback: nat): nat {
    if limit <= 0 then fallback else limit
  }

  const TASK_LIMIT := 50
  const EVENT_LIMIT := 500

  /** Well numbered, selecting exactly the wanted tasks, with the limit and the offset of `f`. */
  ghost predicate IsTaskQuery(f: TaskFilter, q: Query, args: seq<Value>) {
    && Numbered(q, args)
    && (forall row: Row :: row.OfTask? ==> (Selects(q, args, row) <==> WantsTask(f, row)))
    && Arg(args, q.limitPh) == Some(OfInt(if f.limit <= 0 then 50 else f.limit))
    && Arg(args, q.offsetPh) == Some(OfInt(f.offset))
  }

  /** Likewise for events. */
  ghost predicate IsEventQuery(f: EventFilter, q: Query, args: seq<Value>) {
    && Numbered(q, args)
    && (forall row: Row :: row.OfEvent? ==> (Selects(q, args, row) <==> WantsEvent(f, row)))
    && Arg(args, q.limitPh) == Some(OfInt(if f.limit <= 0 then 500 else f.limit))
    && Arg(args, q.offsetPh) == Some(OfInt(f.offset))
  }

  /** The query and arguments that `ListTasks` sends. */
  method BuildListTasks(f: TaskFilter) returns (q: Query, args: seq<Value>)
    ensures IsTaskQuery(f, q, args)
  {
    var where: seq<Clause> := [];
    args := [];
    var argN := 1;
    if f.state.Some? {
      where := where + [Equal(ColState, argN)];
      args := args + [OfState(f.state.value)];
      argN := argN + 1;
    }
    var limit := f.limit;
    if limit <= 0 {
      limit := 50;
    }
    q := Query(where, argN, argN + 1);
    args := args + [OfInt(limit), OfInt(f.offset)];
    assert |where| == 1 ==> where[0] == Equal(ColState, 1) && Arg(args, 1) == Some(OfState(f.state.value));
  }

  /** The conditions collected so far, on the arguments collected so far, mean the filter `g`. */
  ghost predicate Collected(where: seq<Clause>, args: seq<Value>, g: EventFilter) {
    && |args| == |where|
    && (forall i :: 0 <= i < |where| ==> where[i].ph == i + 1)
    && (forall row: Row :: row.OfEvent? ==> (AllHold(where, args, row) <==> WantsEvent(g, row)))
  }

  /** Arguments appended later do not disturb the placeholders already numbered. */
  lemma LaterArgs(where: seq<Clause>, args: seq<Value>, more: seq<Value>, row: Row)
    requires forall i :: 0 <= i < |where| ==> where[i].ph <= |args|
    ensures AllHold(where, args + more, row) <==> AllHold(where, args, row)
  {
  }

  lemma CollectOne(where: seq<Clause>, args: seq<Value>, g: EventFilter, c: Clause, v: Value, g': EventFilter)
    requires Collected(where, args, g) && c.ph == |where| + 1
    requires forall row: Row :: row.OfEvent? ==>
                                 (WantsEvent(g', row) <==> WantsEvent(g, row) && Holds(c, args + [v], row))
    ensures Collected(where + [c], args + [v], g')
  {
    forall row: Row | row.OfEvent?
      ensures AllHold(where + [c], args + [v], row) <==> WantsEvent(g', row)
    {
      LaterArgs(where, args, [v], row);
      AllHoldAppend(where, c, args + [v], row);
    }
  }

  lemma AllHoldAppend(where: seq<Clause>, c: Clause, args: seq<Value>, row: Row)
    ensures AllHold(where + [c], args, row) <==> AllHold(where, args, row) && Holds(c, args, row)
  {
    if AllHold(where + [c], args, row) {
      assert (where + [c])[|where|] == c;
      forall i | 0 <= i < |where| ensures Holds(where[i], args, row) {
        assert (where + [c])[i] == where[i];
      }
    }
  }

  /** The query and arguments that `ListEvents` sends. */
  method BuildListEvents(f: EventFilter) returns (q: Query, args: seq<Value>)
    ensures IsEventQuery(f, q, args)
  {
    var where: seq<Clause> := [];
    args := [];
    var argN := 1;
    ghost var g := EventFilter(None, None, None, f.limit, f.offset);
    if f.taskId.Some? {
      CollectOne(where, args, g, Equal(ColTaskId, argN), OfText(f.taskId.value), g.(taskId := f.taskId));
      where := where + [Equal(ColTaskId, argN)];
      args := args + [OfText(f.taskId.value)];
      argN := argN + 1;
    }
    g := g.(taskId := f.taskId);
    if f.kind.Some? {
      CollectOne(where, args, g, Equal(ColType, argN), OfKind(f.kind.value), g.(kind := f.kind));
      where := where + [Equal(ColType, argN)];
      args := args + [OfKind(f.kind.value)];
      argN := argN + 1;
    }
    g := g.(kind := f.kind);
    if f.since.Some? {
      CollectOne(where, args, g, AtLeast(ColCreatedAt, argN), OfTime(f.since.value), g.(since := f.since));
      where := where + [AtLeast(ColCreatedAt, argN)];
      args := args + [OfTime(f.since.value)];
      argN := argN + 1;
    }
    g := g.(since := f.since);
    assert Collected(where, args, f);
    var limit := f.limit;
    if limit <= 0 {
      limit := 500;
    }
    CollectedQuery(where, args, f, limit);
    q := Query(where, argN, argN + 1);
    args := args + [OfInt(limit), OfInt(f.offset)];
  }

  /** The last two arguments complete the query. */
  lemma CollectedQuery(where: seq<Clause>, args: seq<Value>, f: EventFilter, limit: int)
    requires Collected(where, args, f)
    ensures var q := Query(where, |where| + 1, |where| + 2);
            var all := args + [OfInt(limit), OfInt(f.offset)];
            && Numbered(q, all)
            && (forall row: Row :: row.OfEvent? ==> (Selects(q, all, row) <==> WantsEvent(f, row)))
            && Arg(all, q.limitPh) == Some(OfInt(limit)) && Arg(all, q.offsetPh) == Some(OfInt(f.offset))
  {
  }

  // ---------------------------------------------------------------- Queries mean their filters

  ghost function TaskTest(f: TaskFilter): Row -> bool { row => WantsTask(f, row) }

  ghost function EventTest(f: EventFilter): Row -> bool { row => WantsEvent(f, row) }

  /** Rows that meet `wanted`, in table order. */
  ghost function Wanted(table: seq<Row>, wanted: Row -> bool): seq<Row> {
    if table == [] then []
    else
      Wanted(table[..|table| - 1], wanted) +
      (if wanted(table[|table| - 1]) then [table[|table| - 1]] else [])
  }

  /** Filter, sort newest first, drop `offset`, take `limit`. */
  ghost predicate Listing(table: seq<Row>, wanted: Row -> bool, limit: nat, offset: int, out: seq<Row>) {
    offset >= 0 && exists order :: Ordering(order, Wanted(table, wanted)) && out == Page(order, limit, offset)
  }

  lemma {:induction false} FilterIsWanted(q: Query, args: seq<Value>, table: seq<Row>, wanted: Row -> bool)
    requires forall i :: 0 <= i < |table| ==> (Selects(q, args, table[i]) <==> wanted(table[i]))
    ensures Filter(q, args, table) == Wanted(table, wanted)
  {
    if table != [] {
      FilterIsWanted(q, args, table[..|table| - 1], wanted);
    }
  }

  /**
   A numbered query whose conditions mean `wanted` and whose last two arguments are
   limit and offset has exactly the answers of the listing.
   */
  lemma QueryMeansListing(q: Query, args: seq<Value>, table: seq<Row>, wanted: Row -> bool,
                          limit: nat, offset: int, out: seq<Row>)
    requires forall i :: 0 <= i < |table| ==> (Selects(q, args, table[i]) <==> wanted(table[i]))
    requires Arg(args, q.limitPh) == Some(OfInt(limit)) && Arg(args, q.offsetPh) == Some(OfInt(offset))
    ensures Answers(q, args, table, out) <==> Listing(table, wanted, limit, offset, out)
  {
    FilterIsWanted(q, args, table, wanted);
  }

  ghost predicate TaskTable(table: seq<Row>) {
    forall i :: 0 <= i < |table| ==> table[i].OfTask?
  }

  ghost predicate EventTable(table: seq<Row>) {
    forall i :: 0 <= i < |table| ==> table[i].OfEvent?
  }

  /** ListTasks: for every filter, every task table and every result, query and listing agree. */
  method ListTasks(f: TaskFilter, ghost table: seq<Row>) returns (q: Query, args: seq<Value>)
    requires TaskTable(table)
    ensures IsTaskQuery(f, q, args)
    ensures forall out :: Answers(q, args, table, out) <==>
                          Listing(table, TaskTest(f), LimitOr(f.limit, TASK_LIMIT), f.offset, out)
  {
    q, args := BuildListTasks(f);
    forall out ensures Answers(q, args, table, out) <==>
                       Listing(table, TaskTest(f), LimitOr(f.limit, TASK_LIMIT), f.offset, out) {
      QueryMeansListing(q, args, table, TaskTest(f), LimitOr(f.limit, TASK_LIMIT), f.offset, out);
    }
  }

  /** ListEvents, likewise. */
  method ListEvents(f: EventFilter, ghost table: seq<Row>) returns (q: Query, args: seq<Value>)
    requires EventTable(table)
    ensures IsEventQuery(f, q, args)
    ensures forall out :: Answers(q, args, table, out) <==>
                          Listing(table, EventTest(f), LimitOr(f.limit, EVENT_LIMIT), f.offset, out)
  {
    q, args := BuildListEvents(f);
    forall out ensures Answers(q, args, table, out) <==>
                       Listing(table, EventTest(f), LimitOr(f.limit, EVENT_LIMIT), f.offset, out) {
      QueryMeansListing(q, args, table, EventTest(f), LimitOr(f.limit, EVENT_LIMIT), f.offset, out);
    }
  }

  // ---------------------------------------------------------------- Handlers

  const DEFAULT_LIMIT := 50
  const MAX_PAGE_SIZE := 100

  /** The limit a handler passes on; None is an absent or unparsable query parameter. */
  function ClampedLimit(limit: Option<int>): nat {
    if limit.None? || limit.value <= 0 then DEFAULT_LIMIT
    else if limit.value > MAX_PAGE_SIZE then MAX_PAGE_SIZE
    else limit.value
  }

  /** handleListTasks, up to the store call: the filter is overwritten in place. */
  method HandleListTasks(state: Option<StateText>, limit: Option<int>, offset: Option<int>) returns (f: TaskFilter)
    ensures f.state == state
    ensures f.limit == ClampedLimit(limit) && 1 <= f.limit <= 100
    ensures limit.None? || limit.value <= 0 ==> f.limit == 50
    ensures limit.Some? && limit.value > 0 ==> f.limit == if limit.value <= 100 then limit.value else 100
    ensures f.offset >= 0 && (offset.Some? && offset.value >= 0 ==> f.offset == offset.value)
    ensures offset.None? || offset.value < 0 ==> f.offset == 0
  {
    f := TaskFilter(None, 50, 0);
    if state.Some? {
      f := f.(state := state);
    }
    if limit.Some? && limit.value > 0 {
      f := f.(limit := limit.value);
    }
    if offset.Some? && offset.value >= 0 {
      f := f.(offset := offset.value);
    }
    if f.limit > MAX_PAGE_SIZE {
      f := f.(limit := MAX_PAGE_SIZE);
    }
  }

  /** handleListEvents, likewise. */
  method HandleListEvents(taskId: Option<string>, kind: Option<EventType>, since: Option<int>,
                          limit: Option<int>, offset: Option<int>) returns (f: EventFilter)
    ensures f.taskId == taskId && f.kind == kind && f.since == since
    ensures f.limit == ClampedLimit(limit) && 1 <= f.limit <= 100
    ensures limit.None? || limit.value <= 0 ==> f.limit == 50
    ensures limit.Some? && limit.value > 0 ==> f.limit == if limit.value <= 100 then limit.value else 100
    ensures f.offset >= 0 && (offset.Some? && offset.value >= 0 ==> f.offset == offset.value)
    ensures offset.None? || offset.value < 0 ==> f.offset == 0
  {
    f := EventFilter(None, None, None, 50, 0);
    if taskId.Some? {
      f := f.(taskId := taskId);
    }
    if kind.Some? {
      f := f.(kind := kind);
    }
    if since.Some? {
      f := f.(since := since);
    }
    if limit.Some? && limit.value > 0 {
      f := f.(limit := limit.value);
    }
    if offset.Some? && offset.value >= 0 {
      f := f.(offset := offset.value);
    }
    if f.limit > MAX_PAGE_SIZE {
      f := f.(limit := MAX_PAGE_SIZE);
    }
  }
}
