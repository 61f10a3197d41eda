/**
 * The function registry (Sources/Services/FunctionRegistry.swift): a
 * dictionary of definitions keyed by id, and the sample definitions.
 */
module Registry {
  import opened Wrappers
  import opened DynamicValue
  import opened FunctionDefinitions

  datatype RegistryError = FunctionNotFound(id: string)

  /** `errorDescription`. */
  function ErrorDescription(e: RegistryError): (d: string)
    ensures d == "Function with id '" + e.id + "' not found"
  {
    match e
    case FunctionNotFound(id) => "Function with id '" + id + "' not found"
  }

  /** Why `execute` threw: the registry's own error, or whatever the executor threw. */
  datatype ExecuteError = RegistryFailure(error: RegistryError) | ExecutorFailure(description: string)

  /** `localizedDescription` of the error `execute` threw. */
  function ExecuteErrorDescription(e: ExecuteError): string {
    match e
    case RegistryFailure(r) => ErrorDescription(r)
    case ExecutorFailure(d) => d
  }

  /** An executor's outcome as `try await function.executor(arguments)` delivers it. */
  function OutcomeResult(o: Outcome): Result<Option<Any>, ExecuteError> {
    match o
    case Returned(v) => Success(v)
    case Threw(d) => Failure(ExecutorFailure(d))
  }

  /** The ids of a list of definitions. */
  function Ids(all: seq<FunctionDefinition>): set<string> {
    set i | 0 <= i < |all| :: all[i].id
  }

  lemma IdsAppend(all: seq<FunctionDefinition>, f: FunctionDefinition)
    ensures Ids(all + [f]) == Ids(all) + {f.id}
  {
    var extended := all + [f];
    assert extended[|all|].id == f.id;
    assert forall i :: 0 <= i < |all| ==> extended[i].id == all[i].id;
  }

  predicate DistinctIds(all: seq<FunctionDefinition>) {
    forall i, j :: 0 <= i < j < |all| ==> all[i].id != all[j].id
  }

  class FunctionRegistry {
    var functions: map<string, FunctionDefinition>

    /** Every definition is stored under its own id. */
    predicate Valid()
      reads this
    {
      forall id :: id in functions ==> functions[id].id == id
    }

    constructor ()
      ensures functions == map[] && Valid()
    {
      functions := map[];
    }

    /** `register`: insert, or replace the definition held under the same id. */
    method Register(f: FunctionDefinition)
      requires Valid()
      modifies this
      ensures functions == old(functions)[f.id := f] && Valid()
    {
      functions := functions[f.id := f];
    }

    /** `unregister`: remove the id if present. */
    method Unregister(id: string)
      requires Valid()
      modifies this
      ensures functions == old(functions) - {id} && Valid()
    {
      functions := functions - {id};
    }

    method Get(id: string) returns (r: Option<FunctionDefinition>)
      ensures r.Some? <==> id in functions
      ensures r.Some? ==> r.value == functions[id]
    {
      if id in functions {
        r := Some(functions[id]);
      } else {
        r := None;
      }
    }

    /** `getAll`: every registered definition once, in some order. */
    method GetAll() returns (all: seq<FunctionDefinition>)
      requires Valid()
      ensures Ids(all) == functions.Keys && DistinctIds(all)
      ensures forall i :: 0 <= i < |all| ==> all[i].id in functions && functions[all[i].id] == all[i]
    {
      all := [];
      var remaining := functions.Keys;
      while remaining != {}
        invariant remaining <= functions.Keys
        invariant Ids(all) == functions.Keys - remaining
        invariant DistinctIds(all)
        invariant forall i :: 0 <= i < |all| ==> all[i].id in functions && functions[all[i].id] == all[i]
        decreases remaining
      {
        var id :| id in remaining;
        assert id !in Ids(all);
        IdsAppend(all, functions[id]);
        all := all + [functions[id]];
        assert all[|all| - 1].id == id;
        remaining := remaining - {id};
      }
    }

    /** `list`: the schema of every registered definition once. */
    method List() returns (schemas: seq<Any>)
      requires Valid()
      ensures (set i | 0 <= i < |schemas| :: SchemaId(schemas[i])) == functions.Keys
      ensures forall i, j :: 0 <= i < j < |schemas| ==> SchemaId(schemas[i]) != SchemaId(schemas[j])
      ensures forall i :: 0 <= i < |schemas| ==>
        SchemaId(schemas[i]) in functions && schemas[i] == Schema(functions[SchemaId(schemas[i])])
    {
      var all := GetAll();
      schemas := [];
      for n := 0 to |all|
        invariant |schemas| == n
        invariant forall i :: 0 <= i < n ==> schemas[i] == Schema(all[i]) && SchemaId(schemas[i]) == all[i].id
      {
        SchemaEncodable(all[n]);
        schemas := schemas + [Schema(all[n])];
      }
      assert forall i :: 0 <= i < |schemas| ==> SchemaId(schemas[i]) == all[i].id;
      assert (set i | 0 <= i < |schemas| :: SchemaId(schemas[i])) == Ids(all);
    }

    /**
     * `execute`: an unknown id fails with functionNotFound; a known one
     * gives exactly what its executor returns or throws.
     */
    method Execute(id: string, arguments: map<string, Any>, uuid: string) returns (r: Result<Option<Any>, ExecuteError>)
      ensures id !in functions ==> r == Failure(RegistryFailure(FunctionNotFound(id)))
      ensures id in functions ==> r == OutcomeResult(functions[id].executor(arguments, uuid))
    {
      if id !in functions {
        return Failure(RegistryFailure(FunctionNotFound(id)));
      }
      var f := functions[id];
      r := OutcomeResult(f.executor(arguments, uuid));
    }
  }

  /** `arguments[key] as? String ?? fallback`. */
  function StringArgument(arguments: map<string, Any>, key: string, fallback: string): (s: string)
    ensures key in arguments && arguments[key].StringValue? ==> s == arguments[key].s
    ensures !(key in arguments && arguments[key].StringValue?) ==> s == fallback
  {
    if key in arguments && arguments[key].StringValue? then arguments[key].s else fallback
  }

  /** `arguments[key] as? Int ?? fallback`. */
  function IntArgument(arguments: map<string, Any>, key: string, fallback: Int64): (i: Int64)
    ensures key in arguments && arguments[key].IntValue? ==> i == arguments[key].i
    ensures !(key in arguments && arguments[key].IntValue?) ==> i == fallback
  {
    if key in arguments && arguments[key].IntValue? then arguments[key].i else fallback
  }

  /** What every sample executor does: return, without throwing, a dictionary AnyCodable can encode. */
  predicate ReturnsDictionary(o: Outcome) {
    o.Returned? && o.value.Some? && o.value.value.DictValue? && Encodable(o.value.value)
  }

  /** The create_calendar_event executor: a fresh event id, and the title, date and duration given or their defaults. */
  function CreateCalendarEvent(arguments: map<string, Any>, uuid: string): (o: Outcome)
    ensures ReturnsDictionary(o)
    ensures o.value.value.entries.Keys == {"success", "eventId", "title", "date", "duration"}
    ensures o.value.value.entries["success"] == BoolValue(true) && o.value.value.entries["eventId"] == StringValue(uuid)
    ensures "title" in arguments && arguments["title"].StringValue? ==> o.value.value.entries["title"] == arguments["title"]
    ensures "date" in arguments && arguments["date"].StringValue? ==> o.value.value.entries["date"] == arguments["date"]
    ensures "duration" in arguments && arguments["duration"].IntValue? ==> o.value.value.entries["duration"] == arguments["duration"]
    ensures !("title" in arguments && arguments["title"].StringValue?) ==> o.value.value.entries["title"] == StringValue("Untitled")
    ensures !("date" in arguments && arguments["date"].StringValue?) ==> o.value.value.entries["date"] == StringValue("")
    ensures !("duration" in arguments && arguments["duration"].IntValue?) ==> o.value.value.entries["duration"] == IntValue(60)
  {
    Returned(Some(DictValue(map[
      "success" := BoolValue(true),
      "eventId" := StringValue(uuid),
      "title" := StringValue(StringArgument(arguments, "title", "Untitled")),
      "date" := StringValue(StringArgument(arguments, "date", "")),
      "duration" := IntValue(IntArgument(arguments, "duration", 60))])))
  }

  /** The get_calendar_events executor: no events, whatever the arguments. */
  function GetCalendarEvents(arguments: map<string, Any>, uuid: string): (o: Outcome)
    ensures ReturnsDictionary(o)
    ensures o.value.value.entries.Keys == {"events", "count"}
    ensures o.value.value.entries["events"] == ArrayValue([]) && o.value.value.entries["count"] == IntValue(0)
  {
    Returned(Some(DictValue(map["events" := ArrayValue([]), "count" := IntValue(0)])))
  }

  /** The create_task executor: a fresh task id, and the title and priority given or their defaults. */
  function CreateTask(arguments: map<string, Any>, uuid: string): (o: Outcome)
    ensures ReturnsDictionary(o)
    ensures o.value.value.entries.Keys == {"success", "taskId", "title", "priority"}
    ensures o.value.value.entries["success"] == BoolValue(true) && o.value.value.entries["taskId"] == StringValue(uuid)
    ensures "title" in arguments && arguments["title"].StringValue? ==> o.value.value.entries["title"] == arguments["title"]
    ensures "priority" in arguments && arguments["priority"].StringValue? ==> o.value.value.entries["priority"] == arguments["priority"]
    ensures !("title" in arguments && arguments["title"].StringValue?) ==> o.value.value.entries["title"] == StringValue("Untitled")
    ensures !("priority" in arguments && arguments["priority"].StringValue?) ==> o.value.value.entries["priority"] == StringValue("medium")
  {
    Returned(Some(DictValue(map[
      "success" := BoolValue(true),
      "taskId" := StringValue(uuid),
      "title" := StringValue(StringArgument(arguments, "title", "Untitled")),
      "priority" := StringValue(StringArgument(arguments, "priority", "medium"))])))
  }

  /** The list_tasks executor: no tasks, whatever the filters. */
  function ListTasks(arguments: map<string, Any>, uuid: string): (o: Outcome)
    ensures ReturnsDictionary(o)
    ensures o.value.value.entries.Keys == {"tasks", "count"}
    ensures o.value.value.entries["tasks"] == ArrayValue([]) && o.value.value.entries["count"] == IntValue(0)
  {
    Returned(Some(DictValue(map["tasks" := ArrayValue([]), "count" := IntValue(0)])))
  }

  /** The complete_task executor: echoes the task id given, "" by default. */
  function CompleteTask(arguments: map<string, Any>, uuid: string): (o: Outcome)
    ensures ReturnsDictionary(o)
    ensures o.value.value.entries.Keys == {"success", "taskId", "completed"}
    ensures o.value.value.entries["success"] == BoolValue(true) && o.value.value.entries["completed"] == BoolValue(true)
    ensures !("taskId" in arguments && arguments["taskId"].StringValue?) ==> o.value.value.entries["taskId"] == StringValue("")
    ensures "taskId" in arguments && arguments["taskId"].StringValue? ==> o.value.value.entries["taskId"] == arguments["taskId"]
  {
    Returned(Some(DictValue(map[
      "success" := BoolValue(true),
      "taskId" := StringValue(StringArgument(arguments, "taskId", "")),
      "completed" := BoolValue(true)])))
  }

  function CalendarEventDefinition(): (f: FunctionDefinition)
    ensures f.id == "create_calendar_event" && f.executor == CreateCalendarEvent
    ensures f.parameters.Keys == {"title", "date", "duration"}
  {
    FunctionDefinition("create_calendar_event", "CreateCalendarEvent", "Create a new calendar event",
      map["title" := NewParameterSchema("string", "Event title"),
          "date" := NewParameterSchema("string", "Event date in ISO 8601 format"),
          "duration" := NewParameterSchema("integer", "Duration in minutes", required := false)],
      CreateCalendarEvent)
  }

  function CalendarEventsDefinition(): (f: FunctionDefinition)
    ensures f.id == "get_calendar_events" && f.executor == GetCalendarEvents
    ensures f.parameters.Keys == {"startDate", "endDate"}
  {
    FunctionDefinition("get_calendar_events", "GetCalendarEvents", "Retrieve calendar events for a date range",
      map["startDate" := NewParameterSchema("string", "Start date in ISO 8601 format"),
          "endDate" := NewParameterSchema("string", "End date in ISO 8601 format")],
      GetCalendarEvents)
  }

  function CreateTaskDefinition(): (f: FunctionDefinition)
    ensures f.id == "create_task" && f.executor == CreateTask
    ensures f.parameters.Keys == {"title", "dueDate", "priority"}
  {
    FunctionDefinition("create_task", "CreateTask", "Create a new task",
      map["title" := NewParameterSchema("string", "Task title"),
          "dueDate" := NewParameterSchema("string", "Due date in ISO 8601 format", required := false),
          "priority" := NewParameterSchema("string", "Priority: low, medium, high", required := false)],
      CreateTask)
  }

  function ListTasksDefinition(): (f: FunctionDefinition)
    ensures f.id == "list_tasks" && f.executor == ListTasks
    ensures f.parameters.Keys == {"status", "priority"}
  {
    FunctionDefinition("list_tasks", "ListTasks", "List all tasks with optional filtering",
      map["status" := NewParameterSchema("string", "Filter by status: all, pending, completed", required := false),
          "priority" := NewParameterSchema("string", "Filter by priority: low, medium, high", required := false)],
      ListTasks)
  }

  function CompleteTaskDefinition(): (f: FunctionDefinition)
    ensures f.id == "complete_task" && f.executor == CompleteTask
    ensures f.parameters.Keys == {"taskId"}
  {
    FunctionDefinition("complete_task", "CompleteTask", "Mark a task as completed",
      map["taskId" := NewParameterSchema("string", "The task ID to complete")],
      CompleteTask)
  }

  /** `createSampleFunctions()`: the five definitions, in order. */
  function SampleFunctions(): (fs: seq<FunctionDefinition>)
    ensures |fs| == 5
    ensures fs[0].id == "create_calendar_event" && fs[0].executor == CreateCalendarEvent
    ensures fs[1].id == "get_calendar_events" && fs[1].executor == GetCalendarEvents
    ensures fs[2].id == "create_task" && fs[2].executor == CreateTask
    ensures fs[3].id == "list_tasks" && fs[3].executor == ListTasks
    ensures fs[4].id == "complete_task" && fs[4].executor == CompleteTask
  {
    [CalendarEventDefinition(), CalendarEventsDefinition(), CreateTaskDefinition(), ListTasksDefinition(),
     CompleteTaskDefinition()]
  }

  /** The five samples have five distinct ids. */
  lemma SampleIds()
    ensures |SampleFunctions()| == 5 && DistinctIds(SampleFunctions())
    ensures Ids(SampleFunctions()) == {"create_calendar_event", "get_calendar_events", "create_task", "list_tasks", "complete_task"}
  {
    SampleIdList(SampleFunctions());
  }

  /** Five definitions carrying the five sample ids, in that order, have distinct ids. */
  lemma SampleIdList(all: seq<FunctionDefinition>)
    requires |all| == 5
    requires all[0].id == "create_calendar_event" && all[1].id == "get_calendar_events" && all[2].id == "create_task"
    requires all[3].id == "list_tasks" && all[4].id == "complete_task"
    ensures DistinctIds(all)
    ensures Ids(all) == {"create_calendar_event", "get_calendar_events", "create_task", "list_tasks", "complete_task"}
  {
    assert |all[0].id| == 21 && |all[1].id| == 19 && |all[2].id| == 11 && |all[3].id| == 10 && |all[4].id| == 13;
    assert forall i :: 0 <= i < 5 ==> all[i].id in {all[0].id, all[1].id, all[2].id, all[3].id, all[4].id};
  }

  /** Every sample executor returns a dictionary that serialises and never throws. */
  lemma SampleExecutors(arguments: map<string, Any>, uuid: string)
    ensures forall i :: 0 <= i < |SampleFunctions()| ==> ReturnsDictionary(SampleFunctions()[i].executor(arguments, uuid))
  {
    var all := SampleFunctions();
    forall i | 0 <= i < 5
      ensures ReturnsDictionary(all[i].executor(arguments, uuid))
    {
      if i == 0 {
        assert all[i].executor(arguments, uuid) == CreateCalendarEvent(arguments, uuid);
      } else if i == 1 {
        assert all[i].executor(arguments, uuid) == GetCalendarEvents(arguments, uuid);
      } else if i == 2 {
        assert all[i].executor(arguments, uuid) == CreateTask(arguments, uuid);
      } else if i == 3 {
        assert all[i].executor(arguments, uuid) == ListTasks(arguments, uuid);
      } else {
        assert all[i].executor(arguments, uuid) == CompleteTask(arguments, uuid);
      }
    }
  }

}
