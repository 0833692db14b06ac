/** `handle_call_tool`: lazy initialisation, then the missing-arguments check,
    then dispatch on the tool name. */
module Dispatcher {
  import opened Wrappers
  import opened Errors
  import opened Values
  import opened CalendarApi
  import opened Formatting
  import opened Backend
  import opened Lifecycle
  import Registry

  const MissingArguments: Error := ValueError("Missing arguments")

  function UnknownTool(name: string): Error {
    ValueError("Unknown tool: " + name)
  }

  /** A tool run once a service exists: its result and the backend calls it made. */
  datatype Call<T> = Call(result: Result<T, Error>, trace: seq<Effect>)

  /** The `create-event` branch: build the body, insert it into the primary
      calendar asking the API to notify every attendee, and confirm. */
  function CreateEvent(svc: Service, args: Arguments, env: Env): (c: Call<seq<Content>>)
    ensures BuildEventBody(args).Failure? ==>
              c == Call(Failure(BuildEventBody(args).error), [])
    ensures BuildEventBody(args).Success? ==>
              var request := InsertRequest("primary", BuildEventBody(args).value, "all");
              && c.trace == [InsertEvent(request)]
              && c.result == match env.insert(svc, request)
                             case Failure(cause) => Failure(Raised(cause))
                             case Success(created) =>
                               (match CreatedText(created)
                                case Failure(e) => Failure(e)
                                case Success(text) => Success([Text(text)]))
    ensures c.result.Success? ==> |c.result.value| == 1
    ensures c.result.Failure? ==> !c.result.error.ValueError?
  {
    match BuildEventBody(args)
    case Failure(e) => Call(Failure(e), [])
    case Success(body) =>
      var request := InsertRequest(PrimaryCalendar, body, NotifyAll);
      var result :=
        match env.insert(svc, request)
        case Failure(cause) => Failure(Raised(cause))
        case Success(created) =>
          match CreatedText(created)
          case Failure(e) => Failure(e)
          case Success(text) => Success([Text(text)]);
      Call(result, [InsertEvent(request)])
  }

  /** The `search-events` branch: list the primary calendar's events in the
      requested window and format them. */
  function SearchEvents(svc: Service, args: Arguments, env: Env): (c: Call<seq<Content>>)
    ensures BuildListRequest(args).Failure? ==>
              c == Call(Failure(BuildListRequest(args).error), [])
    ensures BuildListRequest(args).Success? ==>
              var request := BuildListRequest(args).value;
              && c.trace == [ListEvents(request)]
              && c.result == match env.list(svc, request)
                             case Failure(cause) => Failure(Raised(cause))
                             case Success(resp) => SearchResultText(resp)
    ensures c.result.Success? ==> |c.result.value| == 1
    ensures c.result.Failure? ==> !c.result.error.ValueError?
  {
    match BuildListRequest(args)
    case Failure(e) => Call(Failure(e), [])
    case Success(request) =>
      var result :=
        match env.list(svc, request)
        case Failure(cause) => Failure(Raised(cause))
        case Success(resp) => SearchResultText(resp);
      Call(result, [ListEvents(request)])
  }

  /** Dispatch on the name; an unknown name is reported without any backend call. */
  function RunTool(svc: Service, name: string, args: Arguments, env: Env): (c: Call<seq<Content>>)
    ensures name != Registry.CreateEventName && name != Registry.SearchEventsName ==>
              c == Call(Failure(UnknownTool(name)), [])
    ensures |c.trace| <= 1
    ensures c.result.Success? ==> |c.result.value| == 1
  {
    if name == Registry.CreateEventName then CreateEvent(svc, args, env)
    else if name == Registry.SearchEventsName then SearchEvents(svc, args, env)
    else Call(Failure(UnknownTool(name)), [])
  }

  /** True when the call carries no arguments: `None` or an empty dictionary. */
  predicate NoArguments(arguments: Option<Arguments>) {
    arguments.None? || |arguments.value| == 0
  }

  /** `handle_call_tool`. Initialisation comes first and its failure ends the
      call; then absent or empty arguments are rejected; only then is the name
      looked at. Only initialisation changes the server state. */
  function HandleCallTool(st: ServerState, name: string, arguments: Option<Arguments>, env: Env)
    : (s: Step<seq<Content>>)
    ensures s.state == Initialize(st, env).state
    ensures Initialize(st, env).trace <= s.trace
    ensures |s.trace| <= |Initialize(st, env).trace| + 1
    ensures Initialize(st, env).result.Failure? ==>
              && s.result == Failure(Initialize(st, env).result.error)
              && s.trace == Initialize(st, env).trace
    ensures s.result.Success? ==> |s.result.value| == 1
  {
    var init := if st.service.None? then Initialize(st, env) else Step(Success(()), st, []);
    if init.result.Failure? then
      Step(Failure(init.result.error), init.state, init.trace)
    else if NoArguments(arguments) then
      Step(Failure(MissingArguments), init.state, init.trace)
    else
      var call := RunTool(init.state.service.value, name, arguments.value, env);
      Step(call.result, init.state, init.trace + call.trace)
  }

  /** Absent or empty arguments fail with "Missing arguments" for every name,
      after initialisation and before any backend call. */
  lemma MissingArgumentsRejected(st: ServerState, name: string, arguments: Option<Arguments>, env: Env)
    requires NoArguments(arguments)
    ensures var s := HandleCallTool(st, name, arguments, env);
            && s.trace == Initialize(st, env).trace
            && NoBackendCall(s.trace)
            && (Initialize(st, env).result.Success? ==> s.result == Failure(MissingArguments))
  {
  }

  /** An unregistered name with arguments fails with "Unknown tool: " + name once
      initialisation has succeeded, and makes no backend call. */
  lemma UnknownToolRejected(st: ServerState, name: string, args: Arguments, env: Env)
    requires |args| > 0
    requires name != "create-event" && name != "search-events"
    ensures var s := HandleCallTool(st, name, Some(args), env);
            && s.trace == Initialize(st, env).trace
            && NoBackendCall(s.trace)
            && (Initialize(st, env).result.Success? ==> s.result == Failure(UnknownTool(name)))
  {
  }

  /** With arguments and a working service, a call is rejected as an unknown tool
      exactly when its name is not one the registry advertises. */
  lemma DispatchMatchesRegistry(st: ServerState, name: string, args: Arguments, env: Env)
    requires |args| > 0
    requires Initialize(st, env).result.Success?
    ensures HandleCallTool(st, name, Some(args), env).result == Failure(UnknownTool(name))
            <==> name !in Registry.ToolNames(Registry.ListTools())
  {
  }

  /** A `create-event` call inserts exactly the body built from its arguments,
      once, after initialisation; a failing insert is re-raised unchanged, a
      created event with all its fields is confirmed; a missing required key
      stops the call before any backend call. */
  lemma CreateEventInsertsBody(st: ServerState, args: Arguments, env: Env)
    requires |args| > 0
    requires Initialize(st, env).result.Success?
    ensures var s := HandleCallTool(st, "create-event", Some(args), env);
            var init := Initialize(st, env).trace;
            match BuildEventBody(args)
            case Success(body) =>
              var request := InsertRequest("primary", body, "all");
              var inserted := env.insert(Initialize(st, env).state.service.value, request);
              && s.trace == init + [InsertEvent(request)]
              && (inserted.Failure? ==> s.result == Failure(Raised(inserted.error)))
              && (inserted.Success? && CreatedText(inserted.value).Success? ==>
                    s.result == Success([Text(CreatedText(inserted.value).value)]))
            case Failure(e) =>
              s.trace == init && s.result == Failure(e)
  {
  }

  /** A `search-events` call sends exactly the list request built from its
      arguments, once; a failing listing is re-raised unchanged, a response is
      formatted, and one with no items yields "No events found". */
  lemma SearchEventsListsWindow(st: ServerState, args: Arguments, env: Env)
    requires |args| > 0
    requires Initialize(st, env).result.Success?
    ensures var s := HandleCallTool(st, "search-events", Some(args), env);
            var init := Initialize(st, env).trace;
            match BuildListRequest(args)
            case Success(request) =>
              var listed := env.list(Initialize(st, env).state.service.value, request);
              && s.trace == init + [ListEvents(request)]
              && (listed.Failure? ==> s.result == Failure(Raised(listed.error)))
              && (listed.Success? ==> s.result == SearchResultText(listed.value))
              && (listed == Success(ListResponse(None)) ==> s.result == Success([Text("No events found")]))
            case Failure(e) =>
              s.trace == init && s.result == Failure(e)
  {
  }

  /** Once a call has initialised the service, later calls perform no
      initialisation I/O at all: at most the one backend call. */
  lemma LaterCallsSkipInitialization(st: ServerState, name: string, arguments: Option<Arguments>,
                                     env: Env, name': string, arguments': Option<Arguments>, env': Env)
    requires Initialize(st, env).result.Success?
    ensures var s := HandleCallTool(st, name, arguments, env);
            var s' := HandleCallTool(s.state, name', arguments', env');
            && s'.state == s.state
            && forall i :: 0 <= i < |s'.trace| ==> IsBackendCall(s'.trace[i])
  {
  }
}
