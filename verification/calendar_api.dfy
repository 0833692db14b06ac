/** The Google Calendar request and response shapes the dispatcher builds and reads,
    and the two pure builders: the `create-event` body and the `search-events`
    list request. */
module CalendarApi {
  import opened Wrappers
  import opened Errors
  import opened Values
  import Registry

  const PrimaryCalendar := "primary"
  const NotifyAll := "all"
  const SearchMaxResults: nat := 10
  const OrderByStartTime := "startTime"

  /** `{'email': email}`. The email is whatever the caller passed; its format is
      never checked. */
  datatype Attendee = Attendee(email: Value)

  /** The event body sent to `events().insert`. `start` and `end` are
      `{'dateTime': …}` objects; only their one field is kept. `attendees` is
      `None` when the body has no `attendees` key at all. */
  datatype EventBody = EventBody(
    summary: Value,
    description: Value,
    startDateTime: Value,
    endDateTime: Value,
    attendees: Option<seq<Attendee>>)

  datatype InsertRequest = InsertRequest(calendarId: string, body: EventBody, sendUpdates: string)

  datatype ListRequest = ListRequest(
    calendarId: string,
    timeMin: Value,
    timeMax: Value,
    q: Value,
    maxResults: nat,
    singleEvents: bool,
    orderBy: string)

  /** An event's `start` or `end`: a timed event has `dateTime`, an all-day
      event has `date`. */
  datatype TimeField = TimeField(dateTime: Option<string>, date: Option<string>)

  /** An event as the API returns it; every key may be missing. */
  datatype Event = Event(
    id: Option<string>,
    summary: Option<string>,
    start: Option<TimeField>,
    end: Option<TimeField>)

  /** The body of a list response; `items` may be missing. */
  datatype ListResponse = ListResponse(items: Option<seq<Event>>)

  /** `{'email': e}` for every `e` the `attendees` value iterates over. */
  function AttendeesOf(emails: seq<Value>): (r: seq<Attendee>)
    ensures |r| == |emails|
    ensures forall i :: 0 <= i < |emails| ==> r[i].email == emails[i]
  {
    seq(|emails|, i requires 0 <= i < |emails| => Attendee(emails[i]))
  }

  /** The attendee list is built only when `attendees` is present and truthy;
      building it iterates the value, which raises for a non-iterable one. */
  function AttendeeList(args: Arguments): Result<Option<seq<Attendee>>, Error> {
    if "attendees" in args && Truthy(args["attendees"]) then
      match Iterate(args["attendees"])
      case None => Failure(TypeError(NotIterableMessage(args["attendees"])))
      case Some(emails) => Success(Some(AttendeesOf(emails)))
    else
      Success(None)
  }

  /** True when every name in `keys` is an argument. */
  predicate AllPresent(keys: seq<string>, args: Arguments) {
    forall k :: k in keys ==> k in args
  }

  /** The `create-event` body. The dictionary literal reads `summary`,
      `start_time` and `end_time` in that order, so a missing one raises a
      `KeyError` naming the first that is missing; `description` falls back to
      `''` only when absent. */
  function BuildEventBody(args: Arguments): (r: Result<EventBody, Error>)
    ensures "summary" !in args ==> r == Failure(KeyError("summary"))
    ensures "summary" in args && "start_time" !in args ==> r == Failure(KeyError("start_time"))
    ensures "summary" in args && "start_time" in args && "end_time" !in args
            ==> r == Failure(KeyError("end_time"))
    ensures r.Success? ==>
              && r.value.summary == args["summary"]
              && r.value.startDateTime == args["start_time"]
              && r.value.endDateTime == args["end_time"]
              && r.value.description == (if "description" in args then args["description"] else Str(""))
    ensures r.Success? ==>
              (r.value.attendees.Some? <==> "attendees" in args && Truthy(args["attendees"]))
    ensures r.Success? && r.value.attendees.Some? ==>
              && Iterate(args["attendees"]).Some?
              && var emails := Iterate(args["attendees"]).value;
              && |r.value.attendees.value| == |emails|
              && forall i :: 0 <= i < |emails| ==> r.value.attendees.value[i].email == emails[i]
    ensures r.Failure? && !r.error.KeyError? ==>
              && r.error.TypeError?
              && "attendees" in args && Truthy(args["attendees"])
              && Iterate(args["attendees"]).None?
  {
    if "summary" !in args then Failure(KeyError("summary"))
    else if "start_time" !in args then Failure(KeyError("start_time"))
    else if "end_time" !in args then Failure(KeyError("end_time"))
    else
      var attendees :- AttendeeList(args);
      Success(EventBody(
        args["summary"],
        Get(args, "description", Str("")),
        args["start_time"],
        args["end_time"],
        attendees))
  }

  /** The `events().list` request of `search-events`. `time_min` is read before
      `time_max`; `q` falls back to `''` only when `query` is absent; the cap,
      the expansion of recurring events and the ordering are fixed. */
  function BuildListRequest(args: Arguments): (r: Result<ListRequest, Error>)
    ensures "time_min" !in args ==> r == Failure(KeyError("time_min"))
    ensures "time_min" in args && "time_max" !in args ==> r == Failure(KeyError("time_max"))
    ensures r.Success? <==> "time_min" in args && "time_max" in args
    ensures r.Success? ==>
              && r.value.calendarId == "primary"
              && r.value.timeMin == args["time_min"]
              && r.value.timeMax == args["time_max"]
              && r.value.q == (if "query" in args then args["query"] else Str(""))
              && r.value.maxResults == 10
              && r.value.singleEvents
              && r.value.orderBy == "startTime"
  {
    if "time_min" !in args then Failure(KeyError("time_min"))
    else if "time_max" !in args then Failure(KeyError("time_max"))
    else
      Success(ListRequest(
        PrimaryCalendar,
        args["time_min"],
        args["time_max"],
        Get(args, "query", Str("")),
        SearchMaxResults,
        true,
        OrderByStartTime))
  }

  /** With no `attendees` key the body carries no attendee list; with a list of
      emails it carries one attendee per email, in order. */
  lemma AttendeesFromList(args: Arguments)
    requires AllPresent(["summary", "start_time", "end_time"], args)
    ensures "attendees" !in args ==>
              BuildEventBody(args).Success? && BuildEventBody(args).value.attendees.None?
    ensures "attendees" in args && args["attendees"].Arr? && |args["attendees"].elems| > 0 ==>
              && BuildEventBody(args).Success?
              && BuildEventBody(args).value.attendees
                 == Some(AttendeesOf(args["attendees"].elems))
  {
  }

  /** The required fields the `create-event` schema advertises are exactly the
      keys whose absence makes the body fail with a `KeyError`. */
  lemma CreateEventRequiredMatchesSchema(args: Arguments)
    ensures var required := Registry.ListTools()[0].inputSchema.required;
            (BuildEventBody(args).Failure? && BuildEventBody(args).error.KeyError?)
            <==> !AllPresent(required, args)
  {
  }

  /** The required fields the `search-events` schema advertises are exactly the
      keys whose absence makes the request fail. */
  lemma SearchEventsRequiredMatchesSchema(args: Arguments)
    ensures var required := Registry.ListTools()[1].inputSchema.required;
            BuildListRequest(args).Success? <==> AllPresent(required, args)
  {
  }
}
