# Google Calendar tool server — Dafny model

This project models the core of a small MCP (Model Context Protocol) server. The
server exposes two calendar tools, `create-event` and `search-events`, to an
agent process. It models three pieces of `src/testcal/server.py`:

- **Tool registry** (`handle_list_tools`, module `Registry`). This is the fixed, ordered
  list of two tool descriptors and their input schemas.
- **Call dispatcher** (`handle_call_tool`, modules `Dispatcher`, `CalendarApi`,
  `Formatting`, with `Spans` for positions in the rendered text). It runs lazy initialisation first, then rejects absent or empty
  arguments, then dispatches on the name. It builds the `create-event` body and the
  `search-events` list request, and it renders the results as text.
- **Lazy service initialisation** (`CalendarServer.initialize`, module `Lifecycle`).
  This is a state machine over the cached service and the `token.pickle` file. The
  OAuth flow, credential validity and the discovery `build` are oracles (module `Backend`).

Python values are modelled as `Values.Value`, with Python truthiness, iteration and
`dict.get`. Every exception the server lets escape is an `Errors.Error`:
`ValueError`, `KeyError`, `TypeError`, or a collaborator's exception re-raised unchanged.

Each step returns its result, the state after it, and a trace of `Backend.Effect`s:
file check, load, flow, save, build, insert and list. The trace makes properties such
as "no backend call" or "no flow" statable.

Three behaviours of the code are modelled as written:

- Initialisation runs **before** the missing-arguments check (server.py:139-145), so
  a call without arguments still triggers the OAuth flow on a cold start.
- An expired credential is never refreshed. Whenever `creds.valid` is false, the
  interactive flow runs again (server.py:56).
- The checks at server.py:41 and 139 take no lock. Nothing between server.py:139 and
  the assignment at server.py:63 suspends, because `initialize` awaits nothing. The
  first call therefore finishes initialising before another call is served, and the
  event loop is blocked during the interactive flow. One call at a time is modelled.

## Model

| member | source | states |
|---|---|---|
| Registry.ListTools | src/testcal/server.py:75-129 | Exactly two descriptors are listed, named `create-event` then `search-events`. |
| Registry.ListToolsSchemas | src/testcal/server.py:75-127 | The required fields are `[summary, start_time, end_time]` and `[time_min, time_max]`. Every schema is well formed: property names are distinct and each required name is a declared property. |
| Registry.CreateEventSchema | src/testcal/server.py:79-101 | `create-event` requires `summary`, `start_time` and `end_time`. Its optional fields are exactly `description` then `attendees`. |
| Registry.SearchEventsSchema | src/testcal/server.py:106-125 | `search-events` requires `time_min` and `time_max`. Its only optional field is `query`. |
| Registry.ToolNamesDistinct | src/testcal/server.py:75-127 | The advertised tool names are pairwise distinct. |
| Values.Iterate | src/testcal/server.py:158 | Python iteration: a list yields its elements, a string its characters, a dict its keys. `None`, booleans and integers are not iterable. |
| CalendarApi.AttendeesOf | src/testcal/server.py:158 | One `{email}` record per iterated value, with length and order preserved. |
| CalendarApi.BuildEventBody | src/testcal/server.py:150-158 | A missing `summary`, `start_time` or `end_time` raises a `KeyError` naming the first one missing. Otherwise summary, start and end are the arguments themselves, and description defaults to `''` only when absent. An attendee list exists iff `attendees` is present and truthy, one record per iterated value. Any other failure is the `TypeError` of a truthy, non-iterable `attendees`. |
| CalendarApi.BuildListRequest | src/testcal/server.py:179-187 | A missing `time_min`, then a missing `time_max`, raises a `KeyError`. It succeeds iff both are present. The request then carries them unchanged, with `q` = `query` (default `''`), `maxResults` 10, `singleEvents` true, `orderBy` `startTime` and the primary calendar. |
| CalendarApi.AttendeesFromList | src/testcal/server.py:157-158 | Without an `attendees` key the body has no attendee field. A non-empty list yields exactly one record per email, in order. |
| CalendarApi.CreateEventRequiredMatchesSchema | src/testcal/server.py:150-155 | Building the `create-event` body raises a `KeyError` iff some field the registry marks as required is missing. |
| CalendarApi.SearchEventsRequiredMatchesSchema | src/testcal/server.py:179-183 | The `search-events` request is built iff every field the registry marks as required is present. |
| Decimal.NatToString | src/testcal/server.py:208 | `str(len(events))` has at least one character, only digits, and no leading zero. |
| Decimal.DigitsValueOfNatToString | src/testcal/server.py:208 | Reading the rendered count back as digits gives the count. |
| Decimal.TakeDigitsOfNumber | src/testcal/server.py:208 | Reader helper for the header round trip, not itself part of the server. In a digit string followed by a non-digit, the digit prefix is exactly that digit string. |
| Formatting.EntryText | src/testcal/server.py:196-203 | A missing `start` raises `KeyError('start')`, then a missing `end` raises `KeyError('end')`. The entry exists iff both are present. |
| Formatting.Entries | src/testcal/server.py:195-203 | Entries exist iff every event's entry exists. There is then one entry per event, in order. Otherwise the error is that of the first event that fails. |
| Formatting.SearchResultText | src/testcal/server.py:189-210 | Success always yields exactly one text block. No items (including a response without `items`) yields exactly "No events found". With items, it succeeds iff every event has a start and an end. The error of a failing listing is stated by `ListingFailsWithFirstEntryError`. |
| Formatting.FormatSearchResult | src/testcal/server.py:189-210 | The source's loop, which appends one entry per event and then joins them, computes exactly the functional listing, error cases included. |
| Formatting.CreatedText | src/testcal/server.py:166-175 | The confirmation exists iff the created event has `id`, `summary`, `start.dateTime` and `end.dateTime`. A missing `id` is reported first. The text opens with "Created event: " and the returned summary. |
| Formatting.FindNewline | src/testcal/server.py:199-203 | Reader helper for the entry round trip, not itself part of the server. Finds the first line break of a string, or its end when there is none. |
| Formatting.ParseRenderEntry | src/testcal/server.py:199-203 | An entry `- title / Start: s / End: e` reads back as exactly its title, start and end when the title and start contain no line break. |
| Formatting.EntryReadsBack | src/testcal/server.py:196-203 | An event with a start and an end has an entry. When its title and its rendered start contain no line break, the entry reads back as the event's summary ("Untitled" only when the key is missing), then its start and end. Each of start and end is `dateTime` when present, else `date`, else `None`. |
| Formatting.ReadCountOfHeader | src/testcal/server.py:208 | The header "Found N events:" followed by anything reads back as N. |
| Formatting.ReadCountOfNoEvents | src/testcal/server.py:192-193 | "No events found" announces no count. |
| Formatting.JoinPlacesPiece | src/testcal/server.py:208 | In `sep.join(xs)`, piece i appears verbatim at its offset. |
| Formatting.JoinSeparatesPieces | src/testcal/server.py:208 | In `sep.join(xs)`, the separator follows every piece but the last. |
| Formatting.JoinEndsWithLastPiece | src/testcal/server.py:208 | In `sep.join(xs)`, the last piece ends the text. |
| Formatting.ListingAnnouncesCount | src/testcal/server.py:205-210 | A non-empty listing's text announces exactly the number of items returned. |
| Formatting.ListingOpensWithHeader | src/testcal/server.py:205-210 | A non-empty listing's text, one event included, opens with "Found N events:" and a blank line, N being the number of items returned. |
| Formatting.ListingFailsWithFirstEntryError | src/testcal/server.py:195-203 | A failing listing has items, and its error is that of the first event without a start or an end: `KeyError('start')` or `KeyError('end')`. |
| Formatting.ListingSeparatesEntries | src/testcal/server.py:205-210 | A listing's text opens with its header, which ends with a blank line, and a blank line separates each entry from the next. |
| Formatting.ListingEndsWithLastEntry | src/testcal/server.py:205-210 | The last event's entry ends a listing's text: nothing follows it. |
| Formatting.ListingPlacesEntry | src/testcal/server.py:195-210 | Entry i of a listing's text is the entry of event i, in the order the API returned them. |
| Lifecycle.Initialize | src/testcal/server.py:37-67 | With a service already set, it returns the state unchanged with no I/O. Success holds iff a service is set afterwards, and a failure leaves the service unset. The flow runs iff no service is set and the token file is absent or holds a credential that is not valid. The token file is opened and written iff the flow ran, succeeded and the open succeeded. Afterwards it holds the fresh credential when the write completed, is damaged when the dump failed after the open, and is unchanged when the open failed. The token file changes only through that write. It makes no calendar call. |
| Lifecycle.ValidTokenUsedAsIs | src/testcal/server.py:51-63 | A valid persisted credential is loaded and built from directly. There is no flow and no write, and the service is the one built from that credential. |
| Lifecycle.FreshCredentialSavedBeforeBuild | src/testcal/server.py:56-63 | A needed, successful flow whose write completes is followed by the save and then the build, in that order. The fresh credential is on disk whether or not the build succeeds. |
| Lifecycle.FailuresPropagate | src/testcal/server.py:40-67 | An unreadable token file, a failing flow, a failing write or a failing build each surface as their own cause, unchanged. A token file that cannot be opened is left as it was, with no write recorded. No failure sets the service. |
| Lifecycle.InitializeIdempotent | src/testcal/server.py:41-42 | After a successful initialisation, a second one does nothing and performs no I/O. |
| Lifecycle.RetryAfterBuildFailure | src/testcal/server.py:56-63 | A build failure after a successful flow leaves the service unset, but a retry with the saved credential still valid skips the flow. |
| Dispatcher.CreateEvent | src/testcal/server.py:148-175 | A failing body raises its error with no backend call. Otherwise exactly one insert of that body is made into the primary calendar with `sendUpdates='all'`. The insert's error is re-raised unchanged. A created event yields the confirmation text as one block, or the error of reading its fields. It never raises a `ValueError`. |
| Dispatcher.SearchEvents | src/testcal/server.py:177-210 | A failing request raises its error with no backend call. Otherwise exactly one list request is made, and the result is the API's error re-raised or the formatted listing. It never raises a `ValueError`. |
| Dispatcher.RunTool | src/testcal/server.py:147-217 | An unregistered name fails with "Unknown tool: " + name and makes no backend call. At most one backend call is made. |
| Dispatcher.HandleCallTool | src/testcal/server.py:131-217 | Initialisation comes first: its trace is a prefix of the call's, and only it changes the state. Its failure ends the call with that error. At most one backend call follows. A successful result is one text block. |
| Dispatcher.MissingArgumentsRejected | src/testcal/server.py:139-145 | With `None` or empty arguments, every name, unknown ones included, fails with "Missing arguments" after initialisation. No backend call is made. |
| Dispatcher.UnknownToolRejected | src/testcal/server.py:216-217 | Any other name with arguments fails with "Unknown tool: " + name, after initialisation and with no backend call. |
| Dispatcher.DispatchMatchesRegistry | src/testcal/server.py:147-217 | With arguments and a working service, a call is rejected as an unknown tool iff its name is not in the registry's list. |
| Dispatcher.CreateEventInsertsBody | src/testcal/server.py:148-175 | A `create-event` call inserts exactly the body built from its arguments, once, after initialisation. A failing insert surfaces as its own cause, and a complete created event is confirmed. A missing required key stops it before any backend call. |
| Dispatcher.SearchEventsListsWindow | src/testcal/server.py:177-193 | A `search-events` call sends exactly the request built from its arguments, once. A failing listing surfaces as its own cause, a response is formatted as the listing, and a response without items yields "No events found". |
| Dispatcher.LaterCallsSkipInitialization | src/testcal/server.py:139-141 | Once a call has initialised the service, later calls leave the state unchanged and perform only backend calls. |

## Left out

- Logging (server.py:16-26 and every `logger` call) is a side effect only. The one
  effect that matters is kept: the log line at server.py:166 reads `created_event['id']`
  before the response text does.
- The stdio transport, `main` and the server run loop (server.py:219-242) are I/O
  plumbing over the MCP library. So is the library's conversion of a raised exception
  into an error result for the client.
- Google API internals, the `InstalledAppFlow`, the pickle format, the file system and
  the clock are oracles in `Backend.Env`. One `Env` describes the collaborators of one call.
- Concurrency: calls are served one after another by a single-threaded event loop,
  and `initialize` never yields to it. The model covers one call at a time and says
  nothing about the event loop being blocked during the flow.
- Floats among argument values are not modelled, and dict keys are assumed distinct.
- Backend event fields are modelled as optional strings, which is what the Calendar
  API returns. How an f-string would render a non-string field is not modelled.
- The description strings inside the schemas are not modelled. Date-time and email
  formats are declared by the schemas but never enforced by the code, so the model
  does not check them either.
- Image and embedded-resource content blocks are never produced, so only text blocks
  are modelled.
- Formatting.CreatedText: the contract fixes when the confirmation exists and its
  opening line, but not the full text. That text only echoes fields the backend
  returned.
- Formatting.EntryReadsBack: an entry whose title or rendered start contains a line
  break is fixed only by the definition of `EntryText`, not read back, because the
  rendered text is then ambiguous.
- Nothing bounds how many items the list oracle returns. The API's `maxResults` cap
  belongs to the backend and is only requested, not checked, by the code.
