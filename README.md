# Session state machine of the Robot Agent Lab page

This project models, in Dafny, the client-side session logic of the research
console page (`web/src/pages/index.tsx`). The page drives a perception service
through three lifecycles:

- connecting an acquisition source (webcam, USB device, RTSP stream or upload);
- starting and stopping an analysis session bound to that source;
- polling the session's event stream every two seconds with a cursor, appending
  each page of events to an in-memory log.

It also submits one-off uploads for analysis. The metric read-out is a
projection over the log.

Layout:

- `types.dfy` (`Types`): source types, profiles, events, JSON values and the
  outcomes of remote calls. Truthiness of a `string | null` slot is `Truthy`:
  the page's `if (!sourceId)` and `if (!sessionId)` treat an empty string like
  `null`, and so does the model.
- `messages.dfy` (`Messages`): the exact error texts, including the decimal
  rendering of an HTTP status, with a round trip proving the status can be
  read back from the text.
- `sources.dfy` (`Sources`): the create-source request body.
- `metrics.dfy` (`Metrics`): the metric read-out, `events.find(...)`.
- `handlers.dfy` (`Handlers`): the state slots as a value (`HomeState`), one
  step function per handler, and lemmas stating what each handler promises.
  Runs of poll ticks are covered too (`Ticks`, `Delivered`).
- `page.dfy` (`Page`): the class `Home`. Its fields are the state slots and its
  methods are the handlers, each proved to follow its step function. Two
  client methods replay example runs: two pages arriving, and a tick that
  throws followed by a stop.

Remote calls become parameters. Connect, start and analyze receive a
`CallOutcome`, which is one of:

- `Rejected(status)`: a response that is not `ok`;
- `Raised(failure)`: a thrown transport or JSON error;
- `Accepted(body)`: a successful response with its body.

A poll tick receives a `PollOutcome`, which is one of:

- `PollRaised`: the fetch or the JSON parse threw;
- `Page(items, nextCursor)`: any response whose body parsed. The tick never
  checks the status.

Each method returns the request it sends:

- `ConnectSource` always posts, and returns the body.
- `StartSession`, `PollTick` and `AnalyzeUpload` return `Some` of the request
  (the session request, the events query, the uploaded file), or `None` when
  their guard stops them and nothing is sent.
- `StopSession` is purely local and returns nothing.

Behaviour of the code that a reader might expect to be otherwise:

- After a non-empty page without `nextCursor`, one might expect the cursor to
  be kept so that the next request resumes where the last one left off. The
  code sets it to `null`, so the next request asks from cursor 0
  (`ExhaustedPageRestartsAtZero`). The cursor is therefore not monotonic.
- One might expect a rejected events request to leave the log alone. The code
  never checks `res.ok`: a rejected page with JSON `items` is appended like an
  ok page, and one without `items` acts as an empty page.
- The read-out is not the most recent metric event. It is the first metric
  event in the log (`MetricEventIsFirst`), and later pages never change it
  once one is shown (`MetricEventOfAppend`).
- One might expect a failed start to change nothing. The code clears `error`
  before the request and then sets it to the failure text. No other slot
  changes.
- One might expect stopping a page that never started a session to be a
  no-op. It is not: it turns the state "ready" into "stopped" and the cursor
  0 into `null` (`StopOnIdlePage`). The page disables the stop button while
  no session is bound (`web/src/pages/index.tsx:319`), so a user cannot
  reach that case. Stop is idempotent (`StopEffect`).

## Model

| member | source | states |
|---|---|---|
| Messages.FailureMessage | web/src/pages/index.tsx:110-114 | a rejected call's text is the handler's prefix followed by the status digits; a thrown call's text is the thrown `Error`'s message, or the handler's fallback text when what was thrown is not an `Error` (also lines 133 and 140, 166 and 170) |
| Messages.Decimal | web/src/pages/index.tsx:110 | the rendered status is a non-empty digit string without a leading zero |
| Messages.DecimalRoundTrip | web/src/pages/index.tsx:110 | reading the rendered status back gives the status |
| Messages.RejectionReportsStatus | web/src/pages/index.tsx:110 | the message for a rejected call is the handler's prefix followed by digits that read back as the status |
| Sources.SourcePayload | web/src/pages/index.tsx:102-104 | the body always has `type` with the source type's name; it has `url` iff the type is rtsp and the value is non-empty, and `deviceId` iff the type is usb and the value is non-empty, each equal to the value; it has no other key |
| Sources.SourcePayloadDeterminesSource | web/src/pages/index.tsx:102-108 | two connects post the same body iff they have the same source type and the same effective locator |
| Metrics.MetricEvent | web/src/pages/index.tsx:52 | the result is a metric event taken from the log; it is none iff the log holds no metric event, which includes the empty log |
| Metrics.MetricEventIsFirst | web/src/pages/index.tsx:52 | the result is the earliest metric event of the log |
| Metrics.MetricEventOfAppend | web/src/pages/index.tsx:52 | after appending a page, the read-out is unchanged if a metric was already shown, and is otherwise the page's first metric |
| Handlers.ConnectOutcome | web/src/pages/index.tsx:98-118 | on success the source id is replaced and the error cleared, nothing else changes; on failure the source id is kept, an error is set and nothing else changes; a rejection's error text carries the status |
| Handlers.EmptyIdIsNoId | web/src/pages/index.tsx:77 | an empty session id acts exactly like a missing one (no query, no change), and so does an empty source id at line 121 (no request, only the error is set) |
| Handlers.StartWithoutSource | web/src/pages/index.tsx:120-124 | with no (or an empty) source id, no request is sent and only the error is set |
| Handlers.StartFailure | web/src/pages/index.tsx:125-140 | with a source, the request carries the source id, pipelines and profile; a rejected or thrown start sets the error and changes nothing else |
| Handlers.StartSuccess | web/src/pages/index.tsx:134-140 | a successful start binds the returned session id and state, empties the log, resets the cursor to 0, clears the error and keeps the source and upload result |
| Handlers.StopEffect | web/src/pages/index.tsx:146-150 | stop clears the session id, sets the state to "stopped" and the cursor to null, keeps log, source, error and upload result, halts polling, and is idempotent |
| Handlers.StopOnIdlePage | web/src/pages/index.tsx:146-150 | stopping the initial page is not a no-op: it sets the state to "stopped" and the cursor to null and changes nothing else |
| Handlers.TickWithoutSession | web/src/pages/index.tsx:77 | without a bound session a tick sends no request and changes nothing |
| Handlers.TickEffect | web/src/pages/index.tsx:79-93 | a tick asks at `cursor ?? 0`; a non-empty page is appended in received order and its `nextCursor` (null when absent) becomes the cursor; a thrown, empty or item-less page changes nothing; only log and cursor ever change |
| Handlers.ExhaustedPageRestartsAtZero | web/src/pages/index.tsx:80-89 | after a non-empty page without `nextCursor`, the next request asks from cursor 0 |
| Handlers.TicksAppend | web/src/pages/index.tsx:83-89 | over any run of ticks on a bound session the log becomes the old log followed by all received items in arrival order; only log and cursor change; a run that receives nothing changes nothing |
| Handlers.TicksCursor | web/src/pages/index.tsx:83-89 | after any run of ticks on a bound session, the cursor is the `nextCursor` (null when absent) of the last page that delivered items, and unchanged when no page did |
| Handlers.TicksWithoutSession | web/src/pages/index.tsx:76-77 | any run of ticks without a bound session changes nothing |
| Handlers.StartThenPoll | web/src/pages/index.tsx:134-138 | after a successful start with a non-empty session id, the log is exactly the concatenation of the pages received since |
| Handlers.AnalyzeEffect | web/src/pages/index.tsx:152-172 | analyze touches only the error and the upload result; without a file only the error is set; with one the error is cleared iff the call succeeds, and the result is the response body on success and cleared otherwise |
| Page.Home.constructor | web/src/pages/index.tsx:42-50 | the slots start with no source, no session, state "ready", an empty log, cursor 0, no error and no upload result |
| Page.Home.ConnectSource | web/src/pages/index.tsx:98-118 | posts `SourcePayload(kind, value)` and leaves the slots as `Connect` says |
| Page.Home.StartSession | web/src/pages/index.tsx:120-144 | sends `StartRequest` (none without a source) and leaves the slots as `Start` says |
| Page.Home.StopSession | web/src/pages/index.tsx:146-150 | leaves the slots as `Stop` says |
| Page.Home.PollTick | web/src/pages/index.tsx:76-96 | sends `EventsRequest` of the old slots (none without a session) and leaves the slots as `Tick` says |
| Page.Home.AnalyzeUpload | web/src/pages/index.tsx:152-172 | returns the file it posts, which is the selected file, and `None` (nothing sent) without one; leaves the slots as `Analyze` says |

## Left out

- Rendering, styling, `badge` and `statusPill`: presentation only.
- The health check and `healthError`: one fetch whose result is only displayed.
- `fetch`, `FormData`, `API_BASE` and JSON parsing are I/O. Their results
  enter as `CallOutcome` and `PollOutcome` parameters.
- An `ok` response whose JSON lacks `sourceId`, `sessionId` or `state` is not
  modelled. The page would store `undefined`; the model assumes these fields
  are present strings.
- An `ok` analyze response whose JSON is not an object (`null`, a number, an
  array) is not modelled: the page would store that value as the upload
  result; the model takes the result to be a JSON object.
- A poll body whose `items` is present but not an array of events is not
  modelled: a string, for one, has a length and would be spread into the log
  character by character; the model takes `items` to be absent or an array
  of events.
- The `loading` flag: it only disables buttons.
- Interval timing, re-subscription of the effect when the cursor changes, and
  the race in which a poll that is still in flight lands after a stop or after
  a new session starts. Ticks are modelled as atomic steps on the current
  state, one after another. The page has no guard against that race, and the
  model claims no switch-over property.
- JavaScript numbers become integers: event timestamps (seconds), the
  `nextCursor` of a page and the cursor slot, and numbers inside payloads and
  analysis results. The page never computes with the cursor or the payload
  numbers; it only stores and sends them back. The
  timestamp display and the `fps`/`latencyMs`/`queueDepth` read-out are display
  formatting.
- The form inputs (source type and value, pipelines, profile, selected file)
  are parameters of the handlers, not fields.
- `ml-api/app/main.py` is not part of this model. It only holds constant-JSON
  endpoints and a WebSocket echo loop.
