/** Values the dashboard page exchanges with the perception service, and the
    outcomes of its remote calls, which the model receives as parameters. */
module Types {

  /** An optional value; `None` stands for JavaScript's `null` or `undefined`. */
  datatype Option<+T> = None | Some(value: T) {

    /** JavaScript's `x ?? fallback`. */
    function GetOr(fallback: T): T {
      match this
      case Some(v) => v
      case None => fallback
    }
  }

  /** Truthiness of a `string | null` state slot: `null` and `""` are both falsy,
      so `if (!sourceId)` rejects an empty identifier as well as a missing one. */
  predicate Truthy(s: Option<string>) {
    s.Some? && s.value != ""
  }

  datatype SourceType = Webcam | Usb | Rtsp | Upload

  /** The wire name of a source type. */
  function TypeName(t: SourceType): string {
    match t
    case Webcam => "webcam"
    case Usb => "usb"
    case Rtsp => "rtsp"
    case Upload => "upload"
  }

  datatype Profile = Fast | Accurate | Cpu

  datatype Pipelines = Pipelines(vision: bool, audio: bool, llm: bool)

  /** A JSON value; event payloads and analysis results are opaque records of these. */
  datatype Value =
    | Null
    | Bool(b: bool)
    | Number(n: int)
    | Text(s: string)
    | List(elems: seq<Value>)
    | Record(fields: map<string, Value>)

  type Fields = map<string, Value>

  /** One event of a session's event stream. */
  datatype Event = Event(id: string, timestamp: int, eventType: string, payload: Fields)

  predicate IsMetric(e: Event) {
    e.eventType == "metric"
  }

  /** What a `catch` clause receives: an `Error` object with its message, or any other value. */
  datatype Failure = ErrorObject(message: string) | NonError

  /** Outcome of a create-source, create-session or analyze call:
      a response that is not `ok`, an exception (transport failure or a body
      that is not JSON), or an `ok` response with its parsed body. */
  datatype CallOutcome<+T> = Rejected(status: nat) | Raised(failure: Failure) | Accepted(body: T)

  datatype SourceResponse = SourceResponse(sourceId: string, sourceLabel: string)

  datatype SessionResponse = SessionResponse(sessionId: string, state: string)

  /** Outcome of one events request. The poll never looks at the status, so a
      rejected response whose JSON body parses is a `Page` like any other;
      `items` is `None` when the body has no `items`, `nextCursor` is `None`
      when the field is absent or `null`. */
  datatype PollOutcome = PollRaised | Page(items: Option<seq<Event>>, nextCursor: Option<int>)

  /** Body of the create-session request. */
  datatype SessionRequest = SessionRequest(sourceId: string, pipelines: Pipelines, profile: Profile)

  /** Query of one events request: session, cursor and page size. */
  datatype EventsQuery = EventsQuery(sessionId: string, cursor: int, limit: nat)

  const PageLimit: nat := 50

  datatype UploadFile = UploadFile(name: string, content: seq<bv8>)
}
