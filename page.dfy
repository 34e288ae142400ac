/** The page component: its state slots as fields and its handlers as methods
    that overwrite them. Each remote call's outcome is a parameter. `ConnectSource`
    always posts and returns the body; `StartSession`, `PollTick` and
    `AnalyzeUpload` return `Some` of the request they send, or `None` when their
    guard stops them; `StopSession` is purely local and returns nothing. */
module Page {
  import opened Types
  import opened Messages
  import opened Sources
  import opened Metrics
  import opened Handlers

  class Home {
    var sourceId: Option<string>
    var sessionId: Option<string>
    var sessionState: string
    var events: seq<Event>
    var eventsCursor: Option<int>
    var error: Option<string>
    var uploadResult: Option<Fields>

    /** The slots as one value, to state handlers against `Handlers`. */
    ghost function View(): HomeState
      reads this
    {
      HomeState(sourceId, sessionId, sessionState, events, eventsCursor, error, uploadResult)
    }

    constructor ()
      ensures View() == Initial
    {
      sourceId, sessionId, sessionState := None, None, "ready";
      events, eventsCursor := [], Some(0);
      error, uploadResult := None, None;
    }

    /** Connect source; returns the request body it posts. */
    method ConnectSource(kind: SourceType, value: string, outcome: CallOutcome<SourceResponse>)
      returns (payload: map<string, string>)
      modifies this
      ensures payload == SourcePayload(kind, value)
      ensures View() == Connect(old(View()), outcome)
    {
      error := None;
      payload := map["type" := TypeName(kind)];
      if kind == Rtsp && value != "" { payload := payload["url" := value]; }
      if kind == Usb && value != "" { payload := payload["deviceId" := value]; }
      match outcome {
        case Rejected(status) => error := Some(SourceRejectedPrefix + Decimal(status));
        case Raised(f) => error := Some(Describe(f, SourceFallback));
        case Accepted(resp) => sourceId := Some(resp.sourceId);
      }
    }

    /** Start session; returns the create-session request, `None` when no
        source is bound and nothing is sent. */
    method StartSession(pipelines: Pipelines, profile: Profile, outcome: CallOutcome<SessionResponse>)
      returns (request: Option<SessionRequest>)
      modifies this
      ensures request == StartRequest(old(View()), pipelines, profile)
      ensures View() == Start(old(View()), outcome)
    {
      if sourceId.None? || sourceId.value == "" {
        error := Some(NoSourceMessage);
        return None;
      }
      error := None;
      request := Some(SessionRequest(sourceId.value, pipelines, profile));
      match outcome {
        case Rejected(status) => error := Some(SessionRejectedPrefix + Decimal(status));
        case Raised(f) => error := Some(Describe(f, SessionFallback));
        case Accepted(resp) =>
          sessionId := Some(resp.sessionId);
          sessionState := resp.state;
          events := [];
          eventsCursor := Some(0);
      }
    }

    method StopSession()
      modifies this
      ensures View() == Stop(old(View()))
    {
      sessionId := None;
      sessionState := "stopped";
      eventsCursor := None;
    }

    /** One firing of the polling interval; returns the events query it
        sends, `None` when no session is bound. */
    method PollTick(outcome: PollOutcome) returns (query: Option<EventsQuery>)
      modifies this
      ensures query == EventsRequest(old(View()))
      ensures View() == Tick(old(View()), outcome)
    {
      if sessionId.None? || sessionId.value == "" {
        return None;
      }
      var cursor := if eventsCursor.Some? then eventsCursor.value else 0;
      query := Some(EventsQuery(sessionId.value, cursor, PageLimit));
      match outcome {
        case PollRaised =>
        case Page(items, nextCursor) =>
          if items.Some? && |items.value| > 0 {
            events := events + items.value;
            if nextCursor.Some? {
              eventsCursor := Some(nextCursor.value);
            } else {
              eventsCursor := None;
            }
          }
      }
    }

    /** Analyze upload; returns the file it posts, `None` when no file is
        selected and nothing is sent. */
    method AnalyzeUpload(file: Option<UploadFile>, outcome: CallOutcome<Fields>)
      returns (request: Option<UploadFile>)
      modifies this
      ensures request == file
      ensures View() == Analyze(old(View()), file, outcome)
    {
      if file.None? {
        error := Some(NoFileMessage);
        return None;
      }
      error := None;
      uploadResult := None;
      request := file;
      match outcome {
        case Rejected(status) => error := Some(AnalyzeRejectedPrefix + Decimal(status));
        case Raised(f) => error := Some(Describe(f, AnalyzeFallback));
        case Accepted(result) => uploadResult := Some(result);
      }
    }
  }

  /** Connect a webcam, start a session, receive a metric page and then a
      detection page: the log holds both in arrival order and the read-out
      shows the metric. */
  method TwoPagesScenario(e1: Event, e2: Event)
    requires IsMetric(e1) && e2.eventType == "detection"
  {
    var home := new Home();
    var body := home.ConnectSource(Webcam, "", Accepted(SourceResponse("src-1", "Webcam")));
    assert body == map["type" := "webcam"];
    var request := home.StartSession(Pipelines(true, false, false), Fast, Accepted(SessionResponse("ses-1", "running")));
    assert request == Some(SessionRequest("src-1", Pipelines(true, false, false), Fast));
    var query := home.PollTick(Page(Some([e1]), Some(1)));
    assert query == Some(EventsQuery("ses-1", 0, PageLimit));
    query := home.PollTick(Page(Some([e2]), Some(2)));
    assert query == Some(EventsQuery("ses-1", 1, PageLimit));
    assert home.events == [e1, e2];
    assert MetricEvent(home.events) == Some(e1);
  }

  /** A tick that throws leaves the log empty and the cursor at 0; the next
      tick proceeds normally from 0. After stop, no further request is sent. */
  method FailedTickScenario(e: Event)
  {
    var home := new Home();
    var body := home.ConnectSource(Rtsp, "rtsp://cam", Accepted(SourceResponse("src-1", "Camera")));
    assert body["url"] == "rtsp://cam";
    var request := home.StartSession(Pipelines(true, true, false), Accurate, Accepted(SessionResponse("ses-1", "running")));
    var query := home.PollTick(PollRaised);
    assert home.events == [] && home.eventsCursor == Some(0);
    query := home.PollTick(Page(Some([e]), None));
    assert query == Some(EventsQuery("ses-1", 0, PageLimit));
    assert home.events == [e] && home.eventsCursor == None;
    home.StopSession();
    query := home.PollTick(Page(Some([e]), Some(5)));
    assert query == None && home.events == [e];
  }
}
