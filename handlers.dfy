/** The page's session state machine as values: the state slots of the page
    component and one step function per handler. The class `Page.Home` is
    proved to follow these functions; the lemmas here state what the handlers
    promise. */
module Handlers {
  import opened Types
  import opened Messages

  /** The page's state slots that the handlers write. */
  datatype HomeState = HomeState(
    sourceId: Option<string>,
    sessionId: Option<string>,
    sessionState: string,
    events: seq<Event>,
    eventsCursor: Option<int>,
    error: Option<string>,
    uploadResult: Option<Fields>)

  /** The values the slots start with. */
  const Initial := HomeState(None, None, "ready", [], Some(0), None, None)

  /** Connect source: clear the error, then keep the returned id or report the failure. */
  function Connect(s: HomeState, outcome: CallOutcome<SourceResponse>): HomeState {
    if outcome.Accepted? then s.(error := None, sourceId := Some(outcome.body.sourceId))
    else s.(error := Some(FailureMessage(outcome, SourceRejectedPrefix, SourceFallback)))
  }

  /** The create-session request, if the start handler issues one. */
  function StartRequest(s: HomeState, pipelines: Pipelines, profile: Profile): Option<SessionRequest> {
    if Truthy(s.sourceId) then Some(SessionRequest(s.sourceId.value, pipelines, profile)) else None
  }

  /** Start session: refuse without a source; on success bind the new session
      and reset the event log and cursor. */
  function Start(s: HomeState, outcome: CallOutcome<SessionResponse>): HomeState {
    if !Truthy(s.sourceId) then s.(error := Some(NoSourceMessage))
    else if outcome.Accepted? then
      s.(error := None, sessionId := Some(outcome.body.sessionId), sessionState := outcome.body.state,
         events := [], eventsCursor := Some(0))
    else s.(error := Some(FailureMessage(outcome, SessionRejectedPrefix, SessionFallback)))
  }

  /** Stop session: purely local. */
  function Stop(s: HomeState): HomeState {
    s.(sessionId := None, sessionState := "stopped", eventsCursor := None)
  }

  /** The events request a poll tick issues: none while no session is bound,
      otherwise at `eventsCursor ?? 0`. */
  function EventsRequest(s: HomeState): Option<EventsQuery> {
    if Truthy(s.sessionId) then Some(EventsQuery(s.sessionId.value, s.eventsCursor.GetOr(0), PageLimit))
    else None
  }

  /** `data.items?.length` is truthy. */
  predicate Delivers(o: PollOutcome) {
    o.Page? && o.items.Some? && |o.items.value| > 0
  }

  /** The items a poll outcome appends. */
  function Received(o: PollOutcome): seq<Event> {
    if Delivers(o) then o.items.value else []
  }

  /** One poll tick. */
  function Tick(s: HomeState, o: PollOutcome): HomeState {
    if Truthy(s.sessionId) && Delivers(o) then
      s.(events := s.events + o.items.value, eventsCursor := o.nextCursor)
    else s
  }

  /** Analyze upload: refuse without a file; otherwise clear the error and the
      previous result, then store the new result or report the failure. */
  function Analyze(s: HomeState, file: Option<UploadFile>, o: CallOutcome<Fields>): HomeState {
    if file.None? then s.(error := Some(NoFileMessage))
    else if o.Accepted? then s.(error := None, uploadResult := Some(o.body))
    else s.(error := Some(FailureMessage(o, AnalyzeRejectedPrefix, AnalyzeFallback)), uploadResult := None)
  }

  /** Consecutive poll ticks. */
  function Ticks(s: HomeState, os: seq<PollOutcome>): HomeState
    decreases |os|
  {
    if os == [] then s else Ticks(Tick(s, os[0]), os[1..])
  }

  /** The items of consecutive poll outcomes, in order. */
  function Delivered(os: seq<PollOutcome>): seq<Event> {
    if os == [] then [] else Received(os[0]) + Delivered(os[1..])
  }

  // ---- Connect source ----

  lemma ConnectOutcome(s: HomeState, outcome: CallOutcome<SourceResponse>)
    ensures outcome.Accepted? ==>
      Connect(s, outcome) == s.(sourceId := Some(outcome.body.sourceId), error := None)
    ensures !outcome.Accepted? ==>
      Connect(s, outcome).sourceId == s.sourceId && Connect(s, outcome).error.Some? &&
      Connect(s, outcome) == s.(error := Connect(s, outcome).error)
    ensures outcome.Rejected? ==>
      Connect(s, outcome).error == Some(SourceRejectedPrefix + Decimal(outcome.status))
  {
  }

  // ---- Empty identifiers ----

  /** An empty source or session id behaves exactly like a missing one: start
      refuses and sends nothing, and a tick sends nothing and changes nothing. */
  lemma EmptyIdIsNoId(s: HomeState, pipelines: Pipelines, profile: Profile,
                      outcome: CallOutcome<SessionResponse>, o: PollOutcome)
    ensures StartRequest(s.(sourceId := Some("")), pipelines, profile) == None
    ensures Start(s.(sourceId := Some("")), outcome) == s.(sourceId := Some(""), error := Some(NoSourceMessage))
    ensures EventsRequest(s.(sessionId := Some(""))) == None
    ensures Tick(s.(sessionId := Some("")), o) == s.(sessionId := Some(""))
  {
  }

  // ---- Start session ----

  lemma StartWithoutSource(s: HomeState, pipelines: Pipelines, profile: Profile, outcome: CallOutcome<SessionResponse>)
    requires !Truthy(s.sourceId)
    ensures StartRequest(s, pipelines, profile) == None
    ensures Start(s, outcome) == s.(error := Some(NoSourceMessage))
  {
  }

  lemma StartFailure(s: HomeState, pipelines: Pipelines, profile: Profile, outcome: CallOutcome<SessionResponse>)
    requires Truthy(s.sourceId) && !outcome.Accepted?
    ensures StartRequest(s, pipelines, profile) == Some(SessionRequest(s.sourceId.value, pipelines, profile))
    ensures Start(s, outcome).error.Some?
    ensures Start(s, outcome) == s.(error := Start(s, outcome).error)
  {
  }

  lemma StartSuccess(s: HomeState, resp: SessionResponse)
    requires Truthy(s.sourceId)
    ensures var t := Start(s, Accepted(resp));
      t.sessionId == Some(resp.sessionId) && t.sessionState == resp.state &&
      t.events == [] && t.eventsCursor == Some(0) && t.error == None &&
      t.sourceId == s.sourceId && t.uploadResult == s.uploadResult
  {
  }

  // ---- Stop session ----

  lemma StopEffect(s: HomeState)
    ensures var t := Stop(s);
      t.sessionId == None && t.sessionState == "stopped" && t.eventsCursor == None &&
      t.events == s.events && t.sourceId == s.sourceId && t.error == s.error &&
      t.uploadResult == s.uploadResult
    ensures EventsRequest(Stop(s)) == None
    ensures Stop(Stop(s)) == Stop(s)
  {
  }

  /** Stop is not a no-op on a page that never started a session: it still
      overwrites the initial state and cursor. */
  lemma StopOnIdlePage()
    ensures Stop(Initial) != Initial
    ensures Stop(Initial) == Initial.(sessionState := "stopped", eventsCursor := None)
  {
  }

  // ---- Poll tick ----

  lemma TickWithoutSession(s: HomeState, o: PollOutcome)
    requires !Truthy(s.sessionId)
    ensures EventsRequest(s) == None && Tick(s, o) == s
  {
  }

  lemma TickEffect(s: HomeState, o: PollOutcome)
    requires Truthy(s.sessionId)
    ensures EventsRequest(s) == Some(EventsQuery(s.sessionId.value, s.eventsCursor.GetOr(0), PageLimit))
    ensures Delivers(o) ==>
      Tick(s, o).events == s.events + o.items.value && Tick(s, o).eventsCursor == o.nextCursor
    ensures !Delivers(o) ==> Tick(s, o) == s
    ensures Tick(s, o).(events := s.events, eventsCursor := s.eventsCursor) == s
  {
  }

  /** A non-empty page without a continuation cursor sends the next request back to 0. */
  lemma ExhaustedPageRestartsAtZero(s: HomeState, items: seq<Event>)
    requires Truthy(s.sessionId) && |items| > 0
    ensures EventsRequest(Tick(s, Page(Some(items), None))) == Some(EventsQuery(s.sessionId.value, 0, PageLimit))
  {
  }

  /** Over any run of ticks the log grows by exactly the items received, in
      order; only the log and the cursor change, and a run that receives
      nothing changes nothing. */
  lemma {:induction false} TicksAppend(s: HomeState, os: seq<PollOutcome>)
    requires Truthy(s.sessionId)
    decreases |os|
    ensures Ticks(s, os).events == s.events + Delivered(os)
    ensures Ticks(s, os).(events := s.events, eventsCursor := s.eventsCursor) == s
    ensures Delivered(os) == [] ==> Ticks(s, os) == s
  {
    if os != [] {
      var t := Tick(s, os[0]);
      TicksAppend(t, os[1..]);
      assert s.events + Received(os[0]) + Delivered(os[1..]) == s.events + Delivered(os);
    }
  }

  /** After a run of ticks on a bound session, the cursor is the `nextCursor`
      (null when absent) of the last page that delivered items, and is
      unchanged when none did. `k` is the index of that last page, or -1. */
  lemma {:induction false} TicksCursor(s: HomeState, os: seq<PollOutcome>, k: int)
    requires Truthy(s.sessionId)
    requires -1 <= k < |os|
    requires k >= 0 ==> Delivers(os[k])
    requires forall j :: k < j < |os| ==> !Delivers(os[j])
    decreases |os|
    ensures Ticks(s, os).eventsCursor == if k < 0 then s.eventsCursor else os[k].nextCursor
  {
    if os != [] {
      var t := Tick(s, os[0]);
      TicksCursor(t, os[1..], if k <= 0 then -1 else k - 1);
    }
  }

  /** Without a bound session, ticks do nothing. */
  lemma {:induction false} TicksWithoutSession(s: HomeState, os: seq<PollOutcome>)
    requires !Truthy(s.sessionId)
    decreases |os|
    ensures Ticks(s, os) == s
  {
    if os != [] {
      TicksWithoutSession(Tick(s, os[0]), os[1..]);
    }
  }

  /** After a successful start, the log is exactly the concatenation of the
      pages received since, in the order they arrived. */
  lemma StartThenPoll(s: HomeState, resp: SessionResponse, os: seq<PollOutcome>)
    requires Truthy(s.sourceId) && resp.sessionId != ""
    ensures Ticks(Start(s, Accepted(resp)), os).events == Delivered(os)
  {
    TicksAppend(Start(s, Accepted(resp)), os);
  }

  // ---- Analyze upload ----

  lemma AnalyzeEffect(s: HomeState, file: Option<UploadFile>, o: CallOutcome<Fields>)
    ensures Analyze(s, file, o).(error := s.error, uploadResult := s.uploadResult) == s
    ensures file.None? ==> Analyze(s, file, o) == s.(error := Some(NoFileMessage))
    ensures file.Some? ==>
      (Analyze(s, file, o).error.None? <==> o.Accepted?) &&
      Analyze(s, file, o).uploadResult == (if o.Accepted? then Some(o.body) else None)
  {
  }
}
