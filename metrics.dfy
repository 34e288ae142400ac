/** The metric read-out of the page: `events.find((e) => e.type === "metric")`. */
module Metrics {
  import opened Types

  /** The first metric event of the log, if there is one. */
  function MetricEvent(events: seq<Event>): (r: Option<Event>)
    ensures r.Some? ==> IsMetric(r.value) && r.value in events
    ensures r.None? <==> forall i :: 0 <= i < |events| ==> !IsMetric(events[i])
  {
    if events == [] then None
    else if IsMetric(events[0]) then Some(events[0])
    else MetricEvent(events[1..])
  }

  /** The projection picks the earliest metric event, not the latest. */
  lemma {:induction false} MetricEventIsFirst(events: seq<Event>, i: nat)
    requires i < |events| && IsMetric(events[i])
    requires forall j :: 0 <= j < i ==> !IsMetric(events[j])
    ensures MetricEvent(events) == Some(events[i])
  {
    if i > 0 {
      MetricEventIsFirst(events[1..], i - 1);
    }
  }

  /** Appending a page never changes a metric read-out that is already shown;
      while none is shown, the read-out is the page's first metric. */
  lemma {:induction false} MetricEventOfAppend(log: seq<Event>, page: seq<Event>)
    ensures MetricEvent(log + page) ==
            if MetricEvent(log).Some? then MetricEvent(log) else MetricEvent(page)
  {
    if log == [] {
      assert log + page == page;
    } else {
      assert (log + page)[0] == log[0];
      assert (log + page)[1..] == log[1..] + page;
      MetricEventOfAppend(log[1..], page);
    }
  }
}
