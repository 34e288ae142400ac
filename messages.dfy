/** The error texts the page shows, including the decimal rendering of an HTTP
    status inside a template string. */
module Messages {
  import opened Types

  predicate IsDigit(c: char) {
    '0' <= c <= '9'
  }

  predicate AllDigits(s: string) {
    forall i :: 0 <= i < |s| ==> IsDigit(s[i])
  }

  function DigitChar(d: nat): (c: char)
    requires d < 10
    ensures IsDigit(c) && c as int - '0' as int == d
  {
    ('0' as int + d) as char
  }

  /** `${n}` for a non-negative integer. */
  function Decimal(n: nat): (s: string)
    ensures 1 <= |s| && AllDigits(s)
    ensures |s| > 1 ==> s[0] != '0'
  {
    if n < 10 then [DigitChar(n)] else Decimal(n / 10) + [DigitChar(n % 10)]
  }

  /** Reads a string of decimal digits back as a number. */
  function DecimalValue(s: string): nat
    requires AllDigits(s)
  {
    if s == [] then 0 else DecimalValue(s[..|s| - 1]) * 10 + (s[|s| - 1] as int - '0' as int)
  }

  lemma {:induction false} DecimalRoundTrip(n: nat)
    ensures DecimalValue(Decimal(n)) == n
  {
    if n >= 10 {
      var s := Decimal(n);
      assert s[..|s| - 1] == Decimal(n / 10);
      DecimalRoundTrip(n / 10);
    }
  }

  /** `err instanceof Error ? err.message : fallback` */
  function Describe(f: Failure, fallback: string): string {
    match f
    case ErrorObject(message) => message
    case NonError => fallback
  }

  /** The message a handler's `catch` stores for a failed call: a response that
      is not `ok` is turned into an `Error` whose message ends in the status. */
  function FailureMessage<T>(o: CallOutcome<T>, rejectedPrefix: string, fallback: string): (r: string)
    requires !o.Accepted?
    ensures o.Rejected? ==>
      |rejectedPrefix| < |r| && r[..|rejectedPrefix|] == rejectedPrefix && AllDigits(r[|rejectedPrefix|..])
    ensures o.Raised? ==> r == Describe(o.failure, fallback)
  {
    match o
    case Rejected(status) => rejectedPrefix + Decimal(status)
    case Raised(f) => Describe(f, fallback)
  }

  /** A rejection message carries the status the service answered with. */
  lemma RejectionReportsStatus<T>(o: CallOutcome<T>, prefix: string, fallback: string)
    requires o.Rejected?
    ensures var m := FailureMessage(o, prefix, fallback);
            |prefix| < |m| && m[..|prefix|] == prefix &&
            AllDigits(m[|prefix|..]) && DecimalValue(m[|prefix|..]) == o.status
  {
    var m := FailureMessage(o, prefix, fallback);
    assert m[|prefix|..] == Decimal(o.status);
    DecimalRoundTrip(o.status);
  }

  const SourceRejectedPrefix := "Failed to create source: "
  const SourceFallback := "Failed to create source"
  const NoSourceMessage := "Create or select a source first."
  const SessionRejectedPrefix := "Failed to start session: "
  const SessionFallback := "Failed to start session"
  const NoFileMessage := "Select a file to analyze."
  const AnalyzeRejectedPrefix := "Analyze failed: "
  const AnalyzeFallback := "Failed to analyze upload"
}
