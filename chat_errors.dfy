/** The server's `/chat` handler (server/src/routes/chat.ts): a successful
    `askAI` answer is returned as `{answer}`; a thrown value is classified as
    a rate-limit or quota error, whose `RetryInfo` detail gives the delay for
    a `Retry-After` header (delay-seconds, section 10.2.3 of RFC 9110), or as
    any other error. The awaited `askAI` call is a parameter: its outcome. */
module ChatErrors {
  import opened Common

  /** `err && (err.status === 429 || (err.errorDetails && Array.isArray(err.errorDetails)))`;
      an empty array is truthy, so any array makes the error a quota error. */
  predicate IsQuota(e: Thrown) {
    e.ErrorValue? && (e.status == Some(429) || e.errorDetails.DetailArray?)
  }

  const DefaultRetrySeconds := 60
  const QuotaStatus := 503
  const QuotaMessage := "Rate limit / quota exceeded"

  // ------------------------------------------------- the `/(\d+)(s)?/` match

  /** Where the leftmost match of the pattern starts: the first ASCII digit. */
  function FirstDigitAt(s: string): (r: Option<nat>)
    ensures r.Some? ==> r.value < |s| && IsDigit(s[r.value]) && forall j | 0 <= j < r.value :: !IsDigit(s[j])
    ensures r.None? ==> forall j | 0 <= j < |s| :: !IsDigit(s[j])
    decreases |s|
  {
    if |s| == 0 then None
    else if IsDigit(s[0]) then Some(0)
    else match FirstDigitAt(s[1..]) case None => None case Some(i) => Some(i + 1)
  }

  /** The greedy `\d+` from the start of `s`: the longest digit prefix. */
  function LeadingDigits(s: string): (r: string)
    ensures StartsWith(s, r) && AllDigits(r)
    ensures |r| == |s| || !IsDigit(s[|r|])
    decreases |s|
  {
    if |s| > 0 && IsDigit(s[0]) then [s[0]] + LeadingDigits(s[1..]) else ""
  }

  /** `parseInt(m[1], 10)` of `String(d.retryDelay).match(/(\d+)(s)?/)`, or
      nothing when the text holds no digit. */
  function DelaySeconds(text: string): Option<nat> {
    match FirstDigitAt(text)
    case None => None
    case Some(i) => Some(ParseDigits(LeadingDigits(text[i..])))
  }

  /** The delay one `errorDetails` element contributes: a truthy `@type`
      whose text includes `RetryInfo`, a truthy `retryDelay`, and a digit in
      the delay's text. */
  function DetailDelay(d: ErrorDetail): Option<nat> {
    if d.DetailEntry? && d.typeTag.Truthy? && Contains(d.typeTag.text, "RetryInfo") && d.retryDelay.Truthy?
    then DelaySeconds(d.retryDelay.text)
    else None
  }

  // ---------------------------------------------------------- the scan

  /** The details the loop gets to inspect: those before the first element
      whose inspection throws, since the throw leaves the loop. */
  function BeforeThrow(ds: seq<ErrorDetail>): (r: seq<ErrorDetail>)
    ensures |r| <= |ds| && r == ds[..|r|]
    ensures forall k | 0 <= k < |r| :: !r[k].ThrowingDetail?
    ensures |r| < |ds| ==> ds[|r|].ThrowingDetail?
    decreases |ds|
  {
    if |ds| == 0 || ds[0].ThrowingDetail? then [] else [ds[0]] + BeforeThrow(ds[1..])
  }

  /** The delay of the last contributing detail, read from the end. */
  function LastDelay(ds: seq<ErrorDetail>): Option<nat>
    decreases |ds|
  {
    if |ds| == 0 then None
    else match DetailDelay(ds[|ds| - 1])
      case Some(v) => Some(v)
      case None => LastDelay(ds[..|ds| - 1])
  }

  /** `retrySeconds` after the `try` around the loop. */
  function ScannedDelay(e: Thrown): Option<nat> {
    if e.ErrorValue? && e.errorDetails.DetailArray? then LastDelay(BeforeThrow(e.errorDetails.items)) else None
  }

  /** `retrySeconds` once the default is applied. */
  function RetrySeconds(e: Thrown): nat {
    match ScannedDelay(e) case None => DefaultRetrySeconds case Some(v) => v
  }

  /** The `for` loop over the details inside its `try`: each contributing
      detail overwrites the value, and a throwing element ends the scan with
      the value found so far. */
  method ScanRetryDelay(ds: seq<ErrorDetail>) returns (retry: Option<nat>)
    ensures retry == LastDelay(BeforeThrow(ds))
  {
    retry := None;
    var i := 0;
    while i < |ds| && !ds[i].ThrowingDetail?
      invariant 0 <= i <= |ds|
      invariant forall k | 0 <= k < i :: !ds[k].ThrowingDetail?
      invariant retry == LastDelay(ds[..i])
    {
      assert ds[..i + 1][..i] == ds[..i];
      var found := DetailDelay(ds[i]);
      if found.Some? {
        retry := found;
      }
      i := i + 1;
    }
    ThrowPrefix(ds, i);
  }

  lemma {:induction false} ThrowPrefix(ds: seq<ErrorDetail>, i: nat)
    requires i <= |ds| && forall k | 0 <= k < i :: !ds[k].ThrowingDetail?
    requires i == |ds| || ds[i].ThrowingDetail?
    ensures BeforeThrow(ds) == ds[..i]
    decreases i
  {
    if i > 0 {
      ThrowPrefix(ds[1..], i - 1);
      assert ds[..i] == [ds[0]] + ds[1..][..i - 1];
    }
  }

  // ---------------------------------------------------------- the handler

  datatype ChatReply =
    | AnswerJson(answer: string)
    | QuotaExceeded(status: int, retryAfterHeader: string, error: string, retryAfter: nat)
    | AiError(status: int, error: string)

  /** `POST /chat`, given the outcome of `await askAI(question)`. */
  method HandleChat(outcome: Result<string, Thrown>) returns (r: ChatReply)
    ensures outcome.Ok? ==> r == AnswerJson(outcome.value)
    ensures outcome.Err? && IsQuota(outcome.error) ==>
      r == QuotaExceeded(QuotaStatus, ShowNat(RetrySeconds(outcome.error)), QuotaMessage, RetrySeconds(outcome.error))
    ensures outcome.Err? && !IsQuota(outcome.error) ==> r == AiError(500, "AI Error")
  {
    if outcome.Ok? {
      return AnswerJson(outcome.value);
    }
    var err := outcome.error;
    if IsQuota(err) {
      var retrySeconds: Option<nat> := None;
      if err.errorDetails.DetailArray? {
        retrySeconds := ScanRetryDelay(err.errorDetails.items);
      }
      var seconds := if retrySeconds.None? then DefaultRetrySeconds else retrySeconds.value;
      return QuotaExceeded(QuotaStatus, ShowNat(seconds), QuotaMessage, seconds);
    }
    r := AiError(500, "AI Error");
  }

  // ----------------------------------------------------------- properties

  /** A digit run followed by a non-digit or the end is read in full. */
  lemma {:induction false} LeadingDigitsOf(w: string, q: string)
    requires AllDigits(w)
    requires |q| == 0 || !IsDigit(q[0])
    ensures LeadingDigits(w + q) == w
    decreases |w|
  {
    if |w| > 0 {
      assert (w + q)[1..] == w[1..] + q;
      LeadingDigitsOf(w[1..], q);
      assert [w[0]] + w[1..] == w;
    } else {
      assert w + q == q;
    }
  }

  /** After a digit-free prefix, the match starts where the digits do. */
  lemma {:induction false} FirstDigitAfter(p: string, t: string)
    requires forall j | 0 <= j < |p| :: !IsDigit(p[j])
    requires |t| > 0 && IsDigit(t[0])
    ensures FirstDigitAt(p + t) == Some(|p|)
    decreases |p|
  {
    if |p| == 0 {
      assert p + t == t;
    } else {
      assert (p + t)[1..] == p[1..] + t;
      assert (p + t)[0] == p[0];
      FirstDigitAfter(p[1..], t);
    }
  }

  /** The delay text a number's decimal form makes, between a digit-free
      prefix and a suffix such as `s` or `.5s`, reads back as that number. */
  lemma DelayOfNumeral(p: string, n: nat, q: string)
    requires forall j | 0 <= j < |p| :: !IsDigit(p[j])
    requires |q| == 0 || !IsDigit(q[0])
    ensures DelaySeconds(p + ShowNat(n) + q) == Some(n)
  {
    var w := ShowNat(n);
    assert IsDigit((w + q)[0]);
    FirstDigitAfter(p, w + q);
    ConcatAssoc(p, w, q);
    assert (p + (w + q))[|p|..] == w + q;
    LeadingDigitsOf(w, q);
    ParseShowNat(n);
  }

  /** Any text without a digit yields no delay. */
  lemma NoDigitNoDelay(text: string)
    requires forall j | 0 <= j < |text| :: !IsDigit(text[j])
    ensures DelaySeconds(text).None?
  {
  }

  /** A later contributing detail overwrites every earlier value. */
  lemma LaterOverwrites(ds: seq<ErrorDetail>, d: ErrorDetail)
    requires DetailDelay(d).Some?
    ensures LastDelay(ds + [d]) == DetailDelay(d)
  {
  }

  /** A detail that contributes nothing keeps the value found before it. */
  lemma NonMatchingKeeps(ds: seq<ErrorDetail>, d: ErrorDetail)
    requires DetailDelay(d).None?
    ensures LastDelay(ds + [d]) == LastDelay(ds)
  {
    assert (ds + [d])[..|ds|] == ds;
  }

  /** An element that throws mid-scan keeps what was found before it and
      hides everything after it. */
  lemma ThrowKeepsEarlier(a: seq<ErrorDetail>, b: seq<ErrorDetail>)
    requires forall k | 0 <= k < |a| :: !a[k].ThrowingDetail?
    ensures LastDelay(BeforeThrow(a + [ThrowingDetail] + b)) == LastDelay(a)
  {
    var ds := a + [ThrowingDetail] + b;
    ThrowPrefix(ds, |a|);
    assert ds[..|a|] == a;
  }

  /** With no contributing detail the delay is the sixty-second default. */
  lemma {:induction false} NoMatchDefault(e: Thrown)
    requires e.ErrorValue? && e.errorDetails.DetailArray?
    requires forall k | 0 <= k < |e.errorDetails.items| :: DetailDelay(e.errorDetails.items[k]).None?
    ensures RetrySeconds(e) == DefaultRetrySeconds
  {
    var ds := BeforeThrow(e.errorDetails.items);
    NoMatchNone(ds);
  }

  lemma {:induction false} NoMatchNone(ds: seq<ErrorDetail>)
    requires forall k | 0 <= k < |ds| :: DetailDelay(ds[k]).None?
    ensures LastDelay(ds).None?
    decreases |ds|
  {
    if |ds| > 0 {
      NoMatchNone(ds[..|ds| - 1]);
    }
  }

  /** The `Retry-After` header is delay-seconds (one or more digits) and
      reads back as the `retry_after` value of the body. */
  lemma RetryAfterAgrees(e: Thrown)
    ensures var h := ShowNat(RetrySeconds(e));
      |h| > 0 && AllDigits(h) && ParseDigits(h) == RetrySeconds(e)
  {
    ParseShowNat(RetrySeconds(e));
  }
}
