/**
 * The client-side helpers of lib/ai/claude.ts: the mapping of the SDK's errors
 * onto the application's own error kinds, the character-based token estimate,
 * and the in-memory sliding-window request limiter.
 *
 * Clock readings (`Date.now()`) are parameters; the SDK's error classes are a
 * datatype with one constructor per class the mapping tests for.
 */
module Claude {
  import opened Js

  // ---------------------------------------------------------------------------
  // parseInt

  /** A JavaScript number as `parseInt` can produce it: an integer or NaN. */
  datatype ParsedInt = NaN | Int(value: int)

  predicate IsHexDigit(c: char) {
    IsDigit(c) || ('a' <= c <= 'f') || ('A' <= c <= 'F')
  }

  function HexValue(c: char): (v: nat)
    requires IsHexDigit(c)
    ensures v < 16
  {
    if IsDigit(c) then c as int - '0' as int
    else if 'a' <= c <= 'f' then c as int - 'a' as int + 10
    else c as int - 'A' as int + 10
  }

  predicate InRadix(c: char, hex: bool) {
    if hex then IsHexDigit(c) else IsDigit(c)
  }

  /** The longest prefix of `s` made of digits of the radix. */
  function LeadingDigits(s: string, hex: bool): (r: string)
    ensures |r| <= |s| && r == s[..|r|]
    ensures forall i :: 0 <= i < |r| ==> InRadix(r[i], hex)
    ensures |r| < |s| ==> !InRadix(s[|r|], hex)
  {
    if s != [] && InRadix(s[0], hex) then [s[0]] + LeadingDigits(s[1..], hex) else []
  }

  /** The value of a string of digits in base 16 or 10. */
  function RadixValue(s: string, hex: bool): nat
    requires forall i :: 0 <= i < |s| ==> InRadix(s[i], hex)
  {
    if s == [] then 0
    else
      var last := s[|s| - 1];
      assert InRadix(last, hex);
      (if hex then 16 else 10) * RadixValue(s[..|s| - 1], hex) + (if hex then HexValue(last) else last as int - '0' as int)
  }

  /**
   * `parseInt(s)` with no radix: leading whitespace is skipped, one sign is
   * allowed, a `0x`/`0X` prefix selects base 16, and the longest run of digits
   * that follows is read; no digit at all gives NaN.
   */
  function ParseInt(s: string): (r: ParsedInt)
  {
    ParseSigned(TrimStart(s))
  }

  /** The text after the leading whitespace: an optional sign, then the magnitude. */
  function ParseSigned(t: string): ParsedInt {
    var negative := |t| > 0 && t[0] == '-';
    var u := if |t| > 0 && (t[0] == '-' || t[0] == '+') then t[1..] else t;
    ParseMagnitude(u, negative)
  }

  /** An optional `0x`/`0X` prefix, then the longest run of digits of that radix. */
  function ParseMagnitude(u: string, negative: bool): ParsedInt {
    var hex := |u| >= 2 && u[0] == '0' && (u[1] == 'x' || u[1] == 'X');
    var body := if hex then u[2..] else u;
    var digits := LeadingDigits(body, hex);
    if digits == [] then NaN
    else
      var v: int := RadixValue(digits, hex);
      Int(if negative then -v else v)
  }

  lemma {:induction false} RadixValueDecimal(s: string)
    requires forall i :: 0 <= i < |s| ==> IsDigit(s[i])
    ensures RadixValue(s, false) == DigitsValue(s)
  {
    if s != [] {
      RadixValueDecimal(s[..|s| - 1]);
    }
  }

  lemma {:induction false} LeadingDigitsAll(s: string)
    requires forall i :: 0 <= i < |s| ==> IsDigit(s[i])
    ensures LeadingDigits(s, false) == s
  {
    if s != [] {
      LeadingDigitsAll(s[1..]);
    }
  }

  /** A run of decimal digits reads as its value. */
  lemma ParseIntDigits(s: string)
    requires |s| >= 1 && forall i :: 0 <= i < |s| ==> IsDigit(s[i])
    ensures ParseInt(s) == Int(DigitsValue(s))
  {
    TrimStartOfDigit(s);
    assert ParseSigned(s) == ParseMagnitude(s, false);
    DecimalMagnitude(s);
  }

  lemma TrimStartOfDigit(s: string)
    requires |s| >= 1 && IsDigit(s[0])
    ensures TrimStart(s) == s
  {
    assert !IsSpace(s[0]);
  }

  /** Digits are never "0x", so they are read in base 10, all of them. */
  lemma DecimalMagnitude(s: string)
    requires |s| >= 1 && forall i :: 0 <= i < |s| ==> IsDigit(s[i])
    ensures ParseMagnitude(s, false) == Int(DigitsValue(s))
  {
    assert !(|s| >= 2 && s[0] == '0' && (s[1] == 'x' || s[1] == 'X')) by {
      if |s| >= 2 { assert IsDigit(s[1]); }
    }
    LeadingDigitsAll(s);
    RadixValueDecimal(s);
  }

  /**
   * The delta-seconds form of `Retry-After` (a run of decimal digits, section
   * 10.2.3 of RFC 9110) is read back as the number it writes.
   */
  lemma ParseIntDeltaSeconds(n: nat)
    ensures ParseInt(NatToString(n)) == Int(n)
  {
    ParseIntDigits(NatToString(n));
    NatToStringValue(n);
  }

  /** The HTTP-date form of `Retry-After` starts with a day name, so it parses to NaN. */
  lemma ParseIntHttpDate(s: string)
    requires |s| > 0 && 'A' <= s[0] <= 'Z'
    ensures ParseInt(s) == NaN
  {
    TrimStartOfLetter(s);
    assert ParseSigned(s) == ParseMagnitude(s, false);
    LetterMagnitude(s);
  }

  lemma TrimStartOfLetter(s: string)
    requires |s| > 0 && 'A' <= s[0] <= 'Z'
    ensures TrimStart(s) == s
  {
    assert !IsSpace(s[0]);
  }

  /** A capital letter is neither a decimal digit nor the start of "0x". */
  lemma LetterMagnitude(s: string)
    requires |s| > 0 && 'A' <= s[0] <= 'Z'
    ensures ParseMagnitude(s, false) == NaN
  {
    assert !InRadix(s[0], false);
    assert LeadingDigits(s, false) == [];
  }

  // ---------------------------------------------------------------------------
  // error mapping

  /** The SDK errors `handleClaudeError` distinguishes, in the order it tests them. */
  datatype SdkError =
    | ConnectionError(message: string)
    | RateLimitError(retryAfterHeader: Option<string>)
    | ApiError(status: Option<int>, message: string)
    | OtherError(isError: bool, message: string)

  /** The application's error classes: `ClaudeError` and its two subclasses. */
  datatype ClaudeError =
    | Plain(message: string, statusCode: Option<int>)
    | RateLimited(message: string, retryAfter: Option<ParsedInt>)
    | Overloaded(message: string)
  {
    function StatusCode(): Option<int> {
      match this
      case Plain(_, code) => code
      case RateLimited(_, _) => Some(429)
      case Overloaded(_) => Some(529)
    }
  }

  /** What the wrapped operation settles to: a value, a mapped error, or the original error rethrown. */
  datatype Settled<T> = Done(value: T) | Mapped(error: ClaudeError) | Rethrown(original: SdkError)

  /** The error `handleClaudeError` throws in place of the SDK's. */
  function MapSdkError<T>(e: SdkError): (r: Settled<T>)
    ensures r.Rethrown? <==> e.OtherError?
    ensures r.Rethrown? ==> r.original == e
    ensures e.ConnectionError? ==>
      (r.Mapped? && r.error.Plain? && r.error.statusCode.None? && r.error.message == "Connection failed: " + e.message)
    ensures r.Mapped? && r.error.RateLimited? <==> e.RateLimitError?
    ensures r.Mapped? && r.error.Overloaded? <==> e.ApiError? && e.status == Some(529)
    ensures e.ApiError? && e.status != Some(529) ==> r == Mapped(Plain(e.message, e.status))
    ensures r.Mapped? && r.error.RateLimited? ==>
      r.error.retryAfter == (if e.retryAfterHeader.Some? && e.retryAfterHeader.value != ""
                             then Some(ParseInt(e.retryAfterHeader.value)) else None)
  {
    match e
    case ConnectionError(msg) => Mapped(Plain("Connection failed: " + msg, None))
    case RateLimitError(header) =>
      var retryAfter := if header.Some? && header.value != "" then Some(ParseInt(header.value)) else None;
      Mapped(RateLimited("Rate limit exceeded. Please try again later.", retryAfter))
    case ApiError(status, msg) =>
      if status == Some(529) then
        Mapped(Overloaded("Claude API is currently overloaded. Please try again in a few moments."))
      else Mapped(Plain(msg, status))
    case OtherError(_, _) => Rethrown(e)
  }

  /** What the wrapped operation itself does: return a value or throw an SDK error. */
  datatype Attempt<T> = Returned(value: T) | Threw(error: SdkError)

  /** `handleClaudeError(operation)`: a value passes through, a thrown error is mapped. */
  function HandleClaudeError<T>(attempt: Attempt<T>): (r: Settled<T>)
    ensures attempt.Returned? <==> r.Done?
    ensures attempt.Returned? ==> r.value == attempt.value
  {
    match attempt
    case Returned(v) => Done(v)
    case Threw(e) => MapSdkError(e)
  }

  /** A rate-limit error always carries 429 and an overloaded API 529; any other API status is kept. */
  lemma HandleClaudeErrorStatus<T>(e: SdkError)
    ensures var r := HandleClaudeError<T>(Threw(e));
      && (e.RateLimitError? ==> r.error.StatusCode() == Some(429))
      && (e.ApiError? ==> r.error.StatusCode() == e.status)
      && (e.ConnectionError? ==> r.error.StatusCode() == None)
  {
  }

  /** A `Retry-After: <n>` header becomes `retryAfter = n`. */
  lemma RetryAfterSeconds<T>(n: nat)
    ensures HandleClaudeError<T>(Threw(RateLimitError(Some(NatToString(n))))) ==
      Mapped(RateLimited("Rate limit exceeded. Please try again later.", Some(Int(n))))
  {
    var h := NatToString(n);
    ParseIntDeltaSeconds(n);
    RateLimitWithHeader<T>(h);
  }

  lemma RateLimitWithHeader<T>(h: string)
    requires h != ""
    ensures HandleClaudeError<T>(Threw(RateLimitError(Some(h)))) ==
      Mapped(RateLimited("Rate limit exceeded. Please try again later.", Some(ParseInt(h))))
  {
  }

  // ---------------------------------------------------------------------------
  // token estimates

  /** About four characters per token, rounded up. */
  function EstimateTokens(text: string): (r: int)
    ensures 4 * (r - 1) < |text| <= 4 * r
    ensures r >= 0 && (r == 0 <==> text == [])
  {
    CeilDiv(|text|, 4)
  }

  datatype Message = Message(role: string, content: string)

  function Contents(messages: seq<Message>): (r: seq<string>)
    ensures |r| == |messages| && forall i :: 0 <= i < |r| ==> r[i] == messages[i].content
  {
    if messages == [] then [] else [messages[0].content] + Contents(messages[1..])
  }

  /** The contents one after another. */
  function Concat(parts: seq<string>): string {
    if parts == [] then "" else parts[0] + Concat(parts[1..])
  }

  lemma {:induction false} JoinEmptyIsConcat(parts: seq<string>)
    ensures Join(parts, "") == Concat(parts)
  {
    if |parts| > 1 {
      JoinEmptyIsConcat(parts[1..]);
      assert parts[0] + "" == parts[0];
    } else if |parts| == 1 {
      assert Concat(parts[1..]) == "";
    }
  }

  lemma {:induction false} ConcatLength(a: seq<string>, b: seq<string>)
    ensures |Concat(a + b)| == |Concat(a)| + |Concat(b)|
  {
    if a == [] {
      assert a + b == b;
    } else {
      assert (a + b)[1..] == a[1..] + b;
      ConcatLength(a[1..], b);
    }
  }

  /** `estimateTokensForMessages`: the estimate of all contents joined with no separator. */
  function EstimateTokensForMessages(messages: seq<Message>): (r: int)
    ensures 4 * (r - 1) < |Concat(Contents(messages))| <= 4 * r
  {
    JoinEmptyIsConcat(Contents(messages));
    EstimateTokens(Join(Contents(messages), ""))
  }

  /**
   * Estimating two conversations together never costs more than estimating
   * them apart, and at most one token less.
   */
  lemma EstimateTokensForMessagesAppend(a: seq<Message>, b: seq<Message>)
    ensures var whole := EstimateTokensForMessages(a + b);
      var parts := EstimateTokensForMessages(a) + EstimateTokensForMessages(b);
      whole <= parts <= whole + 1
  {
    ContentsAppend(a, b);
    ConcatLength(Contents(a), Contents(b));
    var m, n := |Concat(Contents(a))|, |Concat(Contents(b))|;
    CeilQuarterOfSum(EstimateTokensForMessages(a), EstimateTokensForMessages(b), EstimateTokensForMessages(a + b), m, n);
  }

  lemma ContentsAppend(a: seq<Message>, b: seq<Message>)
    ensures Contents(a + b) == Contents(a) + Contents(b)
  {
    var l, r := Contents(a + b), Contents(a) + Contents(b);
    forall i | 0 <= i < |l| ensures l[i] == r[i] {
      if i < |a| {
        assert (a + b)[i] == a[i];
      } else {
        assert (a + b)[i] == b[i - |a|];
      }
    }
  }

  /** Rounding up quarters: the rounded sum is at most the sum of the rounded parts, and at most one less. */
  lemma CeilQuarterOfSum(x: int, y: int, z: int, m: int, n: int)
    requires 4 * (x - 1) < m <= 4 * x && 4 * (y - 1) < n <= 4 * y
    requires 4 * (z - 1) < m + n <= 4 * z
    ensures z <= x + y <= z + 1
  {
  }

  // ---------------------------------------------------------------------------
  // sliding-window limiter

  /** The timestamps still inside the window ending at `now`, in order. */
  function InWindow(requests: seq<int>, now: int, windowMs: int): (r: seq<int>)
    ensures |r| <= |requests|
    ensures forall t :: t in r <==> t in requests && now - t < windowMs
  {
    if requests == [] then []
    else (if now - requests[0] < windowMs then [requests[0]] else []) + InWindow(requests[1..], now, windowMs)
  }

  predicate Ascending(s: seq<int>) {
    forall i, j :: 0 <= i < j < |s| ==> s[i] <= s[j]
  }

  lemma {:induction false} InWindowAscending(requests: seq<int>, now: int, windowMs: int)
    ensures Ascending(requests) ==> Ascending(InWindow(requests, now, windowMs))
  {
    if requests != [] && Ascending(requests) {
      InWindowAscending(requests[1..], now, windowMs);
      var rest := InWindow(requests[1..], now, windowMs);
      if now - requests[0] < windowMs {
        var r := [requests[0]] + rest;
        forall i, j | 0 <= i < j < |r| ensures r[i] <= r[j] {
          if i == 0 {
            assert r[j] in requests[1..];
          }
        }
      }
    }
  }

  /** Either a number of milliseconds or NaN (`undefined` used in arithmetic). */
  datatype Wait = Millis(ms: int) | NotANumber

  /** `getWaitTime` after its own `canMakeRequest` at `now1`, reading the clock again as `now2`. */
  function WaitTime(requests: seq<int>, maxRequests: int, windowMs: int, now1: int, now2: int): (w: Wait)
  {
    var kept := InWindow(requests, now1, windowMs);
    if |kept| < maxRequests then Millis(0)
    else if kept == [] then NotANumber
    else Millis(windowMs - (now2 - kept[0]))
  }

  /**
   * When the limiter is full, the wait is positive and at most one window,
   * provided no stored time lies in the future and the clock is read once.
   */
  lemma WaitTimeBounds(requests: seq<int>, maxRequests: int, windowMs: int, now: int)
    requires maxRequests >= 1 && windowMs > 0
    requires forall t :: t in requests ==> t <= now
    ensures var w := WaitTime(requests, maxRequests, windowMs, now, now);
      w.Millis? && 0 <= w.ms <= windowMs
      && (w.ms == 0 <==> |InWindow(requests, now, windowMs)| < maxRequests)
  {
    var kept := InWindow(requests, now, windowMs);
    if |kept| >= maxRequests {
      assert kept[0] in kept;
      assert kept[0] in requests && now - kept[0] < windowMs;
    }
  }

  class RateLimiter {
    var requests: seq<int>
    const windowMs: int
    const maxRequests: int

    constructor (maxRequests: int, windowMs: int)
      ensures this.maxRequests == maxRequests && this.windowMs == windowMs && requests == []
    {
      this.maxRequests := maxRequests;
      this.windowMs := windowMs;
      requests := [];
    }

    /** Forgets the requests outside the window and tells whether one more fits. */
    method CanMakeRequest(now: int) returns (ok: bool)
      modifies this
      ensures requests == InWindow(old(requests), now, windowMs)
      ensures ok <==> |requests| < maxRequests
      ensures Ascending(old(requests)) ==> Ascending(requests)
    {
      InWindowAscending(requests, now, windowMs);
      requests := InWindow(requests, now, windowMs);
      ok := |requests| < maxRequests;
    }

    /** Appends the current time; with a clock that does not run backwards the list stays in order. */
    method RecordRequest(now: int)
      modifies this
      ensures requests == old(requests) + [now]
      ensures Ascending(old(requests)) && (forall t :: t in old(requests) ==> t <= now) ==> Ascending(requests)
    {
      ghost var before := requests;
      requests := requests + [now];
      if Ascending(before) && (forall t :: t in before ==> t <= now) {
        forall i, j | 0 <= i < j < |requests| ensures requests[i] <= requests[j] {
          if j == |before| {
            assert requests[i] in before;
          }
        }
      }
    }

    method GetWaitTime(now1: int, now2: int) returns (w: Wait)
      modifies this
      ensures requests == InWindow(old(requests), now1, windowMs)
      ensures w == WaitTime(old(requests), maxRequests, windowMs, now1, now2)
    {
      var ok := CanMakeRequest(now1);
      if ok {
        return Millis(0);
      }
      if requests == [] {
        return NotANumber;
      }
      var oldest := requests[0];
      w := Millis(windowMs - (now2 - oldest));
    }
  }

  /** The limiter the application shares for every Claude call: 50 requests a minute. */
  const GlobalMaxRequests := 50
  const GlobalWindowMs := 60000
}
