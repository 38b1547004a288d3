/**
 * Timing engine and defense detector (scraper/delays.go). Every `rand` draw is an injected
 * value satisfying the range the Go call guarantees; every `time.Sleep` is dropped, and the
 * durations that would have been slept are returned where they matter. Durations are Go
 * `time.Duration` values, i.e. nanoseconds.
 */
module Timing {
  import opened Wrappers
  import opened Browser

  const Millisecond: int := 1_000_000
  const Second: int := 1000 * Millisecond

  // ---------------------------------------------------------------------------------------
  // Delays
  // ---------------------------------------------------------------------------------------

  /**
   * randomDelay: `draw` stands for rand.Int63n(max - min), so it is only constrained when
   * that range is positive. A degenerate range gives the minimum without drawing.
   */
  function RandomDelay(minDelay: int, maxDelay: int, draw: int): (d: int)
    requires maxDelay - minDelay > 0 ==> 0 <= draw < maxDelay - minDelay
    ensures maxDelay - minDelay <= 0 ==> d == minDelay
    ensures maxDelay - minDelay > 0 ==> minDelay <= d < maxDelay
  {
    if maxDelay - minDelay <= 0 then minDelay else draw + minDelay
  }

  /** shortDelay: `draw` stands for rand.Intn(1000); the pause is 500 to 1499 whole milliseconds. */
  function ShortDelay(draw: int): (d: int)
    requires 0 <= draw < 1000
    ensures 500 * Millisecond <= d <= 1499 * Millisecond
    ensures d % Millisecond == 0
  {
    (draw + 500) * Millisecond
  }

  // ---------------------------------------------------------------------------------------
  // Scrolling
  // ---------------------------------------------------------------------------------------

  /** The fallback page height used when the height probe does not yield an int64. */
  const FallbackHeight: int := 3000

  function ProbedHeight(v: ScriptValue): int {
    match v
    case Int64(h) => h
    case NonInteger => FallbackHeight
  }

  /** One scroll step: 300 shifted by rand.Intn(200) - 100, never below 100. */
  function ScrollAmount(jitter: int): (amount: int)
    ensures amount >= 100
    ensures 0 <= jitter < 200 ==> 200 <= amount <= 399
  {
    var amount := 300 + (jitter - 100);
    if amount < 100 then 100 else amount
  }

  function Sum(s: seq<int>): int {
    if |s| == 0 then 0 else Sum(s[..|s| - 1]) + s[|s| - 1]
  }

  lemma SumSnoc(s: seq<int>, x: int)
    ensures Sum(s + [x]) == Sum(s) + x
  {
    assert (s + [x])[..|s|] == s;
  }

  /**
   * humanLikeScrolling against injected script outcomes. `probe` is the result of the height
   * script, `jitter(k)` the rand.Intn(200) draw of step k, `scrollBy(k)` the outcome of the
   * k-th scrollBy script and `scrollTop` that of the final scrollTo(0, 0). Returns the error,
   * the scroll amounts dispatched (in order) and whether the return to the top was issued.
   */
  method HumanLikeScrolling(probe: Result<ScriptValue>, jitter: nat -> int,
                            scrollBy: nat -> Status, scrollTop: Status)
    returns (err: Status, amounts: seq<int>, reset: bool)
    requires forall k :: 0 <= jitter(k) < 200
    ensures probe.Err? ==> err == Fail(probe.msg) && amounts == [] && !reset
    ensures forall k :: 0 <= k < |amounts| ==> amounts[k] == ScrollAmount(jitter(k))
    ensures forall k :: 0 <= k < |amounts| ==> 200 <= amounts[k] <= 399
    // no step is taken once the accumulated position has reached the height
    ensures probe.Ok? && |amounts| > 0 ==> Sum(amounts[..|amounts| - 1]) < ProbedHeight(probe.value)
    // normal exit: the whole height is covered, then the page returns to the top
    ensures reset ==> probe.Ok? && Sum(amounts) >= ProbedHeight(probe.value) && err == scrollTop
    ensures reset ==> forall k :: 0 <= k < |amounts| ==> scrollBy(k).Pass?
    // a failing step aborts the loop and is the error returned
    ensures probe.Ok? && !reset ==> |amounts| > 0 && err == scrollBy(|amounts| - 1) && err.Fail?
    ensures probe.Ok? && !reset ==> forall k :: 0 <= k < |amounts| - 1 ==> scrollBy(k).Pass?
  {
    if probe.Err? {
      return Fail(probe.msg), [], false;
    }
    var height := ProbedHeight(probe.value);
    var position := 0;
    amounts := [];
    while position < height
      invariant position == Sum(amounts)
      invariant forall k :: 0 <= k < |amounts| ==> amounts[k] == ScrollAmount(jitter(k))
      invariant forall k :: 0 <= k < |amounts| ==> 200 <= amounts[k] <= 399
      invariant forall k :: 0 <= k < |amounts| ==> scrollBy(k).Pass?
      invariant |amounts| > 0 ==> Sum(amounts[..|amounts| - 1]) < height
      decreases height - position
    {
      var k := |amounts|;
      var amount := ScrollAmount(jitter(k));
      SumSnoc(amounts, amount);
      ghost var before := amounts;
      amounts := amounts + [amount];
      assert amounts[..k] == before;
      if scrollBy(k).Fail? {
        return scrollBy(k), amounts, false;
      }
      position := position + amount;
    }
    return scrollTop, amounts, true;
  }

  // ---------------------------------------------------------------------------------------
  // User agent, mouse, keystrokes
  // ---------------------------------------------------------------------------------------

  /**
   * rotateUserAgent: `draw` stands for rand.Intn(len(agents)) and `script` for the outcome of
   * the override script. Returns the error and the agent the script ran with, if it ran.
   */
  function RotateUserAgent(agents: seq<string>, draw: int, script: Status): (r: (Status, Option<string>))
    requires |agents| > 0 ==> 0 <= draw < |agents|
    ensures |agents| == 0 ==> r == (Pass, None)
    ensures |agents| > 0 ==> r.1.Some? && r.1.value in agents && r.0 == script
  {
    if |agents| == 0 then (Pass, None) else (script, Some(agents[draw]))
  }

  /** The viewport the mouse moves in: both probes as int64, otherwise 1920 by 1080. */
  function Viewport(width: ScriptValue, height: ScriptValue): (int, int) {
    if width.Int64? && height.Int64? then (width.v, height.v) else (1920, 1080)
  }

  datatype MouseOutcome =
    | ProbeFailed(msg: string)          // a dimension script failed; its error is returned
    | Panicked                          // rand.Int63n was called with a bound <= 0
    | Moved(moves: seq<(int, int)>)     // the pointer positions dispatched, in order

  /** A source of draws: `draw(k, n)` is the k-th call rand.Int63n(n). */
  ghost predicate FairDraws(draw: (nat, int) -> int) {
    forall k: nat, n: int :: 0 < n ==> 0 <= draw(k, n) < n
  }

  /**
   * simulateMouseMovement: three moves at random viewport positions. Failures of the move
   * scripts are ignored by the source, so they do not appear here.
   */
  method SimulateMouseMovement(widthProbe: Result<ScriptValue>, heightProbe: Result<ScriptValue>,
                               draw: (nat, int) -> int)
    returns (r: MouseOutcome)
    requires FairDraws(draw)
    ensures widthProbe.Err? ==> r == ProbeFailed(widthProbe.msg)
    ensures widthProbe.Ok? && heightProbe.Err? ==> r == ProbeFailed(heightProbe.msg)
    ensures widthProbe.Ok? && heightProbe.Ok? ==>
              var (w, h) := Viewport(widthProbe.value, heightProbe.value);
              (r == Panicked <==> w <= 0 || h <= 0)
              && (w > 0 && h > 0 ==> r.Moved?)
              && (r.Moved? ==> |r.moves| == 3
                                && forall i :: 0 <= i < 3 ==> 0 <= r.moves[i].0 < w && 0 <= r.moves[i].1 < h)
    ensures r.Moved? ==> forall i :: 0 <= i < |r.moves| ==>
              r.moves[i] == (draw(2 * i, Viewport(widthProbe.value, heightProbe.value).0),
                             draw(2 * i + 1, Viewport(widthProbe.value, heightProbe.value).1))
  {
    if widthProbe.Err? {
      return ProbeFailed(widthProbe.msg);
    }
    if heightProbe.Err? {
      return ProbeFailed(heightProbe.msg);
    }
    var (w, h) := Viewport(widthProbe.value, heightProbe.value);
    if w <= 0 || h <= 0 {
      return Panicked;
    }
    var moves: seq<(int, int)> := [];
    var i := 0;
    while i < 3
      invariant 0 <= i <= 3 && |moves| == i
      invariant forall j :: 0 <= j < i ==> 0 <= moves[j].0 < w && 0 <= moves[j].1 < h
      invariant forall j :: 0 <= j < i ==> moves[j] == (draw(2 * j, w), draw(2 * j + 1, h))
    {
      var x := draw(2 * i, w);
      var y := draw(2 * i + 1, h);
      moves := moves + [(x, y)];
      i := i + 1;
    }
    return Moved(moves);
  }

  /**
   * typeWithDelay: clears the field, then sends the runes of `text` one at a time. `clear` is
   * the outcome of Clear and `sendKey(k)` that of the k-th SendKeys. Returns the error and the
   * runes whose SendKeys was issued, in order.
   */
  method TypeWithDelay(text: string, clear: Status, sendKey: nat -> Status)
    returns (err: Status, typed: string)
    ensures clear.Fail? ==> err == clear && typed == []
    ensures |typed| <= |text| && typed == text[..|typed|]
    ensures err.Pass? <==> clear.Pass? && forall k :: 0 <= k < |text| ==> sendKey(k).Pass?
    ensures err.Pass? ==> typed == text
    ensures clear.Pass? && err.Fail? ==> |typed| > 0 && err == sendKey(|typed| - 1)
    ensures forall k :: 0 <= k < |typed| - 1 ==> sendKey(k).Pass?
  {
    if clear.Fail? {
      return clear, [];
    }
    typed := [];
    var i := 0;
    while i < |text|
      invariant 0 <= i <= |text| && typed == text[..i]
      invariant forall k :: 0 <= k < i ==> sendKey(k).Pass?
    {
      typed := typed + [text[i]];
      if sendKey(i).Fail? {
        return sendKey(i), typed;
      }
      i := i + 1;
    }
    return Pass, typed;
  }

  // ---------------------------------------------------------------------------------------
  // Defense detector
  // ---------------------------------------------------------------------------------------

  const CaptchaSelectors: seq<string> := [
    "iframe[src*='recaptcha']",
    "div[class*='captcha']",
    "div[class*='challenge']",
    "div[id*='captcha']",
    ".challenge-page",
    "[data-test='challenge']"
  ]

  const RateLimitSelectors: seq<string> := [
    "[data-test='rate-limit']",
    ".rate-limit",
    "div:contains('too many requests')",
    "div:contains('Please wait')"
  ]

  /**
   * The position of the first selector whose lookup finds an element, scanning from `from`;
   * a lookup error counts as no match.
   */
  function FirstMatch(page: Page, selectors: seq<string>, from: nat): (r: Option<nat>)
    requires from <= |selectors|
    ensures r.Some? ==> from <= r.value < |selectors| && Matches(page, Css(selectors[r.value]))
    ensures r.Some? ==> forall j {:trigger Matches(page, Css(selectors[j]))} ::
                          from <= j < r.value ==> !Matches(page, Css(selectors[j]))
    ensures r.None? ==> forall j {:trigger Matches(page, Css(selectors[j]))} ::
                          from <= j < |selectors| ==> !Matches(page, Css(selectors[j]))
    decreases |selectors| - from
  {
    if from == |selectors| then None
    else if Matches(page, Css(selectors[from])) then Some(from)
    else FirstMatch(page, selectors, from + 1)
  }

  /**
   * checkForCaptcha: true iff some CAPTCHA selector finds an element; the scan stops at the
   * first one that does, and it never reports an error.
   */
  method CheckForCaptcha(page: Page) returns (found: bool, err: Status)
    ensures err == Pass
    ensures found <==> exists i :: 0 <= i < |CaptchaSelectors| && Matches(page, Css(CaptchaSelectors[i]))
  {
    for i := 0 to |CaptchaSelectors|
      invariant forall j :: 0 <= j < i ==> !Matches(page, Css(CaptchaSelectors[j]))
    {
      var elements := FindElements(page, Css(CaptchaSelectors[i]));
      if elements.Ok? && |elements.value| > 0 {
        return true, Pass;
      }
    }
    return false, Pass;
  }

  /**
   * handleRateLimit: `draw` stands for rand.Intn(300). When a rate-limit marker is present it
   * backs off for 300 to 599 seconds; it always returns nil.
   */
  method HandleRateLimit(page: Page, draw: int) returns (err: Status, backoff: Option<int>)
    requires 0 <= draw < 300
    ensures err == Pass
    ensures backoff.Some? <==> FirstMatch(page, RateLimitSelectors, 0).Some?
    ensures backoff.Some? <==>
              exists i :: 0 <= i < |RateLimitSelectors| && Matches(page, Css(RateLimitSelectors[i]))
    ensures backoff.Some? ==> 300 * Second <= backoff.value <= 599 * Second
  {
    for i := 0 to |RateLimitSelectors|
      invariant forall j :: 0 <= j < i ==> !Matches(page, Css(RateLimitSelectors[j]))
    {
      var found := FindElements(page, Css(RateLimitSelectors[i]));
      if found.Ok? && |found.value| > 0 {
        return Pass, Some((draw + 300) * Second);
      }
    }
    return Pass, None;
  }
}
