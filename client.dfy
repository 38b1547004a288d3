/**
 * The session steps of scraper/client.go: the browser argument list NewClient builds, the
 * nil-guarded Close, the polling waits, the fixed login sequence and the window-size parser.
 *
 * Time is a count of attempts: a wait with timeout T looks the element up at 0, 500 ms,
 * 1000 ms, ... as long as that instant is before T, and a lookup takes no time. What the
 * browser answers at the k-th attempt is an injected function of k.
 */
module Session {
  import opened Wrappers
  import opened Text
  import opened Browser
  import opened Timing

  // ---------------------------------------------------------------------------------------
  // NewClient and Close
  // ---------------------------------------------------------------------------------------

  /** The fixed Chrome switches, in the order NewClient lists them. */
  const BaseChromeArgs: seq<string> := [
    "--no-sandbox",
    "--disable-blink-features=AutomationControlled",
    "--disable-gpu",
    "--disable-dev-shm-usage",
    "--disable-web-security",
    "--disable-features=VizDisplayCompositor"
  ]

  /** The Chrome argument list: the fixed switches, the window size, and "--headless" last. */
  function ChromeArgs(windowSize: string, headless: bool): (args: seq<string>)
    ensures |args| == |BaseChromeArgs| + 1 + (if headless then 1 else 0)
    ensures args[..|BaseChromeArgs|] == BaseChromeArgs
    ensures args[|BaseChromeArgs|] == "--window-size=" + windowSize
  {
    BaseChromeArgs + ["--window-size=" + windowSize] + (if headless then ["--headless"] else [])
  }

  /** The headless switch is present exactly when headless mode is configured. */
  lemma HeadlessFlag(windowSize: string, headless: bool)
    ensures "--headless" in ChromeArgs(windowSize, headless) <==> headless
  {
    var args := ChromeArgs(windowSize, headless);
    var w := "--window-size=" + windowSize;
    assert w != "--headless" by {
      assert w[2] == 'w';
    }
    if headless {
      assert args == BaseChromeArgs + [w] + ["--headless"];
    } else {
      assert args == BaseChromeArgs + [w];
    }
  }

  /** The WebDriver session handle; Quit ends it. */
  class Driver {
    var open: bool

    constructor ()
      ensures open
    {
      open := true;
    }

    method Quit()
      modifies this
      ensures !open
    {
      open := false;
    }
  }

  /** The ChromeDriver service; Stop shuts it down. */
  class Service {
    var running: bool

    constructor ()
      ensures running
    {
      running := true;
    }

    method Stop()
      modifies this
      ensures !running
    {
      running := false;
    }
  }

  /** The scraper client: either handle may be nil. */
  class Client {
    var driver: Driver?
    var service: Service?

    constructor (driver: Driver?, service: Service?)
      ensures this.driver == driver && this.service == service
    {
      this.driver := driver;
      this.service := service;
    }

    /** Close quits the driver and stops the service, each only when it is present. */
    method Close()
      modifies driver, service
      ensures driver != null ==> !driver.open
      ensures service != null ==> !service.running
    {
      if driver != null {
        driver.Quit();
      }
      if service != null {
        service.Stop();
      }
    }
  }

  /**
   * NewClient. `started` is the outcome of starting the ChromeDriver service and `connected`
   * that of opening the remote session. The argument list and the service are returned as
   * well, so that what happens to them can be stated; setting the timeouts and the initial
   * user agent are left out.
   */
  method NewClient(windowSize: string, headless: bool, started: Status, connected: Status)
    returns (result: Result<Client>, args: seq<string>, service: Service?)
    ensures args == ChromeArgs(windowSize, headless)
    ensures started.Fail? ==> result == Err("failed to start ChromeDriver service: " + started.msg)
    ensures started.Fail? ==> service == null
    ensures started.Pass? ==> service != null && fresh(service)
    // a failed connection stops the service before the error is returned
    ensures started.Pass? && connected.Fail?
            ==> result == Err("failed to connect to WebDriver: " + connected.msg) && !service.running
    ensures started.Pass? && connected.Pass?
            ==> result.Ok? && fresh(result.value) && result.value.service == service && service.running
    ensures started.Pass? && connected.Pass?
            ==> result.value.driver != null && fresh(result.value.driver) && result.value.driver.open
  {
    args := ChromeArgs(windowSize, headless);
    if started.Fail? {
      return Err("failed to start ChromeDriver service: " + started.msg), args, null;
    }
    service := new Service();
    if connected.Fail? {
      service.Stop();
      return Err("failed to connect to WebDriver: " + connected.msg), args, service;
    }
    var driver := new Driver();
    var client := new Client(driver, service);
    return Ok(client), args, service;
  }

  // ---------------------------------------------------------------------------------------
  // waitForElement and waitForElements
  // ---------------------------------------------------------------------------------------

  /** The pause between two lookups of a wait. */
  const PollInterval: int := 500 * Millisecond

  /** How many lookups a wait with the given timeout makes. */
  function PollAttempts(timeout: int): nat {
    if timeout <= 0 then 0 else (timeout + PollInterval - 1) / PollInterval
  }

  /** The k-th lookup happens exactly when it starts before the deadline. */
  lemma PollAttemptsSpec(timeout: int, k: nat)
    ensures k < PollAttempts(timeout) <==> k * PollInterval < timeout
  {
    if timeout > 0 {
      var q := (timeout + PollInterval - 1) / PollInterval;
      var r := (timeout + PollInterval - 1) % PollInterval;
      assert timeout + PollInterval - 1 == q * PollInterval + r;
      if k < q {
        assert k * PollInterval <= (q - 1) * PollInterval;
      } else {
        assert k * PollInterval >= q * PollInterval;
      }
    }
  }

  /** The ten-second wait for the post-login marker makes 20 lookups. */
  lemma TenSecondsIsTwentyAttempts()
    ensures PollAttempts(10 * Second) == 20
  {
    PollAttemptsSpec(10 * Second, 19);
    PollAttemptsSpec(10 * Second, 20);
  }

  /** The Go name of a lookup strategy, as the error messages print it. */
  function ByName(strategy: By): string {
    match strategy
    case ById => "id"
    case ByCssSelector => "css selector"
    case ByXPath => "xpath"
  }

  /** "element not found after <timeout>: <strategy>=<value>"; the timeout comes pre-rendered. */
  function NotFound(what: string, timeoutText: string, loc: Locator): string {
    what + " not found after " + timeoutText + ": " + ByName(loc.strategy) + "=" + loc.value
  }

  /** The first lookup from `from` on, before `attempts`, that succeeds. */
  function FirstFound(lookup: nat -> Result<Element>, from: nat, attempts: nat): (r: Option<nat>)
    decreases attempts - from
  {
    if from >= attempts then None
    else if lookup(from).Ok? then Some(from)
    else FirstFound(lookup, from + 1, attempts)
  }

  lemma {:induction false} FirstFoundSpec(lookup: nat -> Result<Element>, from: nat, attempts: nat)
    ensures FirstFound(lookup, from, attempts).Some?
            <==> exists k :: from <= k < attempts && lookup(k).Ok?
    ensures FirstFound(lookup, from, attempts).Some? ==>
              var k := FirstFound(lookup, from, attempts).value;
              from <= k < attempts && lookup(k).Ok? && forall j :: from <= j < k ==> lookup(j).Err?
    decreases attempts - from
  {
    if from < attempts && lookup(from).Err? {
      FirstFoundSpec(lookup, from + 1, attempts);
    }
  }

  /** What waitForElement answers: the element of the first successful lookup, else an error. */
  function Polled(lookup: nat -> Result<Element>, attempts: nat, notFound: string): Result<Element> {
    match FirstFound(lookup, 0, attempts)
    case Some(k) => lookup(k)
    case None => Err(notFound)
  }

  /**
   * The wait succeeds exactly when some lookup before the deadline succeeds, with the element
   * of the first one; otherwise the error is the not-found message.
   */
  lemma PolledSpec(lookup: nat -> Result<Element>, attempts: nat, notFound: string)
    ensures Polled(lookup, attempts, notFound).Ok? <==> exists k :: 0 <= k < attempts && lookup(k).Ok?
    ensures Polled(lookup, attempts, notFound).Ok? ==>
              exists k :: 0 <= k < attempts && lookup(k) == Polled(lookup, attempts, notFound)
                          && forall j :: 0 <= j < k ==> lookup(j).Err?
    ensures Polled(lookup, attempts, notFound).Err? ==> Polled(lookup, attempts, notFound).msg == notFound
  {
    FirstFoundSpec(lookup, 0, attempts);
  }

  /** waitForElement: look up until the first success or until the attempts run out. */
  method WaitForElement(lookup: nat -> Result<Element>, attempts: nat, notFound: string)
    returns (r: Result<Element>)
    ensures r == Polled(lookup, attempts, notFound)
  {
    var k := 0;
    while k < attempts
      invariant k <= attempts
      invariant FirstFound(lookup, k, attempts) == FirstFound(lookup, 0, attempts)
    {
      var found := lookup(k);
      if found.Ok? {
        return found;
      }
      k := k + 1;
    }
    return Err(notFound);
  }

  /** waitForElements counts a lookup as successful only when it finds at least one element. */
  function NonEmpty(found: Result<seq<Element>>): bool {
    found.Ok? && |found.value| > 0
  }

  function FirstNonEmpty(lookup: nat -> Result<seq<Element>>, from: nat, attempts: nat): (r: Option<nat>)
    decreases attempts - from
  {
    if from >= attempts then None
    else if NonEmpty(lookup(from)) then Some(from)
    else FirstNonEmpty(lookup, from + 1, attempts)
  }

  lemma {:induction false} FirstNonEmptySpec(lookup: nat -> Result<seq<Element>>, from: nat, attempts: nat)
    ensures FirstNonEmpty(lookup, from, attempts).Some?
            <==> exists k :: from <= k < attempts && NonEmpty(lookup(k))
    ensures FirstNonEmpty(lookup, from, attempts).Some? ==>
              var k := FirstNonEmpty(lookup, from, attempts).value;
              from <= k < attempts && NonEmpty(lookup(k))
    decreases attempts - from
  {
    if from < attempts && !NonEmpty(lookup(from)) {
      FirstNonEmptySpec(lookup, from + 1, attempts);
    }
  }

  function PolledAll(lookup: nat -> Result<seq<Element>>, attempts: nat, notFound: string)
    : Result<seq<Element>>
  {
    match FirstNonEmpty(lookup, 0, attempts)
    case Some(k) => lookup(k)
    case None => Err(notFound)
  }

  /** An empty answer counts as not found: a successful wait never returns an empty list. */
  lemma PolledAllSpec(lookup: nat -> Result<seq<Element>>, attempts: nat, notFound: string)
    ensures PolledAll(lookup, attempts, notFound).Ok?
            <==> exists k :: 0 <= k < attempts && NonEmpty(lookup(k))
    ensures PolledAll(lookup, attempts, notFound).Ok? ==> |PolledAll(lookup, attempts, notFound).value| > 0
    ensures PolledAll(lookup, attempts, notFound).Err? ==> PolledAll(lookup, attempts, notFound).msg == notFound
  {
    FirstNonEmptySpec(lookup, 0, attempts);
  }

  method WaitForElements(lookup: nat -> Result<seq<Element>>, attempts: nat, notFound: string)
    returns (r: Result<seq<Element>>)
    ensures r == PolledAll(lookup, attempts, notFound)
  {
    var k := 0;
    while k < attempts
      invariant k <= attempts
      invariant FirstNonEmpty(lookup, k, attempts) == FirstNonEmpty(lookup, 0, attempts)
    {
      var found := lookup(k);
      if found.Ok? && |found.value| > 0 {
        return found;
      }
      k := k + 1;
    }
    return Err(notFound);
  }

  // ---------------------------------------------------------------------------------------
  // Login
  // ---------------------------------------------------------------------------------------

  const EmailField: Locator := Locator(ById, "username")
  const PasswordField: Locator := Locator(ById, "password")
  const SubmitButton: Locator := Locator(ByXPath, "//button[@type='submit']")
  const HomeMarker: Locator :=
    Locator(ByXPath, "//a[contains(@href, '/in/') or contains(@href, '/feed/')]")

  /** The post-login check waits a fixed ten seconds. */
  const HomeWait: int := 10 * Second

  datatype LoginStep =
    | Navigate | FindEmail | EnterEmail | FindPassword | EnterPassword
    | FindSubmit | ClickSubmit | AwaitHome

  /** Login's steps, in the order it runs them. */
  const LoginSequence: seq<LoginStep> :=
    [Navigate, FindEmail, EnterEmail, FindPassword, EnterPassword, FindSubmit, ClickSubmit, AwaitHome]

  /**
   * What the browser does during Login: the navigation outcome, the answer of the k-th lookup
   * of each locator, the outcomes of typing the email and password and of the click, and the
   * configured element-search timeout with its printed form.
   */
  datatype LoginEnv = LoginEnv(
    navigate: Status,
    find: Locator -> nat -> Result<Element>,
    sendEmail: Status,
    sendPassword: Status,
    click: Status,
    elementSearch: int,
    elementSearchText: string)

  /** A wait step of Login as a status: its own error is wrapped with the step's context. */
  function WaitStep(env: LoginEnv, loc: Locator, timeout: int, timeoutText: string, context: string): Status {
    var r := Polled(env.find(loc), PollAttempts(timeout), NotFound("element", timeoutText, loc));
    if r.Ok? then Pass else Fail(context + r.msg)
  }

  /** An action step of Login: its error wrapped with the step's context. */
  function Wrapped(s: Status, context: string): Status {
    if s.Pass? then Pass else Fail(context + s.msg)
  }

  /** The outcome of one step of Login, with the message Login returns when it fails. */
  function StepOutcome(env: LoginEnv, step: LoginStep): Status {
    match step
    case Navigate => Wrapped(env.navigate, "failed to navigate to login page: ")
    case FindEmail =>
      WaitStep(env, EmailField, env.elementSearch, env.elementSearchText, "failed to find email field: ")
    case EnterEmail => Wrapped(env.sendEmail, "failed to enter email: ")
    case FindPassword =>
      WaitStep(env, PasswordField, env.elementSearch, env.elementSearchText, "failed to find password field: ")
    case EnterPassword => Wrapped(env.sendPassword, "failed to enter password: ")
    case FindSubmit =>
      WaitStep(env, SubmitButton, env.elementSearch, env.elementSearchText, "failed to find login button: ")
    case ClickSubmit => Wrapped(env.click, "failed to click login button: ")
    case AwaitHome =>
      WaitStep(env, HomeMarker, HomeWait, "10s",
               "login appears to have failed or requires additional verification: ")
  }

  /** One step of Login; the waits go through waitForElement. */
  method RunStep(env: LoginEnv, step: LoginStep) returns (s: Status)
    ensures s == StepOutcome(env, step)
  {
    match step
    case Navigate => s := Wrapped(env.navigate, "failed to navigate to login page: ");
    case FindEmail =>
      s := RunWait(env, EmailField, env.elementSearch, env.elementSearchText, "failed to find email field: ");
    case EnterEmail => s := Wrapped(env.sendEmail, "failed to enter email: ");
    case FindPassword =>
      s := RunWait(env, PasswordField, env.elementSearch, env.elementSearchText, "failed to find password field: ");
    case EnterPassword => s := Wrapped(env.sendPassword, "failed to enter password: ");
    case FindSubmit =>
      s := RunWait(env, SubmitButton, env.elementSearch, env.elementSearchText, "failed to find login button: ");
    case ClickSubmit => s := Wrapped(env.click, "failed to click login button: ");
    case AwaitHome =>
      s := RunWait(env, HomeMarker, HomeWait, "10s",
                   "login appears to have failed or requires additional verification: ");
  }

  /** A wait of Login, through waitForElement. */
  method RunWait(env: LoginEnv, loc: Locator, timeout: int, timeoutText: string, context: string)
    returns (s: Status)
    ensures s == WaitStep(env, loc, timeout, timeoutText, context)
  {
    var r := WaitForElement(env.find(loc), PollAttempts(timeout), NotFound("element", timeoutText, loc));
    s := if r.Ok? then Pass else Fail(context + r.msg);
  }

  /**
   * Login runs its steps in the fixed order and stops at the first one that fails, returning
   * that step's error; the steps that ran are the first `ran` of LoginSequence.
   */
  method Login(env: LoginEnv) returns (err: Status, ran: nat)
    ensures 1 <= ran <= |LoginSequence|
    ensures forall i :: 0 <= i < ran - 1 ==> StepOutcome(env, LoginSequence[i]).Pass?
    ensures err == StepOutcome(env, LoginSequence[ran - 1])
    ensures err.Pass? ==> ran == |LoginSequence|
  {
    err := RunStep(env, Navigate);
    ran := 1;
    if err.Fail? { return; }
    err := RunStep(env, FindEmail);
    ran := 2;
    if err.Fail? { return; }
    err := RunStep(env, EnterEmail);
    ran := 3;
    if err.Fail? { return; }
    err := RunStep(env, FindPassword);
    ran := 4;
    if err.Fail? { return; }
    err := RunStep(env, EnterPassword);
    ran := 5;
    if err.Fail? { return; }
    err := RunStep(env, FindSubmit);
    ran := 6;
    if err.Fail? { return; }
    err := RunStep(env, ClickSubmit);
    ran := 7;
    if err.Fail? { return; }
    err := RunStep(env, AwaitHome);
    ran := 8;
  }

  /**
   * What Login's contract pins down: it succeeds exactly when every step of the sequence
   * succeeds.
   */
  lemma LoginSucceedsIffAllStepsPass(env: LoginEnv, err: Status, ran: nat)
    requires 1 <= ran <= |LoginSequence|
    requires forall i :: 0 <= i < ran - 1 ==> StepOutcome(env, LoginSequence[i]).Pass?
    requires err == StepOutcome(env, LoginSequence[ran - 1])
    requires err.Pass? ==> ran == |LoginSequence|
    ensures err.Pass? <==> forall i :: 0 <= i < |LoginSequence| ==> StepOutcome(env, LoginSequence[i]).Pass?
  {
    if err.Fail? {
      assert !StepOutcome(env, LoginSequence[ran - 1]).Pass?;
    }
  }

  /** Login can only succeed when the post-login marker shows up within its 20 lookups. */
  lemma LoginNeedsHomeMarker(env: LoginEnv)
    requires StepOutcome(env, AwaitHome).Pass?
    ensures exists k :: 0 <= k < 20 && env.find(HomeMarker)(k).Ok?
  {
    TenSecondsIsTwentyAttempts();
    PolledSpec(env.find(HomeMarker), PollAttempts(HomeWait), NotFound("element", "10s", HomeMarker));
  }

  // ---------------------------------------------------------------------------------------
  // parseWindowSize
  // ---------------------------------------------------------------------------------------

  /** parseWindowSize: exactly two comma-separated parts, each an integer once trimmed. */
  function ParseWindowSize(size: string): (r: Result<(int, int)>)
    ensures |Split(size, ',')| != 2 ==> r == Err("invalid window size format: " + size)
    ensures var parts := Split(size, ',');
            |parts| == 2 ==>
              var width := Atoi(TrimSpace(parts[0]));
              var height := Atoi(TrimSpace(parts[1]));
              (width.Err? ==> r == Err("invalid width: " + parts[0]))
              && (width.Ok? && height.Err? ==> r == Err("invalid height: " + parts[1]))
              && (width.Ok? && height.Ok? ==> r == Ok((width.value, height.value)))
  {
    var parts := Split(size, ',');
    if |parts| != 2 then Err("invalid window size format: " + size)
    else
      var width := Atoi(TrimSpace(parts[0]));
      if width.Err? then Err("invalid width: " + parts[0])
      else
        var height := Atoi(TrimSpace(parts[1]));
        if height.Err? then Err("invalid height: " + parts[1])
        else Ok((width.value, height.value))
  }

  /** Anything but exactly one comma is rejected as a format error. */
  lemma ParseWindowSizeNeedsOneComma(size: string)
    requires multiset(size)[','] != 1
    ensures ParseWindowSize(size) == Err("invalid window size format: " + size)
  {
    SplitCount(size, ',');
  }

  /** A rendered integer contains no comma and no white space at either end. */
  lemma FormatIntIsPlain(n: int)
    ensures ',' !in FormatInt(n)
    ensures TrimSpace(FormatInt(n)) == FormatInt(n)
  {
    var s := FormatInt(n);
    if ',' in s {
      var i :| 0 <= i < |s| && s[i] == ',';
      FormatIntChars(n, i);
    }
    FormatIntChars(n, 0);
    FormatIntChars(n, |s| - 1);
    TrimSpaceOfTrimmed(s);
  }

  /** Printing a width and a height and parsing them back gives the same pair. */
  lemma ParseWindowSizeRoundTrip(width: int, height: int)
    requires MinInt64 <= width <= MaxInt64 && MinInt64 <= height <= MaxInt64
    ensures ParseWindowSize(FormatInt(width) + "," + FormatInt(height)) == Ok((width, height))
  {
    var w := FormatInt(width);
    var h := FormatInt(height);
    FormatIntIsPlain(width);
    FormatIntIsPlain(height);
    SplitAtFirst(w, h, ',');
    SplitNoSep(h, ',');
    assert w + "," + h == w + [','] + h;
    AtoiFormatInt(width);
    AtoiFormatInt(height);
  }

  /** White space around either number is ignored: " 1920 , 1080" reads as 1920 by 1080. */
  lemma ParseWindowSizePadded(width: int, height: int, a: string, b: string, c: string, d: string)
    requires MinInt64 <= width <= MaxInt64 && MinInt64 <= height <= MaxInt64
    requires IsBlank(a) && IsBlank(b) && IsBlank(c) && IsBlank(d)
    ensures ParseWindowSize(a + FormatInt(width) + b + "," + c + FormatInt(height) + d)
            == Ok((width, height))
  {
    var first := a + FormatInt(width) + b;
    var second := c + FormatInt(height) + d;
    assert a + FormatInt(width) + b + "," + c + FormatInt(height) + d == first + "," + second;
    PaddedNumber(width, a, b);
    PaddedNumber(height, c, d);
    ParseWindowSizeOfParts(first, second);
  }

  /** Two comma-free parts around one comma are parsed each on its own. */
  lemma ParseWindowSizeOfParts(first: string, second: string)
    requires ',' !in first && ',' !in second
    ensures ParseWindowSize(first + "," + second)
            == match (Atoi(TrimSpace(first)), Atoi(TrimSpace(second)))
               case (Err(_), _) => Err("invalid width: " + first)
               case (Ok(_), Err(_)) => Err("invalid height: " + second)
               case (Ok(w), Ok(h)) => Ok((w, h))
  {
    SplitAtFirst(first, second, ',');
    SplitNoSep(second, ',');
    assert first + "," + second == first + [','] + second;
  }

  /** A rendered integer between white space holds no comma and trims back to its value. */
  lemma PaddedNumber(n: int, a: string, b: string)
    requires MinInt64 <= n <= MaxInt64
    requires IsBlank(a) && IsBlank(b)
    ensures ',' !in a + FormatInt(n) + b
    ensures Atoi(TrimSpace(a + FormatInt(n) + b)) == Ok(n)
  {
    var s := FormatInt(n);
    FormatIntIsPlain(n);
    FormatIntChars(n, 0);
    FormatIntChars(n, |s| - 1);
    assert ',' !in a + s + b by {
      assert !IsSpace(',');
    }
    TrimSpacePadded(a, s, b);
    AtoiFormatInt(n);
  }

  /** The default window size "1920,1080" parses to width 1920 and height 1080. */
  lemma DefaultWindowSize(size: string)
    requires size == "1920,1080"
    ensures ParseWindowSize(size) == Ok((1920, 1080))
  {
    assert NatToDigits(1920) == "1920";
    assert NatToDigits(1080) == "1080";
    assert size == FormatInt(1920) + "," + FormatInt(1080);
    ParseWindowSizeRoundTrip(1920, 1080);
  }
}
