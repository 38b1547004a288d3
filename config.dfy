/**
 * Configuration defaults (config/config.go). The YAML sections are values; the loaded
 * configuration is an object whose sections setDefaults overwrites in place, one guarded
 * assignment per field. Durations are nanoseconds.
 */
module Configuration {
  import opened Timing

  datatype WebDriverConfig = WebDriverConfig(
    chromeDriverPath: string, headless: bool, windowSize: string, port: int, timeout: int)

  datatype LinkedInConfig = LinkedInConfig(
    email: string, password: string, baseURL: string, loginURL: string)

  datatype ExportConfig = ExportConfig(outputDir: string, format: string)

  datatype DelayConfig = DelayConfig(
    minDelay: int, maxDelay: int, pageLoad: int, elementSearch: int, scrollDelay: int)

  datatype LoggingConfig = LoggingConfig(level: string, filePath: string, console: bool)

  // ---------------------------------------------------------------------------------------
  // The defaults, section by section
  // ---------------------------------------------------------------------------------------

  /** Every defaulted field of the section is set (non-zero, non-empty). */
  predicate WebDriverComplete(w: WebDriverConfig) {
    w.port != 0 && w.timeout != 0 && w.windowSize != ""
  }

  /** The WebDriver section after setDefaults. */
  function WebDriverDefaults(w: WebDriverConfig): (r: WebDriverConfig)
    ensures WebDriverComplete(r)
    // fields without a default are never touched
    ensures r.chromeDriverPath == w.chromeDriverPath && r.headless == w.headless
    // a field that is already set is kept
    ensures w.port != 0 ==> r.port == w.port
    ensures w.timeout != 0 ==> r.timeout == w.timeout
    ensures w.windowSize != "" ==> r.windowSize == w.windowSize
  {
    var w := if w.port == 0 then w.(port := 9515) else w;
    var w := if w.timeout == 0 then w.(timeout := 30) else w;
    if w.windowSize == "" then w.(windowSize := "1920,1080") else w
  }

  predicate LinkedInComplete(l: LinkedInConfig) {
    l.baseURL != "" && l.loginURL != ""
  }

  function LinkedInDefaults(l: LinkedInConfig): (r: LinkedInConfig)
    ensures LinkedInComplete(r)
    ensures r.email == l.email && r.password == l.password
    ensures l.baseURL != "" ==> r.baseURL == l.baseURL
    ensures l.loginURL != "" ==> r.loginURL == l.loginURL
  {
    var l := if l.baseURL == "" then l.(baseURL := "https://www.linkedin.com") else l;
    if l.loginURL == "" then l.(loginURL := "https://www.linkedin.com/login") else l
  }

  predicate ExportComplete(e: ExportConfig) {
    e.outputDir != "" && e.format != ""
  }

  function ExportDefaults(e: ExportConfig): (r: ExportConfig)
    ensures ExportComplete(r)
    ensures e.outputDir != "" ==> r.outputDir == e.outputDir
    ensures e.format != "" ==> r.format == e.format
  {
    var e := if e.outputDir == "" then e.(outputDir := "data/output") else e;
    if e.format == "" then e.(format := "csv") else e
  }

  predicate DelaysComplete(d: DelayConfig) {
    d.minDelay != 0 && d.maxDelay != 0 && d.pageLoad != 0 && d.elementSearch != 0 && d.scrollDelay != 0
  }

  function DelayDefaults(d: DelayConfig): (r: DelayConfig)
    ensures DelaysComplete(r)
    ensures d.minDelay != 0 ==> r.minDelay == d.minDelay
    ensures d.maxDelay != 0 ==> r.maxDelay == d.maxDelay
    ensures d.pageLoad != 0 ==> r.pageLoad == d.pageLoad
    ensures d.elementSearch != 0 ==> r.elementSearch == d.elementSearch
    ensures d.scrollDelay != 0 ==> r.scrollDelay == d.scrollDelay
  {
    var d := if d.minDelay == 0 then d.(minDelay := 2 * Second) else d;
    var d := if d.maxDelay == 0 then d.(maxDelay := 5 * Second) else d;
    var d := if d.pageLoad == 0 then d.(pageLoad := 3 * Second) else d;
    var d := if d.elementSearch == 0 then d.(elementSearch := 10 * Second) else d;
    if d.scrollDelay == 0 then d.(scrollDelay := 500 * Millisecond) else d
  }

  predicate LoggingComplete(g: LoggingConfig) {
    g.level != "" && g.filePath != ""
  }

  function LoggingDefaults(g: LoggingConfig): (r: LoggingConfig)
    ensures LoggingComplete(r)
    ensures r.console == g.console
    ensures g.level != "" ==> r.level == g.level
    ensures g.filePath != "" ==> r.filePath == g.filePath
  {
    var g := if g.level == "" then g.(level := "info") else g;
    if g.filePath == "" then g.(filePath := "logs/scraper.log") else g
  }

  /** getDefaultUserAgents: three Chrome and two Firefox desktop user agents. */
  const DefaultUserAgents: seq<string> := [
    "Mozilla/5.0 (Windows NT 10.0; Win64; x64) AppleWebKit/537.36 (KHTML, like Gecko) Chrome/119.0.0.0 Safari/537.36",
    "Mozilla/5.0 (Macintosh; Intel Mac OS X 10_15_7) AppleWebKit/537.36 (KHTML, like Gecko) Chrome/119.0.0.0 Safari/537.36",
    "Mozilla/5.0 (X11; Linux x86_64) AppleWebKit/537.36 (KHTML, like Gecko) Chrome/119.0.0.0 Safari/537.36",
    "Mozilla/5.0 (Windows NT 10.0; Win64; x64; rv:109.0) Gecko/20100101 Firefox/119.0",
    "Mozilla/5.0 (Macintosh; Intel Mac OS X 10.15; rv:109.0) Gecko/20100101 Firefox/119.0"
  ]

  /** The user-agent list after setDefaults: the built-in list replaces only an empty one. */
  function UserAgentDefaults(agents: seq<string>): (r: seq<string>)
    ensures |agents| == 0 ==> r == DefaultUserAgents && |r| == 5
    ensures |agents| > 0 ==> r == agents
  {
    if |agents| == 0 then DefaultUserAgents else agents
  }

  // ---------------------------------------------------------------------------------------
  // Defaults are a fixed point
  // ---------------------------------------------------------------------------------------

  /** A section that already has every default set is left exactly as it is. */
  lemma CompleteSectionsAreFixed(w: WebDriverConfig, l: LinkedInConfig, e: ExportConfig,
                                 d: DelayConfig, g: LoggingConfig, agents: seq<string>)
    ensures WebDriverComplete(w) ==> WebDriverDefaults(w) == w
    ensures LinkedInComplete(l) ==> LinkedInDefaults(l) == l
    ensures ExportComplete(e) ==> ExportDefaults(e) == e
    ensures DelaysComplete(d) ==> DelayDefaults(d) == d
    ensures LoggingComplete(g) ==> LoggingDefaults(g) == g
    ensures |agents| > 0 ==> UserAgentDefaults(agents) == agents
  {
  }

  /** Applying the defaults twice gives what applying them once gives. */
  lemma DefaultsIdempotent(w: WebDriverConfig, l: LinkedInConfig, e: ExportConfig,
                           d: DelayConfig, g: LoggingConfig, agents: seq<string>)
    ensures WebDriverDefaults(WebDriverDefaults(w)) == WebDriverDefaults(w)
    ensures LinkedInDefaults(LinkedInDefaults(l)) == LinkedInDefaults(l)
    ensures ExportDefaults(ExportDefaults(e)) == ExportDefaults(e)
    ensures DelayDefaults(DelayDefaults(d)) == DelayDefaults(d)
    ensures LoggingDefaults(LoggingDefaults(g)) == LoggingDefaults(g)
    ensures UserAgentDefaults(UserAgentDefaults(agents)) == UserAgentDefaults(agents)
  {
    CompleteSectionsAreFixed(WebDriverDefaults(w), LinkedInDefaults(l), ExportDefaults(e),
                             DelayDefaults(d), LoggingDefaults(g), UserAgentDefaults(agents));
  }

  /** The values an unset field receives. */
  lemma DefaultValues(w: WebDriverConfig, l: LinkedInConfig, e: ExportConfig,
                      d: DelayConfig, g: LoggingConfig)
    ensures w.port == 0 ==> WebDriverDefaults(w).port == 9515
    ensures w.timeout == 0 ==> WebDriverDefaults(w).timeout == 30
    ensures w.windowSize == "" ==> WebDriverDefaults(w).windowSize == "1920,1080"
    ensures l.baseURL == "" ==> LinkedInDefaults(l).baseURL == "https://www.linkedin.com"
    ensures l.loginURL == "" ==> LinkedInDefaults(l).loginURL == "https://www.linkedin.com/login"
    ensures e.outputDir == "" ==> ExportDefaults(e).outputDir == "data/output"
    ensures e.format == "" ==> ExportDefaults(e).format == "csv"
    ensures d.minDelay == 0 ==> DelayDefaults(d).minDelay == 2 * Second
    ensures d.maxDelay == 0 ==> DelayDefaults(d).maxDelay == 5 * Second
    ensures d.pageLoad == 0 ==> DelayDefaults(d).pageLoad == 3 * Second
    ensures d.elementSearch == 0 ==> DelayDefaults(d).elementSearch == 10 * Second
    ensures d.scrollDelay == 0 ==> DelayDefaults(d).scrollDelay == 500 * Millisecond
    ensures g.level == "" ==> LoggingDefaults(g).level == "info"
    ensures g.filePath == "" ==> LoggingDefaults(g).filePath == "logs/scraper.log"
  {
  }

  // ---------------------------------------------------------------------------------------
  // The configuration object
  // ---------------------------------------------------------------------------------------

  class Config {
    var webDriver: WebDriverConfig
    var linkedIn: LinkedInConfig
    var exports: ExportConfig
    var delays: DelayConfig
    var userAgents: seq<string>
    var logging: LoggingConfig

    /** The configuration as the YAML decoder leaves it, before any default is applied. */
    constructor (webDriver: WebDriverConfig, linkedIn: LinkedInConfig, exports: ExportConfig,
                 delays: DelayConfig, userAgents: seq<string>, logging: LoggingConfig)
      ensures this.webDriver == webDriver && this.linkedIn == linkedIn && this.exports == exports
      ensures this.delays == delays && this.userAgents == userAgents && this.logging == logging
    {
      this.webDriver, this.linkedIn, this.exports := webDriver, linkedIn, exports;
      this.delays, this.userAgents, this.logging := delays, userAgents, logging;
    }

    /** Every field that has a default is set. */
    predicate Complete()
      reads this
    {
      && WebDriverComplete(webDriver) && LinkedInComplete(linkedIn) && ExportComplete(exports)
      && DelaysComplete(delays) && LoggingComplete(logging) && |userAgents| > 0
    }

    /** setDefaults: each unset field that has a default receives it, in place. */
    method SetDefaults()
      modifies this
      ensures webDriver == WebDriverDefaults(old(webDriver))
      ensures linkedIn == LinkedInDefaults(old(linkedIn))
      ensures exports == ExportDefaults(old(exports))
      ensures delays == DelayDefaults(old(delays))
      ensures logging == LoggingDefaults(old(logging))
      ensures userAgents == UserAgentDefaults(old(userAgents))
      ensures Complete()
      ensures old(Complete()) ==> unchanged(this)
    {
      SetWebDriverDefaults();
      SetLinkedInDefaults();
      SetExportDefaults();
      SetDelayDefaults();
      SetLoggingDefaults();
      if |userAgents| == 0 {
        userAgents := DefaultUserAgents;
      }
      CompleteSectionsAreFixed(old(webDriver), old(linkedIn), old(exports), old(delays), old(logging), old(userAgents));
    }

    method SetWebDriverDefaults()
      modifies this`webDriver
      ensures webDriver == WebDriverDefaults(old(webDriver))
    {
      if webDriver.port == 0 {
        webDriver := webDriver.(port := 9515);
      }
      if webDriver.timeout == 0 {
        webDriver := webDriver.(timeout := 30);
      }
      if webDriver.windowSize == "" {
        webDriver := webDriver.(windowSize := "1920,1080");
      }
    }

    method SetLinkedInDefaults()
      modifies this`linkedIn
      ensures linkedIn == LinkedInDefaults(old(linkedIn))
    {
      if linkedIn.baseURL == "" {
        linkedIn := linkedIn.(baseURL := "https://www.linkedin.com");
      }
      if linkedIn.loginURL == "" {
        linkedIn := linkedIn.(loginURL := "https://www.linkedin.com/login");
      }
    }

    method SetExportDefaults()
      modifies this`exports
      ensures exports == ExportDefaults(old(exports))
    {
      if exports.outputDir == "" {
        exports := exports.(outputDir := "data/output");
      }
      if exports.format == "" {
        exports := exports.(format := "csv");
      }
    }

    method SetDelayDefaults()
      modifies this`delays
      ensures delays == DelayDefaults(old(delays))
    {
      if delays.minDelay == 0 {
        delays := delays.(minDelay := 2 * Second);
      }
      if delays.maxDelay == 0 {
        delays := delays.(maxDelay := 5 * Second);
      }
      if delays.pageLoad == 0 {
        delays := delays.(pageLoad := 3 * Second);
      }
      if delays.elementSearch == 0 {
        delays := delays.(elementSearch := 10 * Second);
      }
      if delays.scrollDelay == 0 {
        delays := delays.(scrollDelay := 500 * Millisecond);
      }
    }

    method SetLoggingDefaults()
      modifies this`logging
      ensures logging == LoggingDefaults(old(logging))
    {
      if logging.level == "" {
        logging := logging.(level := "info");
      }
      if logging.filePath == "" {
        logging := logging.(filePath := "logs/scraper.log");
      }
    }
  }
}
