# Adaptive-Portfolio scraper core, in Dafny

This project models the Go back end of Adaptive-Portfolio, which scrapes LinkedIn profiles. It
also models the small resume-text parser of the older back end. The browser, the random number
generator and the clock are made abstract. Everything that decides *what* the scraper does is
written out and proved:
the selector cascades, the caps on each section, the profile record and its de-duplicated skills,
the delay and scroll arithmetic, the login step sequence, configuration defaults, the URL and
text validators, the CSV row layout, and the line-by-line section parser.

Modules, one per Go file, plus three shared ones:

- `Wrappers`: `Option`, `Result` (Go's `(value, error)`) and `Status` (a bare `error`).
- `Text`: the parts of Go's `strings` and `strconv` the sources use. These are `TrimSpace`,
  `Split`, `Join`, ASCII `ToLower` and `EqualFold`, `Index`, `Atoi` and `FormatInt`, and the
  UTF-8 byte length.
- `Browser`: an abstract page. It maps a locator (strategy, selector) to the elements found, and
  each element has a text, which can fail, and sub-element texts.
- `Models` (internal/models/profile.go): class `Profile` with sequence fields, which the `Add*`
  methods update in place.
- `Scraper` (internal/scraper/linkedin.go): the extractors and `ScrapeProfile`. Each selector
  table is a `Selectors` parameter; `LinkedIn` holds the source's literal selectors.
- `Timing` (internal/scraper/delays.go): delays, scrolling, mouse movement, typing, the CAPTCHA
  and rate-limit scans.
- `Session` (internal/scraper/client.go): the Chrome arguments, `Close`, polling waits, `Login`
  and `parseWindowSize`.
- `Configuration` (internal/config/config.go): class `Config` and `setDefaults`.
- `Validation` (pkg/utils/validator.go): URL checks, normalisation, username extraction,
  truncation, `ContainsAny` and whitespace sanitising.
- `Randomizer` (pkg/utils/randomizer.go): draws, in-place `ShuffleStrings` over an `array`, and
  the user-agent pick.
- `Util` (internal/util.go): `ContainsString` and `RemoveDuplicates`.
  pkg/utils/validator.go's `RemoveDuplicates` is the same loop and shares this model.
- `Export` (internal/export/csv.go): the records of the flat and detailed CSV layouts, and the
  summary totals.
- `Command` (cmd/scraper/main.go): `changeExtension`.
- `ResumeParser` (backend/parser/parser.go): `heuristicParse`, as a state machine over lines.

Random draws are parameters constrained to the range the Go call guarantees. For example,
`rand.Intn(n)` becomes a `draw` with `0 <= draw < n`, and loops take a function from the
iteration number to a draw. A wait with a timeout becomes a number of polling attempts.
Durations are integers in nanoseconds, as in Go's `time.Duration`.

## Model

| member | source | states |
|---|---|---|
| Models.Profile.constructor | backend-go/internal/models/profile.go:39-46 | A new profile has empty text fields, empty experience, education and skill lists, and the given scrape time |
| Models.Profile.AddExperience | backend-go/internal/models/profile.go:49-51 | Appends exactly one entry at the end; earlier entries are unchanged |
| Models.Profile.AddEducation | backend-go/internal/models/profile.go:54-56 | Appends exactly one entry at the end; earlier entries are unchanged |
| Models.Profile.AddSkill | backend-go/internal/models/profile.go:59-63 | Either nothing changes or the trimmed skill is appended; which one is decided by `WithSkill` |
| Models.HasSkill | backend-go/internal/models/profile.go:66-73 | True iff some stored skill equals the argument case-insensitively |
| Models.WithSkillNoOp | backend-go/internal/models/profile.go:59-63 | An empty skill, or one equal case-insensitively to a stored skill, leaves the list unchanged |
| Models.WithSkillKeepsFoldDistinct | backend-go/internal/models/profile.go:59-73 | For inputs without surrounding spaces, the list never holds two case-insensitively equal skills |
| Models.AddGoThenGo | backend-go/internal/models/profile.go:59-73 | Adding "Go" and then "go" leaves the single skill "Go" |
| Models.PaddedRepeatIsStored | backend-go/internal/models/profile.go:60-61 | The duplicate check compares the untrimmed input, so " go" after "Go" is stored as a second skill "go" |
| Models.BlankSkillStoredEmpty | backend-go/internal/models/profile.go:60-61 | A whitespace-only skill that matches nothing is stored as "" |
| Models.ExperiencePart | backend-go/internal/models/profile.go:83-86 | An entry renders as "Title at Company", with " (Duration)" added exactly when the duration is non-empty |
| Models.EducationPart | backend-go/internal/models/profile.go:100-103 | An entry renders as "Degree from School", with " (Duration)" added exactly when the duration is non-empty |
| Models.Profile.ExperienceAsString | backend-go/internal/models/profile.go:76-90 | One part per entry, in order, joined by "; "; "" for no entries; a single entry is its part alone; n entries without ';' in them give exactly n-1 separators |
| Models.Profile.EducationAsString | backend-go/internal/models/profile.go:93-107 | The same as the experience rendering, over education entries |
| Models.Profile.SkillsAsString | backend-go/internal/models/profile.go:110-112 | The skills, in order, joined by ", "; "" for no skills; one skill alone; skills without ',' are separated by exactly n-1 commas |
| Models.ExperienceRenderingSnoc | backend-go/internal/models/profile.go:76-90 | The rendering of a non-empty list with one more entry is the old rendering, "; " and the new part |
| Models.EducationRenderingSnoc | backend-go/internal/models/profile.go:93-107 | The same for education entries |
| Models.AddExperienceRendering | backend-go/internal/models/profile.go:49-51 | After AddExperience the rendering is the new part alone (first entry) or the old rendering, "; " and the new part |
| Models.AddEducationRendering | backend-go/internal/models/profile.go:54-56 | The same for AddEducation |
| Models.AddSkillRendering | backend-go/internal/models/profile.go:59-63 | A skipped skill leaves the skills text unchanged; a stored one after others extends it by ", " and the trimmed skill |
| Models.ValidateIgnoresLists | backend-go/internal/models/profile.go:115-117 | Valid iff name and URL are non-empty, untrimmed; the lists do not matter |
| Scraper.FirstYield | backend-go/internal/scraper/linkedin.go:308-316 | The index of the first selector, in list order, whose element exists and has non-blank text |
| Scraper.FirstTextSpec | backend-go/internal/scraper/linkedin.go:308-319 | Success iff some selector yields non-blank text; the value is the untrimmed text of the first such selector; otherwise the fixed "text not found" error |
| Scraper.FirstTextIgnoresLaterSelectors | backend-go/internal/scraper/linkedin.go:308-316 | Selectors after a hit are never consulted: appending more selectors does not change the result |
| Scraper.ExtractTextBySelectors | backend-go/internal/scraper/linkedin.go:308-319 | The loop returns exactly the first-hit result stated by `FirstText` |
| Scraper.StoredSpec | backend-go/internal/scraper/linkedin.go:86-130 | A field keeps its old value when extraction fails; otherwise it holds the trimmed, non-empty text |
| Scraper.StoredFromEmpty | backend-go/internal/scraper/linkedin.go:86-130 | Starting from "", a field is set iff extraction succeeded |
| Scraper.ExtractBasicInfo | backend-go/internal/scraper/linkedin.go:77-131 | Always returns no error; name, headline, location and about are each set only from a successful extraction |
| Scraper.SelectSectionSpec | backend-go/internal/scraper/linkedin.go:145-160 | A section's elements are found iff some primary selector or the XPath fallback matches; found lists are non-empty; otherwise the section's own error |
| Scraper.SelectSectionPrefersFirstPrimary | backend-go/internal/scraper/linkedin.go:145-151 | The first matching primary selector wins |
| Scraper.SelectSectionFallback | backend-go/internal/scraper/linkedin.go:153-160 | The XPath fallback is used only when no primary matches; if it is empty too, the error is returned |
| Scraper.FindSection | backend-go/internal/scraper/linkedin.go:145-160 | The selector loop computes exactly `SelectSection` |
| Scraper.Take | backend-go/internal/scraper/linkedin.go:163-166 | At most n elements are examined, in document order |
| Scraper.Field | backend-go/internal/scraper/linkedin.go:171-189 | A missing sub-element reads as "" |
| Scraper.ExperienceEntries | backend-go/internal/scraper/linkedin.go:163-193 | Every kept entry has a title or a company, and no kept entry has a location or description |
| Scraper.EducationEntries | backend-go/internal/scraper/linkedin.go:228-258 | Every kept entry has a school or a degree, and no kept entry has a description |
| Scraper.ExperienceEntriesAppend | backend-go/internal/scraper/linkedin.go:163-193 | Entries are kept in document order: the filter distributes over concatenation |
| Scraper.EducationEntriesAppend | backend-go/internal/scraper/linkedin.go:228-258 | Entries are kept in document order: the filter distributes over concatenation |
| Scraper.SkillTexts | backend-go/internal/scraper/linkedin.go:293-302 | Empty or failed texts are skipped |
| Scraper.AddSkills | backend-go/internal/scraper/linkedin.go:293-302 | Existing skills stay in place, and at most one skill is added per text |
| Scraper.AddSkillsKeepsFoldDistinct | backend-go/internal/scraper/linkedin.go:293-302 | Adding scraped skills whose texts have no surrounding white space keeps the list free of case-insensitive duplicates |
| Scraper.PaddedScrapedRepeat | backend-go/internal/scraper/linkedin.go:297-300 | The white-space hypothesis is needed: texts "Go" then " go" store both "Go" and "go", a case-insensitive repeat |
| Scraper.ScrapedExperience | backend-go/internal/scraper/linkedin.go:163-166 | At most 5 experience entries come from one page |
| Scraper.ScrapedEducation | backend-go/internal/scraper/linkedin.go:228-231 | At most 3 education entries come from one page |
| Scraper.ScrapedSkillTexts | backend-go/internal/scraper/linkedin.go:293-296 | At most 10 skill texts come from one page |
| Scraper.ExtractExperience | backend-go/internal/scraper/linkedin.go:134-197 | Errors exactly when the section is not found, leaving the list unchanged; otherwise appends the scraped entries |
| Scraper.AppendExperience | backend-go/internal/scraper/linkedin.go:163-193 | The capped loop appends exactly the kept entries of the first 5 elements |
| Scraper.ExtractEducation | backend-go/internal/scraper/linkedin.go:200-262 | Errors exactly when the section is not found, leaving the list unchanged; otherwise appends the scraped entries |
| Scraper.AppendEducation | backend-go/internal/scraper/linkedin.go:228-258 | The capped loop appends exactly the kept entries of the first 3 elements |
| Scraper.ExtractSkills | backend-go/internal/scraper/linkedin.go:265-305 | Errors exactly when the section is not found; otherwise adds the scraped texts through AddSkill |
| Scraper.AppendSkills | backend-go/internal/scraper/linkedin.go:293-302 | The capped loop adds the non-empty texts of the first 10 elements through AddSkill |
| Scraper.ExtractSections | backend-go/internal/scraper/linkedin.go:46-65 | Section failures are warnings: all three sections are attempted whatever the others return |
| Scraper.ExtractAll | backend-go/internal/scraper/linkedin.go:37-65 | After all extractors run, the profile holds the page's scrape, and the name is set iff a name selector yields text |
| Scraper.ScrapeLoadedPage | backend-go/internal/scraper/linkedin.go:27-70 | A fresh profile with the given URL and time holds the page's scrape; it is valid iff the URL and a name are non-empty |
| Scraper.ScrapeProfile | backend-go/internal/scraper/linkedin.go:15-74 | Fails only on navigation or on the validity gate; on success the profile's URL is the input URL |
| Timing.RandomDelay | backend-go/internal/scraper/delays.go:11-24 | MinDelay when the range is empty, otherwise a value in [MinDelay, MaxDelay) |
| Timing.ShortDelay | backend-go/internal/scraper/delays.go:27-30 | Between 500 and 1499 whole milliseconds |
| Timing.ScrollAmount | backend-go/internal/scraper/delays.go:50-53 | A scroll step is at least the 100 floor, and in [200, 399] for every draw |
| Timing.HumanLikeScrolling | backend-go/internal/scraper/delays.go:33-77 | A failed probe is returned; every step is in [200, 399]; the loop stops once the position reaches the height and then scrolls to top; a failed scroll aborts |
| Timing.RotateUserAgent | backend-go/internal/scraper/delays.go:80-97 | No script runs for an empty list; otherwise the chosen agent is from the list and the script's result is returned |
| Timing.SimulateMouseMovement | backend-go/internal/scraper/delays.go:100-139 | Probe errors are returned; a non-positive size panics; a positive size always gives exactly 3 moves, each inside the viewport and each the pair of draws made for it |
| Timing.TypeWithDelay | backend-go/internal/scraper/delays.go:176-199 | Clears first, then sends characters in order; succeeds iff every step does, and stops at the first failure |
| Timing.FirstMatch | backend-go/internal/scraper/delays.go:238-254 | The first selector in list order that matches at least one element |
| Timing.CheckForCaptcha | backend-go/internal/scraper/delays.go:237-255 | Never errors; true iff some CAPTCHA selector matches |
| Timing.HandleRateLimit | backend-go/internal/scraper/delays.go:258-278 | Never errors; backs off iff some rate-limit selector matches, for 300 to 599 seconds |
| Session.ChromeArgs | backend-go/internal/scraper/client.go:26-41 | The fixed arguments, then the window size, then "--headless" only when headless |
| Session.HeadlessFlag | backend-go/internal/scraper/client.go:39-41 | "--headless" is passed iff headless is set |
| Session.NewClient | backend-go/internal/scraper/client.go:24-75 | Service start failure is returned; a failed connection stops the service before returning; otherwise a client over the running service and an open driver |
| Session.Client.Close | backend-go/internal/scraper/client.go:78-85 | Quits the driver and stops the service, each only when present |
| Session.PollAttemptsSpec | backend-go/internal/scraper/client.go:148-160 | Attempt k happens iff it starts before the timeout, with one attempt every 500 ms |
| Session.TenSecondsIsTwentyAttempts | backend-go/internal/scraper/client.go:138-141 | The 10 s wait for the home marker gives 20 attempts |
| Session.FirstFoundSpec | backend-go/internal/scraper/client.go:151-157 | The first attempt whose lookup succeeds, if any |
| Session.PolledSpec | backend-go/internal/scraper/client.go:148-160 | Succeeds iff some attempt finds the element, returning the first found; otherwise the not-found error |
| Session.WaitForElement | backend-go/internal/scraper/client.go:148-160 | The polling loop computes exactly `Polled` |
| Session.FirstNonEmptySpec | backend-go/internal/scraper/client.go:166-172 | The first attempt whose lookup returns a non-empty list, if any |
| Session.PolledAllSpec | backend-go/internal/scraper/client.go:167-174 | An empty result counts as not found; on success the list is non-empty |
| Session.WaitForElements | backend-go/internal/scraper/client.go:163-175 | The polling loop computes exactly `PolledAll` |
| Session.RunStep | backend-go/internal/scraper/client.go:88-141 | One login step's outcome, as stated by `StepOutcome` |
| Session.RunWait | backend-go/internal/scraper/client.go:97-141 | A wait step's outcome, with the step's own error context |
| Session.Login | backend-go/internal/scraper/client.go:88-145 | Steps run in the fixed order; every step before the last one run passed; the first failure is returned and nothing after it runs |
| Session.LoginSucceedsIffAllStepsPass | backend-go/internal/scraper/client.go:88-145 | Login succeeds iff every step of the sequence passes |
| Session.LoginNeedsHomeMarker | backend-go/internal/scraper/client.go:138-144 | Success needs the home marker found within the 20 attempts of the 10 s wait |
| Session.ParseWindowSize | backend-go/internal/scraper/client.go:178-195 | Fails with the format error unless the string splits on ',' into exactly two parts; then each part is trimmed and parsed, the width first: a failing width gives "invalid width: ", a failing height "invalid height: " (with the untrimmed part), and otherwise the two values in order |
| Session.ParseWindowSizeOfParts | backend-go/internal/scraper/client.go:179-194 | Two comma-free parts around one comma are parsed each on its own, with the width error taking precedence |
| Session.ParseWindowSizePadded | backend-go/internal/scraper/client.go:184-194 | White space around either number is ignored: padded "width , height" parses to (width, height) |
| Session.ParseWindowSizeNeedsOneComma | backend-go/internal/scraper/client.go:179-182 | Any number of commas other than one gives the format error |
| Session.ParseWindowSizeRoundTrip | backend-go/internal/scraper/client.go:184-194 | Parsing "width,height" printed from two integers gives back (width, height) in order |
| Session.DefaultWindowSize | backend-go/internal/scraper/client.go:184-194 | "1920,1080" parses to (1920, 1080) |
| Configuration.WebDriverDefaults | backend-go/internal/config/config.go:80-90 | Afterwards no defaulted field is zero; set fields and the fields without a default are kept |
| Configuration.LinkedInDefaults | backend-go/internal/config/config.go:92-98 | Afterwards both URLs are set; set URLs, email and password are kept |
| Configuration.ExportDefaults | backend-go/internal/config/config.go:100-106 | Afterwards directory and format are set; set values are kept |
| Configuration.DelayDefaults | backend-go/internal/config/config.go:108-126 | Afterwards every delay is non-zero; set delays are kept |
| Configuration.LoggingDefaults | backend-go/internal/config/config.go:128-134 | Afterwards level and file are set; set values and the console flag are kept |
| Configuration.UserAgentDefaults | backend-go/internal/config/config.go:136-150 | An empty list becomes the 5 built-in agents; a non-empty list is kept |
| Configuration.CompleteSectionsAreFixed | backend-go/internal/config/config.go:79-139 | A section with every defaulted field set is left unchanged |
| Configuration.DefaultsIdempotent | backend-go/internal/config/config.go:79-139 | Applying the defaults twice is applying them once |
| Configuration.DefaultValues | backend-go/internal/config/config.go:80-134 | Each zero field receives its documented default: port 9515, timeout 30, window "1920,1080", delays 2 s / 5 s / 3 s / 10 s / 500 ms, and the rest |
| Configuration.Config.constructor | backend-go/internal/config/config.go:11-18 | A configuration holds exactly the given sections |
| Configuration.Config.SetDefaults | backend-go/internal/config/config.go:79-139 | Every section is replaced by its defaulted form; afterwards the configuration is complete, and a complete one is left unchanged |
| Validation.ProfilePathMatchesPattern | backend-go/pkg/utils/validator.go:28-31 | The hand-written path test accepts exactly the paths of the form /in/ + one or more [A-Za-z0-9-] + an optional "/" |
| Validation.ValidateLinkedInURL | backend-go/pkg/utils/validator.go:11-34 | Passes iff the URL is non-empty, parses, has host linkedin.com or www.linkedin.com and a profile path; each failure (empty, unparsable, foreign host, non-profile path) gives its own message |
| Validation.ValidateProfileDataSpec | backend-go/pkg/utils/validator.go:68-78 | A blank name or URL is rejected with its message; otherwise the result is exactly the URL check |
| Validation.ValidatePassword | backend-go/pkg/utils/validator.go:113-123 | Passes iff the password is at least 6 bytes long |
| Validation.PasswordLengthInCharacters | backend-go/pkg/utils/validator.go:113-123 | 6 characters always pass, 0 or 1 character always fail, and "" gets the empty-password message |
| Validation.WithScheme | backend-go/pkg/utils/validator.go:38-41 | The result starts with http:// or https://; a URL that already does is unchanged |
| Validation.WithSchemeIdempotent | backend-go/pkg/utils/validator.go:38-41 | Adding the scheme twice is adding it once |
| Validation.NormalizeLinkedInURL | backend-go/pkg/utils/validator.go:37-65 | A parse error is returned; otherwise https, host never bare linkedin.com, no query or fragment, and the path loses at most one trailing "/" |
| Validation.NormalizedKeepsProfile | backend-go/pkg/utils/validator.go:37-65 | A LinkedIn profile URL normalises to www.linkedin.com/in/user and keeps its username |
| Validation.NormalizedIdempotent | backend-go/pkg/utils/validator.go:37-65 | Normalising twice is normalising once, for paths not ending in "//" |
| Validation.ExtractUsernameFromURL | backend-go/pkg/utils/validator.go:126-139 | Parse errors are returned; success iff the trimmed path has at least two segments and the first is "in"; the username contains no "/" |
| Validation.UsernameOfProfilePath | backend-go/pkg/utils/validator.go:133-138 | For /in/user or /in/user/ the username is user |
| Validation.ValidatedURLHasUsername | backend-go/pkg/utils/validator.go:11-34 | Every URL that passes validation has a [A-Za-z0-9-]+ username |
| Validation.TruncateText | backend-go/pkg/utils/validator.go:147-157 | Text within the limit is unchanged; longer text is cut to exactly the limit, ending in "..." when the limit exceeds 3, and a plain prefix otherwise |
| Validation.TruncateTextIdempotent | backend-go/pkg/utils/validator.go:147-157 | Truncating twice is truncating once |
| Validation.ContainsAny | backend-go/pkg/utils/validator.go:160-168 | True iff some substring occurs in the text, both lower-cased |
| Validation.ContainsAnyEmptySubstring | backend-go/pkg/utils/validator.go:160-168 | An empty substring matches every text |
| Validation.ContainsAnyIgnoresCase | backend-go/pkg/utils/validator.go:160-168 | Texts equal up to case give the same answer |
| Validation.CollapseSpaces | backend-go/pkg/utils/validator.go:83 | The result has no two adjacent whitespace characters, and keeps a non-space first character |
| Validation.SanitizeText | backend-go/pkg/utils/validator.go:81-86 | The result has no whitespace runs and no surrounding whitespace |
| Validation.CollapseSpacesIsBlankThenSqueeze | backend-go/pkg/utils/validator.go:83 | The collapse equals an independent reading: each \s character becomes a space, then each run of spaces is cut to one |
| Validation.CollapseSpacesKeepsNonSpace | backend-go/pkg/utils/validator.go:83 | The characters outside \s are kept, in order, and none is added |
| Validation.SanitizeTextKeepsNonSpace | backend-go/pkg/utils/validator.go:81-86 | For text whose white space is all \s, sanitising keeps every other character in order |
| Validation.TrimSpaceKeepsCollapsed | backend-go/pkg/utils/validator.go:83-86 | Trimming keeps a collapsed text collapsed |
| Validation.CollapseOfCollapsed | backend-go/pkg/utils/validator.go:83 | Collapsing a collapsed text changes nothing |
| Validation.SanitizeTextIdempotent | backend-go/pkg/utils/validator.go:81-86 | Sanitising twice is sanitising once |
| Randomizer.RandomSleep | backend-go/pkg/utils/randomizer.go:9-18 | min when max <= min, otherwise a duration in [min, max) |
| Randomizer.RandomSleepCovers | backend-go/pkg/utils/randomizer.go:9-18 | Every duration of [min, max) is reachable |
| Randomizer.RandomInt | backend-go/pkg/utils/randomizer.go:21-26 | min when max <= min, otherwise a value in [min, max] inclusive |
| Randomizer.RandomIntCovers | backend-go/pkg/utils/randomizer.go:21-26 | Every value of [min, max] is reachable |
| Randomizer.RandomChoice | backend-go/pkg/utils/randomizer.go:42-47 | "" for no choices, otherwise one of the choices |
| Randomizer.RandomChoiceCovers | backend-go/pkg/utils/randomizer.go:42-47 | Every choice can be returned |
| Randomizer.GenerateRandomUserAgent | backend-go/pkg/utils/randomizer.go:57-68 | One of the 6 fixed user agents |
| Randomizer.ShuffleStrings | backend-go/pkg/utils/randomizer.go:50-54 | The array ends as the Fisher-Yates pass over the draws would leave it, with the same multiset of elements |
| Randomizer.ShuffledIsPermutation | backend-go/pkg/utils/randomizer.go:50-54 | The pass keeps the length and the multiset of elements |
| Randomizer.ShuffleFromIsPermutation | backend-go/pkg/utils/randomizer.go:50-54 | Each remaining part of the pass keeps the multiset |
| Randomizer.SwapIsPermutation | backend-go/pkg/utils/randomizer.go:50-54 | One swap keeps the multiset |
| Util.ContainsString | backend-go/internal/util.go:15-22 | True iff some element equals the string exactly |
| Util.RemoveDuplicates | backend-go/internal/util.go:25-35 | The loop with its `unique` map computes the first occurrences in order (`Distinct`) |
| Util.DistinctNoRepeats | backend-go/internal/util.go:25-35 | The output holds no element twice |
| Util.DistinctSameElements | backend-go/internal/util.go:28-33 | The output holds exactly the input's elements |
| Util.FirstIndex | backend-go/internal/util.go:28-33 | The position of the first occurrence of a value |
| Util.FirstIndexUnique | backend-go/internal/util.go:28-33 | A position with the value and none before it is the first occurrence |
| Util.DistinctKeepsFirstOrder | backend-go/pkg/utils/validator.go:171-183 | The output of either de-duplication loop (this one with its `seen` map, and the one in internal/util.go) lists elements in the order of their first occurrence |
| Util.DistinctOfNoRepeats | backend-go/internal/util.go:25-35 | A list without repeats is returned unchanged |
| Util.DistinctIdempotent | backend-go/internal/util.go:28-34 | De-duplicating twice is de-duplicating once |
| Export.ToCSV | backend-go/internal/export/csv.go:14-68 | A 9-column header and then exactly one 9-field record per profile, in input order |
| Export.Max | backend-go/internal/export/csv.go:204-209 | The larger of the two arguments |
| Export.RowCountCoversLists | backend-go/internal/export/csv.go:145-150 | A profile gets max(experience, education) rows, or 1 row when both are empty |
| Export.DetailedRow | backend-go/internal/export/csv.go:151-192 | Every detailed row has as many fields as the 14-column header |
| Export.DetailedRows | backend-go/internal/export/csv.go:144-198 | A profile's n rows are its rows 0..n-1, in order |
| Export.DetailedRowLayout | backend-go/internal/export/csv.go:151-192 | Name to about repeat on every row; row i carries experience i and education i or blanks; skills, URL and time are on row 0 only |
| Export.DetailedRowsKeepEveryEntry | backend-go/internal/export/csv.go:144-198 | Every experience and education entry appears in its own row |
| Export.DetailedBodySnoc | backend-go/internal/export/csv.go:144-198 | The body for one more profile is the old body followed by that profile's rows |
| Export.BuildRow | backend-go/internal/export/csv.go:151-192 | The appends of one iteration build exactly `DetailedRow` |
| Export.ProfileRows | backend-go/internal/export/csv.go:144-198 | The row loop for one profile builds exactly its `DetailedRows` |
| Export.ToCSVDetailed | backend-go/internal/export/csv.go:104-201 | The header, then the rows of every profile in input order |
| Export.ExportSummaryTotals | backend-go/internal/export/csv.go:212-265 | The totals are the sums of the list lengths; the time is the first profile's, so a non-empty input is required |
| Export.DetailedBodyCoversTotals | backend-go/internal/export/csv.go:144-198 | The detailed body has at least one row per profile, per experience and per education entry |
| Command.LastDot | backend-go/cmd/scraper/main.go:91-95 | The position of the last '.', or none when there is no '.' |
| Command.ChangeExtension | backend-go/cmd/scraper/main.go:89-97 | The result always ends with the new extension |
| Command.ChangeExtensionCutsAtLastDot | backend-go/cmd/scraper/main.go:91-94 | With a last '.', the result is the prefix before it followed by the new extension |
| Command.ChangeExtensionWithoutDot | backend-go/cmd/scraper/main.go:96 | Without a '.', the new extension is appended to the whole name |
| Command.ChangeExtensionCutsDirectoryDot | backend-go/cmd/scraper/main.go:91-93 | The search spans the whole path: "a.b/c" becomes "a" plus the extension |
| Command.ChangeExtensionIdempotent | backend-go/cmd/scraper/main.go:91-94 | Changing to an extension whose only '.' leads it is idempotent |
| ResumeParser.MatchingSections | backend/parser/parser.go:67-78 | No section matches iff no keyword occurs in the line; every matching keyword's section is a candidate |
| ResumeParser.TrimAll | backend/parser/parser.go:84-88 | Each piece is trimmed, in place and order |
| ResumeParser.AppendSkillPieces | backend/parser/parser.go:84-88 | Every comma-separated piece, empty ones included, is trimmed and appended in order |
| ResumeParser.AbsorbLine | backend/parser/parser.go:80-105 | A data line changes the record as the current section dictates (`Absorb`) |
| ResumeParser.HeuristicParse | backend/parser/parser.go:41-112 | The loop over lines gives the state machine's record, with the summary trimmed |
| ResumeParser.BlankLineSkipped | backend/parser/parser.go:62-65 | A blank line changes nothing |
| ResumeParser.KeywordLineSwitchesSection | backend/parser/parser.go:49-78 | A line with a keyword adds no data and switches to the section of some keyword it contains |
| ResumeParser.AnyMatchingSectionCanWin | backend/parser/parser.go:67-78 | With random map order, any matching keyword's section can be the one chosen |
| ResumeParser.SkillsLineSplitsOnCommas | backend/parser/parser.go:84-88 | In the skills section a line adds one skill more than it has commas: its trimmed pieces, after the old skills |
| ResumeParser.ListLineAppended | backend/parser/parser.go:89-92 | Experience and education lines are appended trimmed, and the section stays |
| ResumeParser.HeaderLineNameRule | backend/parser/parser.go:93-104 | Before any section an email line sets the email and adds the rest to the name; otherwise the first line becomes the name and later ones change nothing |
| ResumeParser.SummaryLines | backend/parser/parser.go:82-83 | The summary lines are non-empty and trimmed |
| ResumeParser.RunSummaryIsSpaced | backend/parser/parser.go:82-83 | The raw summary is each summary line followed by one space |
| ResumeParser.ParsedSummaryIsJoin | backend/parser/parser.go:82-83 | After the final trim, the summary is the summary lines joined by single spaces |

## Left out

- The Selenium driver, the ChromeDriver service, `time.Sleep` and `time.Now` are not modelled. Pages are a map from locator to elements, waits are counted in attempts, and times are parameters.
- The global `math/rand` source and its seeding are not modelled. Each draw is a parameter constrained to the range of the Go call.
- The JavaScript payloads of `antiDetectionSetup`, `rotateUserAgent` and `simulateMouseMovement` run in the browser. Only the outcome of each script call is a parameter.
- `antiDetectionSetup` and `clickWithDelay` are not modelled: they only sleep and call the driver.
- `waitWithRandomization` and `RandomFloat` are not modelled because they use floating point. `RandomBool` is a bare draw.
- The averages of `ExportSummary`, and the text of its listing lines, are not modelled (floating point and formatting). Only its totals and its use of the first profile are.
- File and network I/O are not modelled:
  - `config.Load` and its YAML decoding;
  - creating and writing files in the exporters, and the `encoding/csv` quoting;
  - `ToJSON`;
  - `ParsePDF` and its PDF library;
  - flag parsing and the format dispatch of cmd/scraper/main.go.
- The HTTP servers (backend-go/main.go, backend-go/cmd/api-backend/main.go, the C servers), internal/scraper.go, `CheckError` and the web front ends are not part of this model.
- `net/url` parsing is a parameter of type `Result<Url>`, or a parsing function for `NormalizeLinkedInURL`. Printing the URL back with `URL.String` is not modelled, so normalisation returns the URL record.
- The `regexp` engine is not modelled:
  - the profile-path pattern and the `\s+` collapse are written out by hand;
  - the email search of `heuristicParse` is an unconstrained function parameter: nothing is assumed about what it returns;
  - `ValidateEmail` is left out because it is only a regular-expression match.
- `IsEmptyOrWhitespace` is not modelled separately. It is `Text.IsBlank`.
- The smart-quote replacements of `SanitizeText` are not modelled: the source literals are not reliably readable. Only whitespace collapsing and trimming are.
- Go's Unicode `strings.ToLower` and `strings.EqualFold` are modelled as ASCII case folding.
- Models.HasSkill: compares with ASCII case folding, weaker than Go's Unicode simple folding.
- Validation.ContainsAny: lower-cases only ASCII letters.
- Validation.TruncateText: works on bytes, like Go's `len` and slicing. It does not model that a cut can split a multi-byte character when the text is converted back to a string.
- Randomizer.RandomSleep: does not model the int64 wrap-around of `max - min` for extreme durations; the arithmetic is unbounded.
- Scraper.AddSkillsKeepsFoldDistinct: proved only for texts without surrounding white space. Element texts reach AddSkill untrimmed, so a padded repeat is stored (Scraper.PaddedScrapedRepeat).
- Validation.SanitizeTextKeepsNonSpace: assumes the text has no white space outside \s; TrimSpace also drops, say, a no-break space at either end.
- Randomizer.ShuffleStrings: proves the swaps and the permutation, not the uniform distribution of `rand.Shuffle`.
- Randomizer.RandomInt: does not model the wrap-around of Go's `int` in `max - min + 1`: when `max - min` reaches the largest int64 the bound wraps to zero or below and `rand.Intn` panics, while the model returns a value in [min, max]; the arithmetic is unbounded.
- Timing.HumanLikeScrolling: does not model the int64 wrap-around of `currentPosition`: for a probed page height within 399 of the largest int64 the Go position can wrap negative and the loop need not stop, while the model's position is unbounded and the loop always ends.
- Timing.RandomDelay: does not model the int64 wrap-around of `int64(max - min)` for extreme delays, since the arithmetic is unbounded; the `%v` text of the logged duration is not modelled either.
- Session.NewClient: models the argument list and the start, connect and stop order. The timeouts set on the driver and the initial user agent are not modelled.
- Session.Login: the code never checks for a CAPTCHA during login. The model follows the code, so a CAPTCHA page simply makes a later wait fail.
- Scraper.ScrapeProfile: the page-load sleep and the `randomDelay` pauses between sections are dropped. The scroll runs, but its error is only logged, as in the source.
- ResumeParser.HeuristicParse: Go's random map order is a `pick` parameter that selects among the matching keywords on each line.
- Export.ToCSV: the `2006-01-02 15:04:05` rendering of the scrape time is a `stamp` parameter; time formatting is not modelled.
- Util.RemoveDuplicates: internal/util.go returns a nil slice for empty input, and pkg/utils/validator.go an empty non-nil one; sequences do not distinguish nil from empty.
