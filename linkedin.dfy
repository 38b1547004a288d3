/**
 * The extraction cascade (scraper/linkedin.go): ordered selector lists tried until the first
 * hit, an XPath fallback per section, fixed caps on how many section elements are examined,
 * and the orchestrator that turns every section failure into a warning.
 */
module Scraper {
  import opened Wrappers
  import opened Text
  import opened Browser
  import opened Models
  import opened Timing

  // ---------------------------------------------------------------------------------------
  // Selectors
  // ---------------------------------------------------------------------------------------

  const NameSelectors: seq<string> := [
    "h1.text-heading-xlarge",
    "h1[data-generated-suggestion-target]",
    ".pv-text-details__left-panel h1",
    ".ph5 h1"
  ]

  const HeadlineSelectors: seq<string> := [
    ".text-body-medium.break-words",
    ".pv-text-details__left-panel .text-body-medium",
    ".ph5 .text-body-medium",
    "[data-generated-suggestion-target] + div"
  ]

  const LocationSelectors: seq<string> := [
    ".text-body-small.inline.t-black--light.break-words",
    ".pv-text-details__left-panel .text-body-small",
    ".ph5 .text-body-small",
    "span.text-body-small.inline"
  ]

  const AboutSelectors: seq<string> := [
    "#about ~ * .inline-show-more-text span[aria-hidden='true']",
    ".pv-shared-text-with-see-more span[aria-hidden='true']",
    "section[data-section='summary'] .pv-shared-text-with-see-more",
    ".core-section-container__content .inline-show-more-text"
  ]

  const ExperienceSelectors: seq<string> := [
    "#experience ~ * .pvs-list__item--line-separated",
    ".experience-section .pv-entity__summary-info",
    "section[data-section='experience'] .pv-entity__summary-info"
  ]

  const ExperienceXPath: Locator :=
    Locator(ByXPath, "//section[contains(@id, 'experience')]//li[contains(@class, 'artdeco-list__item')]")

  const EducationSelectors: seq<string> := [
    "#education ~ * .pvs-list__item--line-separated",
    ".education-section .pv-entity__summary-info",
    "section[data-section='education'] .pv-entity__summary-info"
  ]

  const EducationXPath: Locator :=
    Locator(ByXPath, "//section[contains(@id, 'education')]//li[contains(@class, 'artdeco-list__item')]")

  const SkillSelectors: seq<string> := [
    "#skills ~ * .mr1.t-bold span[aria-hidden='true']",
    ".skills-section .pv-skill-category-entity__name span",
    "section[data-section='skills'] .pv-skill-category-entity__name span"
  ]

  const SkillsXPath: Locator :=
    Locator(ByXPath, "//section[contains(@id, 'skills')]//span[contains(@class, 't-bold')]")

  /** Sub-selectors inside one section element. */
  const BoldSelector: string := ".mr1.t-bold span[aria-hidden='true']"
  const NormalSelector: string := ".t-14.t-normal span[aria-hidden='true']"
  const LightSelector: string := ".t-12.t-normal--light span[aria-hidden='true']"

  /** How many section elements each extractor examines. */
  const ExperienceCap: nat := 5
  const EducationCap: nat := 3
  const SkillsCap: nat := 10

  /** A section's primary CSS selectors, its XPath fallback and its error when nothing is found. */
  datatype Section = Section(primaries: seq<string>, fallback: Locator, missing: string)

  /**
   * Every selector the extractors consult. The extractors take the table as a parameter;
   * LinkedIn is the table linkedin.go hard-codes.
   */
  datatype Selectors = Selectors(
    name: seq<string>, headline: seq<string>, location: seq<string>, about: seq<string>,
    experience: Section, education: Section, skills: Section,
    bold: string, normal: string, light: string)

  const LinkedIn: Selectors := Selectors(
    NameSelectors, HeadlineSelectors, LocationSelectors, AboutSelectors,
    Section(ExperienceSelectors, ExperienceXPath, "no experience elements found"),
    Section(EducationSelectors, EducationXPath, "no education elements found"),
    Section(SkillSelectors, SkillsXPath, "no skill elements found"),
    BoldSelector, NormalSelector, LightSelector)

  // ---------------------------------------------------------------------------------------
  // extractTextBySelectors
  // ---------------------------------------------------------------------------------------

  /** The selector's element exists and its text, once trimmed, is not blank. */
  predicate Yields(page: Page, selector: string) {
    var e := FindElement(page, Css(selector));
    e.Ok? && e.value.text.Ok? && TrimSpace(e.value.text.value) != ""
  }

  /** The untrimmed text of a selector that yields. */
  function TextOf(page: Page, selector: string): string
    requires Yields(page, selector)
  {
    FindElement(page, Css(selector)).value.text.value
  }

  /** The position of the first selector at or after `from` that yields. */
  function FirstYield(page: Page, selectors: seq<string>, from: nat): (r: Option<nat>)
    requires from <= |selectors|
    ensures r.Some? ==> from <= r.value < |selectors| && Yields(page, selectors[r.value])
    ensures r.Some? ==> forall j {:trigger Yields(page, selectors[j])} ::
                          from <= j < r.value ==> !Yields(page, selectors[j])
    ensures r.None? ==> forall j {:trigger Yields(page, selectors[j])} ::
                          from <= j < |selectors| ==> !Yields(page, selectors[j])
    decreases |selectors| - from
  {
    if from == |selectors| then None
    else if Yields(page, selectors[from]) then Some(from)
    else FirstYield(page, selectors, from + 1)
  }

  /**
   * extractTextBySelectors' answer: the untrimmed text of the first selector that yields, or
   * an error when none does.
   */
  function FirstText(page: Page, selectors: seq<string>): Result<string> {
    match FirstYield(page, selectors, 0)
    case Some(i) => Ok(TextOf(page, selectors[i]))
    case None => Err("text not found with any selector")
  }

  /**
   * extractTextBySelectors fails exactly when no selector yields; on success its text is
   * not blank, and it is the text of the first selector that yields.
   */
  lemma FirstTextSpec(page: Page, selectors: seq<string>)
    ensures var r := FirstText(page, selectors);
            && (r.Ok? <==> exists i :: 0 <= i < |selectors| && Yields(page, selectors[i]))
            && (r.Ok? ==> TrimSpace(r.value) != "")
            && (r.Ok? ==> exists i :: 0 <= i < |selectors| && Yields(page, selectors[i])
                                      && r.value == TextOf(page, selectors[i])
                                      && forall j :: 0 <= j < i ==> !Yields(page, selectors[j]))
            && (r.Err? ==> r.msg == "text not found with any selector")
  {
    var r := FirstText(page, selectors);
    var m := FirstYield(page, selectors, 0);
    if m.Some? {
      assert Yields(page, selectors[m.value]);
    }
  }

  /** Once a selector yields, appending more selectors changes nothing: they are never consulted. */
  lemma {:induction false} FirstYieldIgnoresLaterSelectors(page: Page, selectors: seq<string>,
                                                          more: seq<string>, from: nat)
    requires from <= |selectors|
    requires FirstYield(page, selectors, from).Some?
    ensures FirstYield(page, selectors + more, from) == FirstYield(page, selectors, from)
    decreases |selectors| - from
  {
    assert (selectors + more)[from] == selectors[from];
    if !Yields(page, selectors[from]) {
      FirstYieldIgnoresLaterSelectors(page, selectors, more, from + 1);
    }
  }

  lemma FirstTextIgnoresLaterSelectors(page: Page, selectors: seq<string>, more: seq<string>)
    requires FirstText(page, selectors).Ok?
    ensures FirstText(page, selectors + more) == FirstText(page, selectors)
  {
    FirstYieldIgnoresLaterSelectors(page, selectors, more, 0);
    var i := FirstYield(page, selectors, 0).value;
    assert (selectors + more)[i] == selectors[i];
  }

  /** extractTextBySelectors: tries the selectors in order and returns the first non-blank text. */
  method ExtractTextBySelectors(page: Page, selectors: seq<string>) returns (r: Result<string>)
    ensures r == FirstText(page, selectors)
  {
    var i := 0;
    while i < |selectors|
      invariant 0 <= i <= |selectors|
      invariant FirstYield(page, selectors, i) == FirstYield(page, selectors, 0)
    {
      var element := FindElement(page, Css(selectors[i]));
      if element.Ok? {
        var text := element.value.text;
        if text.Ok? && TrimSpace(text.value) != "" {
          return Ok(text.value);
        }
      }
      i := i + 1;
    }
    return Err("text not found with any selector");
  }

  // ---------------------------------------------------------------------------------------
  // extractBasicInfo
  // ---------------------------------------------------------------------------------------

  /** A field after one extraction: the trimmed text on success, the old value otherwise. */
  function Stored(current: string, found: Result<string>): string {
    if found.Ok? && found.value != "" then TrimSpace(found.value) else current
  }

  /**
   * A field keeps its value when extraction fails, and otherwise receives the trimmed text,
   * which is never blank and has no surrounding white space.
   */
  lemma StoredSpec(current: string, page: Page, selectors: seq<string>)
    ensures var found := FirstText(page, selectors);
            var s := Stored(current, found);
            && (found.Err? ==> s == current)
            && (found.Ok? ==> s == TrimSpace(found.value) && s != "" && !IsSpace(s[0]) && !IsSpace(s[|s| - 1]))
  {
    FirstTextSpec(page, selectors);
  }

  /** A field that starts out empty is filled exactly when some selector yields text. */
  lemma StoredFromEmpty(page: Page, selectors: seq<string>)
    ensures Stored("", FirstText(page, selectors)) != "" <==> FirstText(page, selectors).Ok?
  {
    StoredSpec("", page, selectors);
  }

  /** extractBasicInfo: name, headline, location and about, each from its selector list. */
  method ExtractBasicInfo(profile: Profile, page: Page, sel: Selectors) returns (err: Status)
    modifies profile`name, profile`headline, profile`location, profile`about
    ensures err == Pass
    ensures profile.name == Stored(old(profile.name), FirstText(page, sel.name))
    ensures profile.headline == Stored(old(profile.headline), FirstText(page, sel.headline))
    ensures profile.location == Stored(old(profile.location), FirstText(page, sel.location))
    ensures profile.about == Stored(old(profile.about), FirstText(page, sel.about))
  {
    var name := ExtractTextBySelectors(page, sel.name);
    profile.name := Stored(profile.name, name);
    var headline := ExtractTextBySelectors(page, sel.headline);
    profile.headline := Stored(profile.headline, headline);
    var location := ExtractTextBySelectors(page, sel.location);
    profile.location := Stored(profile.location, location);
    var about := ExtractTextBySelectors(page, sel.about);
    profile.about := Stored(profile.about, about);
    return Pass;
  }

  // ---------------------------------------------------------------------------------------
  // Section selection
  // ---------------------------------------------------------------------------------------

  /**
   * The elements of a section: those of the first primary CSS selector that finds any;
   * failing all of them, those of the XPath fallback; failing that, the section's error.
   */
  function SelectSection(page: Page, section: Section): Result<seq<Element>> {
    match FirstMatch(page, section.primaries, 0)
    case Some(i) => Ok(page.found[Css(section.primaries[i])])
    case None =>
      var elements := FindElements(page, section.fallback);
      if elements.Err? || |elements.value| == 0 then Err(section.missing) else Ok(elements.value)
  }

  /**
   * A section is found exactly when some primary selector or the fallback finds elements;
   * a found section is never empty, and a missing one reports the section's error.
   */
  lemma SelectSectionSpec(page: Page, section: Section)
    ensures var r := SelectSection(page, section);
            && (r.Ok? ==> |r.value| > 0)
            && (r.Ok? <==> Matches(page, section.fallback)
                           || exists i :: 0 <= i < |section.primaries| && Matches(page, Css(section.primaries[i])))
            && (r.Err? ==> r.msg == section.missing)
  {
    var m := FirstMatch(page, section.primaries, 0);
    if m.Some? {
      assert Matches(page, Css(section.primaries[m.value]));
    }
  }

  /** A primary that finds elements always beats the fallback, and the earliest one wins. */
  lemma SelectSectionPrefersFirstPrimary(page: Page, section: Section, i: nat)
    requires i < |section.primaries| && Matches(page, Css(section.primaries[i]))
    requires forall j :: 0 <= j < i ==> !Matches(page, Css(section.primaries[j]))
    ensures SelectSection(page, section) == Ok(page.found[Css(section.primaries[i])])
  {
  }

  /** The fallback is consulted only when every primary finds nothing. */
  lemma SelectSectionFallback(page: Page, section: Section)
    requires forall i :: 0 <= i < |section.primaries| ==> !Matches(page, Css(section.primaries[i]))
    ensures SelectSection(page, section)
            == if Matches(page, section.fallback) then Ok(page.found[section.fallback]) else Err(section.missing)
  {
  }

  /** The selection loop shared by the three section extractors. */
  method FindSection(page: Page, section: Section) returns (r: Result<seq<Element>>)
    ensures r == SelectSection(page, section)
  {
    var primaries, fallback := section.primaries, section.fallback;
    var sectionElements: seq<Element> := [];
    var i := 0;
    while i < |primaries|
      invariant 0 <= i <= |primaries|
      invariant FirstMatch(page, primaries, i) == FirstMatch(page, primaries, 0)
      invariant sectionElements == []
    {
      var elements := FindElements(page, Css(primaries[i]));
      if elements.Ok? && |elements.value| > 0 {
        sectionElements := elements.value;
        break;
      }
      i := i + 1;
    }
    if |sectionElements| == 0 {
      var elements := FindElements(page, fallback);
      if elements.Err? || |elements.value| == 0 {
        return Err(section.missing);
      }
      sectionElements := elements.value;
    }
    return Ok(sectionElements);
  }

  /** The first `n` elements, or all of them when there are fewer. */
  function Take<T>(s: seq<T>, n: nat): (r: seq<T>)
    ensures |r| <= n && |r| <= |s|
    ensures |s| <= n ==> r == s
  {
    if |s| <= n then s else s[..n]
  }

  /** Elements past the cap are never examined. */
  lemma TakeIgnoresTail<T>(s: seq<T>, more: seq<T>, n: nat)
    requires n <= |s|
    ensures Take(s + more, n) == Take(s, n)
  {
    assert (s + more)[..n] == s[..n];
  }

  // ---------------------------------------------------------------------------------------
  // Per-element extraction
  // ---------------------------------------------------------------------------------------

  /** A sub-field: the trimmed text of the descendant under `selector`, "" when there is none. */
  function Field(e: Element, selector: string): (s: string)
    ensures selector !in e.children ==> s == ""
  {
    if selector in e.children then TrimSpace(e.children[selector]) else ""
  }

  function ExperienceOf(e: Element, sel: Selectors): Experience {
    Experience(Field(e, sel.bold), Field(e, sel.normal), Field(e, sel.light), "", "")
  }

  function EducationOf(e: Element, sel: Selectors): Education {
    Education(Field(e, sel.bold), Field(e, sel.normal), Field(e, sel.light), "")
  }

  /** The experiences appended for `elements`, in document order. */
  function ExperienceEntries(elements: seq<Element>, sel: Selectors): (r: seq<Experience>)
    ensures |r| <= |elements|
    ensures forall k :: 0 <= k < |r| ==> r[k].title != "" || r[k].company != ""
    ensures forall k :: 0 <= k < |r| ==> r[k].location == "" && r[k].description == ""
  {
    if |elements| == 0 then []
    else
      var x := ExperienceOf(elements[|elements| - 1], sel);
      var rest := ExperienceEntries(elements[..|elements| - 1], sel);
      if x.title != "" || x.company != "" then rest + [x] else rest
  }

  /** The educations appended for `elements`, in document order. */
  function EducationEntries(elements: seq<Element>, sel: Selectors): (r: seq<Education>)
    ensures |r| <= |elements|
    ensures forall k :: 0 <= k < |r| ==> r[k].school != "" || r[k].degree != ""
    ensures forall k :: 0 <= k < |r| ==> r[k].description == ""
  {
    if |elements| == 0 then []
    else
      var x := EducationOf(elements[|elements| - 1], sel);
      var rest := EducationEntries(elements[..|elements| - 1], sel);
      if x.school != "" || x.degree != "" then rest + [x] else rest
  }

  /** Each element is judged on its own: the entries of a concatenation concatenate. */
  lemma {:induction false} ExperienceEntriesAppend(a: seq<Element>, b: seq<Element>, sel: Selectors)
    ensures ExperienceEntries(a + b, sel) == ExperienceEntries(a, sel) + ExperienceEntries(b, sel)
    decreases |b|
  {
    if |b| > 0 {
      var ab := a + b;
      assert ab[..|ab| - 1] == a + b[..|b| - 1];
      assert ab[|ab| - 1] == b[|b| - 1];
      ExperienceEntriesAppend(a, b[..|b| - 1], sel);
    } else {
      assert a + b == a;
    }
  }

  lemma {:induction false} EducationEntriesAppend(a: seq<Element>, b: seq<Element>, sel: Selectors)
    ensures EducationEntries(a + b, sel) == EducationEntries(a, sel) + EducationEntries(b, sel)
    decreases |b|
  {
    if |b| > 0 {
      var ab := a + b;
      assert ab[..|ab| - 1] == a + b[..|b| - 1];
      assert ab[|ab| - 1] == b[|b| - 1];
      EducationEntriesAppend(a, b[..|b| - 1], sel);
    } else {
      assert a + b == a;
    }
  }

  /** The texts handed to AddSkill: each element whose Text() succeeds with a non-empty string. */
  function SkillTexts(elements: seq<Element>): (r: seq<string>)
    ensures |r| <= |elements|
    ensures forall k :: 0 <= k < |r| ==> r[k] != ""
  {
    if |elements| == 0 then []
    else
      var e := elements[|elements| - 1];
      var rest := SkillTexts(elements[..|elements| - 1]);
      if e.text.Ok? && e.text.value != "" then rest + [e.text.value] else rest
  }

  /** The skill list after AddSkill of each text in turn. */
  function AddSkills(skills: seq<string>, texts: seq<string>): (r: seq<string>)
    ensures |skills| <= |r| <= |skills| + |texts|
    ensures r[..|skills|] == skills
  {
    if |texts| == 0 then skills
    else WithSkill(AddSkills(skills, texts[..|texts| - 1]), texts[|texts| - 1])
  }

  /** Adding skills with no surrounding white space keeps the list free of case-insensitive repeats. */
  lemma {:induction false} AddSkillsKeepsFoldDistinct(skills: seq<string>, texts: seq<string>)
    requires FoldDistinct(skills)
    requires forall k :: 0 <= k < |texts| ==> TrimSpace(texts[k]) == texts[k]
    ensures FoldDistinct(AddSkills(skills, texts))
    decreases |texts|
  {
    if |texts| > 0 {
      AddSkillsKeepsFoldDistinct(skills, texts[..|texts| - 1]);
      WithSkillKeepsFoldDistinct(AddSkills(skills, texts[..|texts| - 1]), texts[|texts| - 1]);
    }
  }

  /**
   * The hypothesis above is needed: element texts reach AddSkill untrimmed, and scraping
   * "Go" then " go" stores both spellings.
   */
  lemma PaddedScrapedRepeat()
    ensures AddSkills([], ["Go", " go"]) == ["Go", "go"]
    ensures !FoldDistinct(AddSkills([], ["Go", " go"]))
  {
    assert ["Go", " go"][..1] == ["Go"];
    assert ["Go"][..0] == [];
    TrimSpaceOfTrimmed("Go");
    PaddedRepeatIsStored();
    assert EqualFold("Go", "go");
  }

  // ---------------------------------------------------------------------------------------
  // Section extractors
  // ---------------------------------------------------------------------------------------

  /** What extractExperience appends: the kept entries among the first 5 section elements. */
  function ScrapedExperience(page: Page, sel: Selectors): (r: seq<Experience>)
    ensures |r| <= ExperienceCap
  {
    match SelectSection(page, sel.experience)
    case Ok(elements) => ExperienceEntries(Take(elements, ExperienceCap), sel)
    case Err(_) => []
  }

  function ScrapedEducation(page: Page, sel: Selectors): (r: seq<Education>)
    ensures |r| <= EducationCap
  {
    match SelectSection(page, sel.education)
    case Ok(elements) => EducationEntries(Take(elements, EducationCap), sel)
    case Err(_) => []
  }

  /** The texts extractSkills hands to AddSkill: at most 10. */
  function ScrapedSkillTexts(page: Page, sel: Selectors): (r: seq<string>)
    ensures |r| <= SkillsCap
  {
    match SelectSection(page, sel.skills)
    case Ok(elements) => SkillTexts(Take(elements, SkillsCap))
    case Err(_) => []
  }

  /** extractExperience: appends the kept entries among the first 5 elements of the section. */
  method ExtractExperience(profile: Profile, page: Page, sel: Selectors) returns (err: Status)
    modifies profile`experience
    ensures SelectSection(page, sel.experience).Err? ==> err == Fail(sel.experience.missing)
    ensures SelectSection(page, sel.experience).Ok? ==> err == Pass
    ensures profile.experience == old(profile.experience) + ScrapedExperience(page, sel)
  {
    var section := FindSection(page, sel.experience);
    if section.Err? {
      return Fail(section.msg);
    }
    AppendExperience(profile, section.value, sel);
    return Pass;
  }

  /** The capped append loop of extractExperience, once the section's elements are known. */
  method AppendExperience(profile: Profile, elements: seq<Element>, sel: Selectors)
    modifies profile`experience
    ensures profile.experience == old(profile.experience) + ExperienceEntries(Take(elements, ExperienceCap), sel)
  {
    ghost var base := profile.experience;
    var n := if |elements| < ExperienceCap then |elements| else ExperienceCap;
    for i := 0 to n
      invariant profile.experience == base + ExperienceEntries(elements[..i], sel)
    {
      var experience := ExperienceOf(elements[i], sel);
      ghost var kept := ExperienceEntries(elements[..i], sel);
      ghost var next := ExperienceEntries(elements[..i + 1], sel);
      assert elements[..i + 1][..i] == elements[..i];
      assert elements[..i + 1][i] == elements[i];
      if experience.title != "" || experience.company != "" {
        assert next == kept + [experience];
        profile.AddExperience(experience);
      } else {
        assert next == kept;
      }
      assert profile.experience == base + next;
    }
    assert elements[..n] == Take(elements, ExperienceCap);
  }

  /** extractEducation: appends the kept entries among the first 3 elements of the section. */
  method ExtractEducation(profile: Profile, page: Page, sel: Selectors) returns (err: Status)
    modifies profile`education
    ensures SelectSection(page, sel.education).Err? ==> err == Fail(sel.education.missing)
    ensures SelectSection(page, sel.education).Ok? ==> err == Pass
    ensures profile.education == old(profile.education) + ScrapedEducation(page, sel)
  {
    var section := FindSection(page, sel.education);
    if section.Err? {
      return Fail(section.msg);
    }
    AppendEducation(profile, section.value, sel);
    return Pass;
  }

  /** The capped append loop of extractEducation, once the section's elements are known. */
  method AppendEducation(profile: Profile, elements: seq<Element>, sel: Selectors)
    modifies profile`education
    ensures profile.education == old(profile.education) + EducationEntries(Take(elements, EducationCap), sel)
  {
    ghost var base := profile.education;
    var n := if |elements| < EducationCap then |elements| else EducationCap;
    for i := 0 to n
      invariant profile.education == base + EducationEntries(elements[..i], sel)
    {
      var education := EducationOf(elements[i], sel);
      ghost var kept := EducationEntries(elements[..i], sel);
      ghost var next := EducationEntries(elements[..i + 1], sel);
      assert elements[..i + 1][..i] == elements[..i];
      assert elements[..i + 1][i] == elements[i];
      if education.school != "" || education.degree != "" {
        assert next == kept + [education];
        profile.AddEducation(education);
      } else {
        assert next == kept;
      }
      assert profile.education == base + next;
    }
    assert elements[..n] == Take(elements, EducationCap);
  }

  /** extractSkills: hands the non-empty texts among the first 10 elements to AddSkill. */
  method ExtractSkills(profile: Profile, page: Page, sel: Selectors) returns (err: Status)
    modifies profile`skills
    ensures SelectSection(page, sel.skills).Err? ==> err == Fail(sel.skills.missing)
    ensures SelectSection(page, sel.skills).Ok? ==> err == Pass
    ensures profile.skills == AddSkills(old(profile.skills), ScrapedSkillTexts(page, sel))
  {
    var section := FindSection(page, sel.skills);
    if section.Err? {
      return Fail(section.msg);
    }
    AppendSkills(profile, section.value);
    return Pass;
  }

  /** The capped loop of extractSkills, once the section's elements are known. */
  method AppendSkills(profile: Profile, elements: seq<Element>)
    modifies profile`skills
    ensures profile.skills == AddSkills(old(profile.skills), SkillTexts(Take(elements, SkillsCap)))
  {
    ghost var base := profile.skills;
    var n := if |elements| < SkillsCap then |elements| else SkillsCap;
    for i := 0 to n
      invariant profile.skills == AddSkills(base, SkillTexts(elements[..i]))
    {
      var skill := elements[i].text;
      ghost var texts := SkillTexts(elements[..i]);
      ghost var next := SkillTexts(elements[..i + 1]);
      assert elements[..i + 1][..i] == elements[..i];
      assert elements[..i + 1][i] == elements[i];
      if skill.Ok? && skill.value != "" {
        assert next == texts + [skill.value];
        assert next[..|texts|] == texts;
        profile.AddSkill(skill.value);
      } else {
        assert next == texts;
      }
      assert profile.skills == AddSkills(base, next);
    }
    assert elements[..n] == Take(elements, SkillsCap);
  }

  // ---------------------------------------------------------------------------------------
  // ScrapeProfile
  // ---------------------------------------------------------------------------------------

  /**
   * The three section extractors in the order ScrapeProfile runs them; their errors are only
   * logged, so none of them stops the others.
   */
  method ExtractSections(profile: Profile, page: Page, sel: Selectors)
    modifies profile`experience, profile`education, profile`skills
    ensures profile.experience == old(profile.experience) + ScrapedExperience(page, sel)
    ensures profile.education == old(profile.education) + ScrapedEducation(page, sel)
    ensures profile.skills == AddSkills(old(profile.skills), ScrapedSkillTexts(page, sel))
  {
    var err := ExtractExperience(profile, page, sel);
    err := ExtractEducation(profile, page, sel);
    err := ExtractSkills(profile, page, sel);
  }

  /**
   * What a newly created profile holds after extractBasicInfo and the three section
   * extractors have run against `page`.
   */
  ghost predicate HoldsScrape(p: Profile, page: Page, sel: Selectors)
    reads p
  {
    && p.name == Stored("", FirstText(page, sel.name))
    && p.headline == Stored("", FirstText(page, sel.headline))
    && p.location == Stored("", FirstText(page, sel.location))
    && p.about == Stored("", FirstText(page, sel.about))
    && p.experience == ScrapedExperience(page, sel)
    && p.education == ScrapedEducation(page, sel)
    && p.skills == AddSkills([], ScrapedSkillTexts(page, sel))
  }

  /**
   * Every extractor of ScrapeProfile, in order, run on a newly created profile. Their errors
   * are only logged, so none of them stops the others.
   */
  method ExtractAll(profile: Profile, page: Page, sel: Selectors)
    requires profile.name == "" && profile.headline == "" && profile.location == "" && profile.about == ""
    requires profile.experience == [] && profile.education == [] && profile.skills == []
    modifies profile`name, profile`headline, profile`location, profile`about
    modifies profile`experience, profile`education, profile`skills
    ensures HoldsScrape(profile, page, sel)
    ensures profile.name != "" <==> FirstText(page, sel.name).Ok?
  {
    var err := ExtractBasicInfo(profile, page, sel);
    StoredFromEmpty(page, sel.name);
    ExtractSections(profile, page, sel);
  }

  /**
   * The part of ScrapeProfile after navigation: a new profile for `url`, the scrolling step
   * (only logged) and every extractor.
   */
  method ScrapeLoadedPage(sel: Selectors, url: string, page: Page, now: int,
                          heightProbe: Result<ScriptValue>, jitter: nat -> int,
                          scrollBy: nat -> Status, scrollTop: Status)
    returns (profile: Profile)
    requires forall k :: 0 <= jitter(k) < 200
    ensures fresh(profile)
    ensures profile.profileURL == url && profile.scrapedAt == now && HoldsScrape(profile, page, sel)
    ensures profile.Validate() <==> url != "" && FirstText(page, sel.name).Ok?
  {
    profile := new Profile(now);
    profile.profileURL := url;
    var scrollErr, _, _ := HumanLikeScrolling(heightProbe, jitter, scrollBy, scrollTop);
    ExtractAll(profile, page, sel);
  }

  /**
   * ScrapeProfile. `navigation` is the outcome of driver.Get, `page` what the profile page
   * answers afterwards, `now` the creation time, and the remaining parameters feed the
   * scrolling step. Sleeps and logging are dropped.
   */
  method ScrapeProfile(url: string, navigation: Status, page: Page, now: int,
                       heightProbe: Result<ScriptValue>, jitter: nat -> int,
                       scrollBy: nat -> Status, scrollTop: Status)
    returns (result: Result<Profile>)
    requires forall k :: 0 <= jitter(k) < 200
    ensures navigation.Fail? ==> result == Err("failed to navigate to profile: " + navigation.msg)
    ensures navigation.Pass? ==> (result.Ok? <==> url != "" && FirstText(page, LinkedIn.name).Ok?)
    ensures navigation.Pass? && result.Err?
            ==> result.msg == "profile validation failed - insufficient data extracted"
    ensures result.Ok? ==> fresh(result.value) && result.value.profileURL == url
    ensures result.Ok? ==> result.value.scrapedAt == now && HoldsScrape(result.value, page, LinkedIn)
  {
    if navigation.Fail? {
      return Err("failed to navigate to profile: " + navigation.msg);
    }
    var profile := ScrapeLoadedPage(LinkedIn, url, page, now, heightProbe, jitter, scrollBy, scrollTop);
    if !profile.Validate() {
      return Err("profile validation failed - insufficient data extracted");
    }
    return Ok(profile);
  }
}
