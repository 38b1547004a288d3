/**
 * The scraped profile record (models/profile.go): a record whose lists only grow, a skill
 * list with case-insensitive set semantics, the string renderings used by the CSV export,
 * and the two-field validity check.
 */
module Models {
  import opened Text

  datatype Experience = Experience(
    title: string, company: string, duration: string, location: string, description: string)

  datatype Education = Education(school: string, degree: string, duration: string, description: string)

  // ---------------------------------------------------------------------------------------
  // Skills
  // ---------------------------------------------------------------------------------------

  /** hasSkill: some stored skill equals `skill` up to case. */
  function HasSkill(skills: seq<string>, skill: string): (b: bool)
    ensures b <==> exists i :: 0 <= i < |skills| && EqualFold(skills[i], skill)
  {
    if |skills| == 0 then false
    else EqualFold(skills[0], skill) || HasSkill(skills[1..], skill)
  }

  /** The skill list after AddSkill(skill): the duplicate test sees the untrimmed input. */
  function WithSkill(skills: seq<string>, skill: string): seq<string> {
    if skill != "" && !HasSkill(skills, skill) then skills + [TrimSpace(skill)] else skills
  }

  /** No two stored skills are equal up to case. */
  ghost predicate FoldDistinct(skills: seq<string>) {
    forall i, j :: 0 <= i < j < |skills| ==> !EqualFold(skills[i], skills[j])
  }

  /** Adding is a no-op exactly for "" and for a case-insensitive repeat. */
  lemma WithSkillNoOp(skills: seq<string>, skill: string)
    ensures WithSkill(skills, skill) == skills
            <==> skill == "" || exists i :: 0 <= i < |skills| && EqualFold(skills[i], skill)
  {
  }

  /**
   * A skill with no surrounding white space keeps the list free of case-insensitive repeats.
   * The hypothesis is needed: the repeat test compares the untrimmed input.
   */
  lemma WithSkillKeepsFoldDistinct(skills: seq<string>, skill: string)
    requires FoldDistinct(skills)
    requires TrimSpace(skill) == skill
    ensures FoldDistinct(WithSkill(skills, skill))
  {
    var r := WithSkill(skills, skill);
    if r != skills {
      forall i, j | 0 <= i < j < |r| ensures !EqualFold(r[i], r[j]) {
        if j == |skills| {
          assert r[j] == skill && r[i] == skills[i];
        }
      }
    }
  }

  /** Adding "Go" and then "go" keeps the single first-seen spelling "Go". */
  lemma AddGoThenGo()
    ensures WithSkill(WithSkill([], "Go"), "go") == ["Go"]
  {
    TrimSpaceOfTrimmed("Go");
    assert EqualFold("Go", "go");
  }

  /** A padded repeat is not recognised: " go" after "Go" is stored as a second skill "go". */
  lemma PaddedRepeatIsStored()
    ensures WithSkill(["Go"], " go") == ["Go", "go"]
  {
    PaddedGoTrims();
    assert !HasSkill(["Go"], " go") by {
      assert |"Go"| != |" go"|;
    }
  }

  lemma PaddedGoTrims()
    ensures TrimSpace(" go") == "go"
  {
    assert " go"[1..] == "go";
    TrimSpaceOfTrimmed("go");
  }

  /** A white-space-only skill that is not a repeat is stored as "". */
  lemma BlankSkillStoredEmpty(skills: seq<string>, skill: string)
    requires skill != "" && IsBlank(skill)
    requires forall i :: 0 <= i < |skills| ==> !EqualFold(skills[i], skill)
    ensures WithSkill(skills, skill) == skills + [""]
  {
    TrimSpaceEmptyIffBlank(skill);
  }

  // ---------------------------------------------------------------------------------------
  // Renderings used by the flat CSV export
  // ---------------------------------------------------------------------------------------

  /** One experience as "Title at Company", followed by " (Duration)" when there is one. */
  function ExperiencePart(e: Experience): (part: string)
    ensures HasPrefix(part, e.title + " at " + e.company)
    ensures e.duration == "" <==> part == e.title + " at " + e.company
  {
    e.title + " at " + e.company + (if e.duration != "" then " (" + e.duration + ")" else "")
  }

  /** One education as "Degree from School", followed by " (Duration)" when there is one. */
  function EducationPart(e: Education): (part: string)
    ensures HasPrefix(part, e.degree + " from " + e.school)
    ensures e.duration == "" <==> part == e.degree + " from " + e.school
  {
    e.degree + " from " + e.school + (if e.duration != "" then " (" + e.duration + ")" else "")
  }

  function ExperienceParts(es: seq<Experience>): (parts: seq<string>)
    ensures |parts| == |es|
  {
    seq(|es|, i requires 0 <= i < |es| => ExperiencePart(es[i]))
  }

  function EducationParts(es: seq<Education>): (parts: seq<string>)
    ensures |parts| == |es|
  {
    seq(|es|, i requires 0 <= i < |es| => EducationPart(es[i]))
  }

  /** No field of any entry contains `c`, so `c` in a rendering can only be a separator. */
  predicate ExperienceFree(es: seq<Experience>, c: char) {
    forall i :: 0 <= i < |es| ==> c !in ExperiencePart(es[i])
  }

  predicate EducationFree(es: seq<Education>, c: char) {
    forall i :: 0 <= i < |es| ==> c !in EducationPart(es[i])
  }

  /** Appending an entry to a non-empty list appends "; " and its part to the rendering. */
  lemma ExperienceRenderingSnoc(es: seq<Experience>, e: Experience)
    requires |es| > 0
    ensures Join(ExperienceParts(es + [e]), "; ") == Join(ExperienceParts(es), "; ") + "; " + ExperiencePart(e)
  {
    assert ExperienceParts(es + [e]) == ExperienceParts(es) + [ExperiencePart(e)];
    JoinSnoc(ExperienceParts(es), ExperiencePart(e), "; ");
  }

  lemma EducationRenderingSnoc(es: seq<Education>, e: Education)
    requires |es| > 0
    ensures Join(EducationParts(es + [e]), "; ") == Join(EducationParts(es), "; ") + "; " + EducationPart(e)
  {
    assert EducationParts(es + [e]) == EducationParts(es) + [EducationPart(e)];
    JoinSnoc(EducationParts(es), EducationPart(e), "; ");
  }

  // ---------------------------------------------------------------------------------------
  // The record
  // ---------------------------------------------------------------------------------------

  class Profile {
    var name: string
    var headline: string
    var location: string
    var about: string
    var experience: seq<Experience>
    var education: seq<Education>
    var skills: seq<string>
    var scrapedAt: int  // time.Now() at creation, injected
    var profileURL: string

    /** NewProfile: every text field "", every list empty, the capture time set once. */
    constructor (now: int)
      ensures name == "" && headline == "" && location == "" && about == "" && profileURL == ""
      ensures experience == [] && education == [] && skills == []
      ensures scrapedAt == now
    {
      name, headline, location, about, profileURL := "", "", "", "", "";
      experience, education, skills := [], [], [];
      scrapedAt := now;
    }

    /** Appends one entry at the end; existing entries and every other field are untouched. */
    method AddExperience(exp: Experience)
      modifies this`experience
      ensures experience == old(experience) + [exp]
    {
      experience := experience + [exp];
    }

    method AddEducation(edu: Education)
      modifies this`education
      ensures education == old(education) + [edu]
    {
      education := education + [edu];
    }

    /** Appends the trimmed skill unless it is "" or already present up to case. */
    method AddSkill(skill: string)
      modifies this`skills
      ensures skills == WithSkill(old(skills), skill)
      ensures skills == old(skills) || skills == old(skills) + [TrimSpace(skill)]
    {
      if skill != "" && !HasSkill(skills, skill) {
        skills := skills + [TrimSpace(skill)];
      }
    }

    /** "" for no entries; otherwise one part per entry, in order, joined by "; ". */
    function ExperienceAsString(): (r: string)
      reads this
      ensures r == Join(ExperienceParts(experience), "; ")
      ensures experience == [] ==> r == ""
      ensures |experience| == 1 ==> r == ExperiencePart(experience[0])
      ensures |experience| > 0 && ExperienceFree(experience, ';')
              ==> multiset(r)[';'] == |experience| - 1
    {
      if |experience| == 0 then ""
      else
        var parts := ExperienceParts(experience);
        if ExperienceFree(experience, ';') then
          JoinCountGaps(parts, "; ", ';');
          Join(parts, "; ")
        else
          Join(parts, "; ")
    }

    function EducationAsString(): (r: string)
      reads this
      ensures r == Join(EducationParts(education), "; ")
      ensures education == [] ==> r == ""
      ensures |education| == 1 ==> r == EducationPart(education[0])
      ensures |education| > 0 && EducationFree(education, ';')
              ==> multiset(r)[';'] == |education| - 1
    {
      if |education| == 0 then ""
      else
        var parts := EducationParts(education);
        if EducationFree(education, ';') then
          JoinCountGaps(parts, "; ", ';');
          Join(parts, "; ")
        else
          Join(parts, "; ")
    }

    /** The skills joined by ", "; "" for no skills. */
    function SkillsAsString(): (r: string)
      reads this
      ensures r == Join(skills, ", ")
      ensures skills == [] ==> r == ""
      ensures |skills| == 1 ==> r == skills[0]
      ensures |skills| > 0 && (forall i :: 0 <= i < |skills| ==> ',' !in skills[i])
              ==> multiset(r)[','] == |skills| - 1
    {
      if |skills| > 0 && forall i :: 0 <= i < |skills| ==> ',' !in skills[i] then
        JoinCountGaps(skills, ", ", ',');
        Join(skills, ", ")
      else
        Join(skills, ", ")
    }

    /** A profile is valid when it has a name and a URL (neither trimmed). */
    predicate Validate()
      reads this
    {
      name != "" && profileURL != ""
    }
  }

  /** After AddExperience the rendering grows by "; " and the new part (or is that part alone). */
  twostate lemma AddExperienceRendering(p: Profile, exp: Experience)
    requires p.experience == old(p.experience) + [exp]
    ensures old(p.experience) == [] ==> p.ExperienceAsString() == ExperiencePart(exp)
    ensures old(p.experience) != [] ==>
              p.ExperienceAsString() == old(p.ExperienceAsString()) + "; " + ExperiencePart(exp)
  {
    if old(p.experience) != [] {
      ExperienceRenderingSnoc(old(p.experience), exp);
    }
  }

  twostate lemma AddEducationRendering(p: Profile, edu: Education)
    requires p.education == old(p.education) + [edu]
    ensures old(p.education) == [] ==> p.EducationAsString() == EducationPart(edu)
    ensures old(p.education) != [] ==>
              p.EducationAsString() == old(p.EducationAsString()) + "; " + EducationPart(edu)
  {
    if old(p.education) != [] {
      EducationRenderingSnoc(old(p.education), edu);
    }
  }

  /** A stored skill extends the rendering by ", " and the trimmed skill; a skipped one leaves it. */
  twostate lemma AddSkillRendering(p: Profile, skill: string)
    requires p.skills == WithSkill(old(p.skills), skill)
    ensures p.skills == old(p.skills) ==> p.SkillsAsString() == old(p.SkillsAsString())
    ensures old(p.skills) != [] && p.skills != old(p.skills) ==>
              p.SkillsAsString() == old(p.SkillsAsString()) + ", " + TrimSpace(skill)
  {
    if old(p.skills) != [] && p.skills != old(p.skills) {
      JoinSnoc(old(p.skills), TrimSpace(skill), ", ");
    }
  }

  /** Validity depends on the name and URL only, never on the lists. */
  lemma ValidateIgnoresLists(p: Profile, q: Profile)
    requires p.name == q.name && p.profileURL == q.profileURL
    ensures p.Validate() == q.Validate()
    ensures p.Validate() <==> p.name != "" && p.profileURL != ""
  {
  }
}
