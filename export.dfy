/**
 * The records the CSV export hands to its writer (export/csv.go): the flat layout with one
 * 9-field record per profile, the detailed layout with one 14-field row per experience or
 * education index, and the totals of the summary report. Timestamps are rendered by an
 * injected `stamp` function standing for ScrapedAt.Format("2006-01-02 15:04:05").
 */
module Export {
  import opened Models

  // ---------------------------------------------------------------------------------------
  // Flat layout (ToCSV)
  // ---------------------------------------------------------------------------------------

  const FlatHeader: seq<string> := [
    "Name", "Headline", "Location", "About", "Experience", "Education", "Skills",
    "Profile URL", "Scraped At"]

  /** One profile as one record, in header order. */
  function FlatRecord(p: Profile, stamp: int -> string): seq<string>
    reads p
  {
    [p.name, p.headline, p.location, p.about, p.ExperienceAsString(), p.EducationAsString(),
     p.SkillsAsString(), p.profileURL, stamp(p.scrapedAt)]
  }

  /** ToCSV: the header, then one record per profile in input order, each as wide as the header. */
  method ToCSV(profiles: seq<Profile>, stamp: int -> string) returns (records: seq<seq<string>>)
    ensures |records| == |profiles| + 1 && records[0] == FlatHeader
    ensures forall i :: 0 <= i < |profiles| ==> records[i + 1] == FlatRecord(profiles[i], stamp)
    ensures forall i :: 0 <= i < |records| ==> |records[i]| == |FlatHeader|
  {
    var body: seq<seq<string>> := [];
    for k := 0 to |profiles|
      invariant |body| == k
      invariant forall i :: 0 <= i < k ==> body[i] == FlatRecord(profiles[i], stamp)
    {
      var profile := profiles[k];
      var record := [profile.name, profile.headline, profile.location, profile.about,
                     profile.ExperienceAsString(), profile.EducationAsString(),
                     profile.SkillsAsString(), profile.profileURL, stamp(profile.scrapedAt)];
      body := body + [record];
    }
    records := [FlatHeader] + body;
  }

  // ---------------------------------------------------------------------------------------
  // Detailed layout (ToCSVDetailed)
  // ---------------------------------------------------------------------------------------

  const DetailedHeader: seq<string> := [
    "Name", "Headline", "Location", "About",
    "Experience Title", "Experience Company", "Experience Duration", "Experience Location",
    "Education School", "Education Degree", "Education Duration",
    "Skills", "Profile URL", "Scraped At"]

  /** max: the larger argument. */
  function Max(a: int, b: int): (m: int)
    ensures m >= a && m >= b
    ensures m == a || m == b
  {
    if a > b then a else b
  }

  /** Rows written for one profile: one per index of the longer list, at least one. */
  function RowCount(p: Profile): (n: nat)
    reads p
  {
    var m := Max(|p.experience|, |p.education|);
    if m == 0 then 1 else m
  }

  /** The four experience cells of row `i`, empty past the end of the list. */
  function ExperienceCells(p: Profile, i: nat): seq<string>
    reads p
  {
    if i < |p.experience| then
      var e := p.experience[i];
      [e.title, e.company, e.duration, e.location]
    else ["", "", "", ""]
  }

  /** The three education cells of row `i`, empty past the end of the list. */
  function EducationCells(p: Profile, i: nat): seq<string>
    reads p
  {
    if i < |p.education| then
      var e := p.education[i];
      [e.school, e.degree, e.duration]
    else ["", "", ""]
  }

  /** Skills, URL and timestamp on the first row only. */
  function MetaCells(p: Profile, i: nat, stamp: int -> string): seq<string>
    reads p
  {
    if i == 0 then [p.SkillsAsString(), p.profileURL, stamp(p.scrapedAt)] else ["", "", ""]
  }

  /** Row `i` of a profile: the basic fields repeat on every row. */
  function DetailedRow(p: Profile, i: nat, stamp: int -> string): (row: seq<string>)
    reads p
    ensures |row| == |DetailedHeader|
  {
    [p.name, p.headline, p.location, p.about] + ExperienceCells(p, i) + EducationCells(p, i)
    + MetaCells(p, i, stamp)
  }

  /** Rows 0 to n - 1 of a profile. */
  function DetailedRows(p: Profile, n: nat, stamp: int -> string): (rows: seq<seq<string>>)
    reads p
    ensures |rows| == n
    ensures forall i :: 0 <= i < n ==> rows[i] == DetailedRow(p, i, stamp)
  {
    if n == 0 then [] else DetailedRows(p, n - 1, stamp) + [DetailedRow(p, n - 1, stamp)]
  }

  /** All rows below the header, profile after profile. */
  function DetailedBody(profiles: seq<Profile>, stamp: int -> string): seq<seq<string>>
    reads profiles
  {
    if |profiles| == 0 then []
    else
      var last := profiles[|profiles| - 1];
      DetailedBody(profiles[..|profiles| - 1], stamp) + DetailedRows(last, RowCount(last), stamp)
  }

  lemma DetailedBodySnoc(profiles: seq<Profile>, k: nat, stamp: int -> string)
    requires k < |profiles|
    ensures DetailedBody(profiles[..k + 1], stamp)
            == DetailedBody(profiles[..k], stamp) + DetailedRows(profiles[k], RowCount(profiles[k]), stamp)
  {
    assert profiles[..k + 1][..k] == profiles[..k];
  }

  /** The record of row `i`, grown by appends as the export builds it. */
  method BuildRow(p: Profile, i: nat, stamp: int -> string) returns (record: seq<string>)
    ensures record == DetailedRow(p, i, stamp)
  {
    record := [p.name, p.headline, p.location, p.about];
    if i < |p.experience| {
      var exp := p.experience[i];
      record := record + [exp.title, exp.company, exp.duration, exp.location];
    } else {
      record := record + ["", "", "", ""];
    }
    if i < |p.education| {
      var edu := p.education[i];
      record := record + [edu.school, edu.degree, edu.duration];
    } else {
      record := record + ["", "", ""];
    }
    if i == 0 {
      record := record + [p.SkillsAsString(), p.profileURL, stamp(p.scrapedAt)];
    } else {
      record := record + ["", "", ""];
    }
  }

  /** The rows of one profile: the inner loop over row indices. */
  method ProfileRows(p: Profile, stamp: int -> string) returns (out: seq<seq<string>>)
    ensures out == DetailedRows(p, RowCount(p), stamp)
  {
    var maxRows := Max(|p.experience|, |p.education|);
    if maxRows == 0 {
      maxRows := 1;
    }
    out := [];
    for i := 0 to maxRows
      invariant out == DetailedRows(p, i, stamp)
    {
      var record := BuildRow(p, i, stamp);
      out := out + [record];
    }
  }

  /** ToCSVDetailed: the 14-column header, then every profile's rows in input order. */
  method ToCSVDetailed(profiles: seq<Profile>, stamp: int -> string) returns (records: seq<seq<string>>)
    ensures records == [DetailedHeader] + DetailedBody(profiles, stamp)
  {
    var body: seq<seq<string>> := [];
    for k := 0 to |profiles|
      invariant body == DetailedBody(profiles[..k], stamp)
    {
      DetailedBodySnoc(profiles, k, stamp);
      ghost var next := DetailedBody(profiles[..k + 1], stamp);
      assert next == body + DetailedRows(profiles[k], RowCount(profiles[k]), stamp);
      var rows := ProfileRows(profiles[k], stamp);
      body := body + rows;
      assert DetailedBody(profiles[..k + 1], stamp) == next;
    }
    assert profiles[..|profiles|] == profiles;
    records := [DetailedHeader] + body;
  }

  /**
   * The row count is the smallest one that gives every experience and education entry a
   * row of its own: at least one, at least each list's length, and equal to one of them.
   */
  lemma RowCountCoversLists(p: Profile)
    ensures RowCount(p) >= 1 && RowCount(p) >= |p.experience| && RowCount(p) >= |p.education|
    ensures RowCount(p) == 1 || RowCount(p) == |p.experience| || RowCount(p) == |p.education|
  {
  }

  /**
   * Row `i` of a profile: entry `i` of each list under its header columns or blanks past
   * the list's end; skills, URL and timestamp on row 0 only; the basic fields every time.
   */
  lemma DetailedRowLayout(p: Profile, i: nat, stamp: int -> string)
    ensures DetailedRow(p, i, stamp)[..4] == [p.name, p.headline, p.location, p.about]
    ensures DetailedHeader[4] == "Experience Title" && DetailedHeader[8] == "Education School"
    ensures i < |p.experience|
            ==> (DetailedRow(p, i, stamp)[4..8]
                 == [p.experience[i].title, p.experience[i].company, p.experience[i].duration,
                     p.experience[i].location])
    ensures i >= |p.experience| ==> DetailedRow(p, i, stamp)[4..8] == ["", "", "", ""]
    ensures i < |p.education|
            ==> (DetailedRow(p, i, stamp)[8..11]
                 == [p.education[i].school, p.education[i].degree, p.education[i].duration])
    ensures i >= |p.education| ==> DetailedRow(p, i, stamp)[8..11] == ["", "", ""]
    ensures i == 0
            ==> DetailedRow(p, i, stamp)[11..] == [p.SkillsAsString(), p.profileURL, stamp(p.scrapedAt)]
    ensures i > 0 ==> DetailedRow(p, i, stamp)[11..] == ["", "", ""]
  {
    var row := DetailedRow(p, i, stamp);
    var basic := [p.name, p.headline, p.location, p.about];
    assert row == basic + ExperienceCells(p, i) + EducationCells(p, i) + MetaCells(p, i, stamp);
    assert row[4..8] == ExperienceCells(p, i);
    assert row[8..11] == EducationCells(p, i);
    assert row[11..] == MetaCells(p, i, stamp);
  }

  /** No entry is lost: every experience and education entry has its own row. */
  lemma DetailedRowsKeepEveryEntry(p: Profile, stamp: int -> string)
    ensures forall j :: 0 <= j < |p.experience|
              ==> DetailedRows(p, RowCount(p), stamp)[j][4..8]
                  == [p.experience[j].title, p.experience[j].company, p.experience[j].duration,
                      p.experience[j].location]
    ensures forall j :: 0 <= j < |p.education|
              ==> DetailedRows(p, RowCount(p), stamp)[j][8..11]
                  == [p.education[j].school, p.education[j].degree, p.education[j].duration]
  {
    RowCountCoversLists(p);
    forall j | 0 <= j < RowCount(p)
      ensures DetailedRows(p, RowCount(p), stamp)[j] == DetailedRow(p, j, stamp)
    {
    }
    forall j: nat | j < RowCount(p) {
      DetailedRowLayout(p, j, stamp);
    }
  }

  // ---------------------------------------------------------------------------------------
  // Summary totals (ExportSummary)
  // ---------------------------------------------------------------------------------------

  function TotalExperience(profiles: seq<Profile>): nat
    reads profiles
  {
    if |profiles| == 0 then 0
    else TotalExperience(profiles[..|profiles| - 1]) + |profiles[|profiles| - 1].experience|
  }

  function TotalEducation(profiles: seq<Profile>): nat
    reads profiles
  {
    if |profiles| == 0 then 0
    else TotalEducation(profiles[..|profiles| - 1]) + |profiles[|profiles| - 1].education|
  }

  function TotalSkills(profiles: seq<Profile>): nat
    reads profiles
  {
    if |profiles| == 0 then 0
    else TotalSkills(profiles[..|profiles| - 1]) + |profiles[|profiles| - 1].skills|
  }

  /**
   * The counting part of ExportSummary. The report's closing line reads profiles[0], so an
   * empty input makes Go panic: that is the precondition.
   */
  method ExportSummaryTotals(profiles: seq<Profile>, stamp: int -> string)
    returns (totalProfiles: nat, totalExperiences: nat, totalEducation: nat, totalSkills: nat,
             generatedAt: string)
    requires |profiles| > 0
    ensures totalProfiles == |profiles|
    ensures totalExperiences == TotalExperience(profiles)
    ensures totalEducation == TotalEducation(profiles)
    ensures totalSkills == TotalSkills(profiles)
    ensures generatedAt == stamp(profiles[0].scrapedAt)
  {
    totalProfiles := |profiles|;
    totalExperiences, totalEducation, totalSkills := 0, 0, 0;
    for k := 0 to |profiles|
      invariant totalExperiences == TotalExperience(profiles[..k])
      invariant totalEducation == TotalEducation(profiles[..k])
      invariant totalSkills == TotalSkills(profiles[..k])
    {
      assert profiles[..k + 1][..k] == profiles[..k];
      totalExperiences := totalExperiences + |profiles[k].experience|;
      totalEducation := totalEducation + |profiles[k].education|;
      totalSkills := totalSkills + |profiles[k].skills|;
    }
    assert profiles[..|profiles|] == profiles;
    generatedAt := stamp(profiles[0].scrapedAt);
  }

  /**
   * The detailed export has at least one row per profile and at least as many rows as the
   * summary counts experience entries, and as it counts education entries.
   */
  lemma {:induction false} DetailedBodyCoversTotals(profiles: seq<Profile>, stamp: int -> string)
    ensures |DetailedBody(profiles, stamp)| >= |profiles|
    ensures |DetailedBody(profiles, stamp)| >= TotalExperience(profiles)
    ensures |DetailedBody(profiles, stamp)| >= TotalEducation(profiles)
  {
    if |profiles| > 0 {
      DetailedBodyCoversTotals(profiles[..|profiles| - 1], stamp);
      RowCountCoversLists(profiles[|profiles| - 1]);
    }
  }
}
