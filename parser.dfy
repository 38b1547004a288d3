/**
 * The résumé text parser (backend/parser/parser.go, heuristicParse): a line-by-line state
 * machine that switches section on header keywords and files every other line under the
 * current section. Two library pieces are passed in: `findEmail` stands for the email
 * regexp's FindString, and `pick` resolves Go's random map iteration order (on line k the
 * section of the (pick(k) mod m)-th of the m matching keywords wins, which covers every
 * iteration order).
 */
module ResumeParser {
  import opened Text

  datatype ResumeData = ResumeData(
    name: string, email: string, summary: string,
    skills: seq<string>, experience: seq<string>, education: seq<string>)

  /** The current section; Header is Go's empty string, before any section keyword. */
  datatype Section = Header | Summary | Skills | Experience | Education

  /** The keyword table, in the order the map literal lists it. */
  const SectionKeywords: seq<(string, Section)> := [
    ("experience", Experience), ("work history", Experience), ("education", Education),
    ("skills", Skills), ("technologies", Skills), ("summary", Summary), ("profile", Summary)]

  datatype ParseState = ParseState(data: ResumeData, section: Section)

  const Start: ParseState := ParseState(ResumeData("", "", "", [], [], []), Header)

  // ---------------------------------------------------------------------------------------
  // One line
  // ---------------------------------------------------------------------------------------

  /** The sections of the keywords occurring in the lower-cased line, in table order. */
  function MatchingSections(lower: string, keywords: seq<(string, Section)>): (r: seq<Section>)
    ensures |r| == 0 <==> forall i :: 0 <= i < |keywords| ==> !Contains(lower, keywords[i].0)
    ensures forall j :: 0 <= j < |r|
              ==> exists i :: 0 <= i < |keywords| && Contains(lower, keywords[i].0) && keywords[i].1 == r[j]
    ensures forall i :: 0 <= i < |keywords| && Contains(lower, keywords[i].0) ==> keywords[i].1 in r
  {
    if |keywords| == 0 then []
    else
      var rest := MatchingSections(lower, keywords[1..]);
      assert forall i :: 1 <= i < |keywords| ==> keywords[i] == keywords[1..][i - 1];
      if Contains(lower, keywords[0].0) then [keywords[0].1] + rest else rest
  }

  /** Every piece of the comma split, trimmed, empty pieces included. */
  function TrimAll(pieces: seq<string>): (r: seq<string>)
    ensures |r| == |pieces|
    ensures forall i :: 0 <= i < |r| ==> r[i] == TrimSpace(pieces[i])
  {
    if |pieces| == 0 then [] else TrimAll(pieces[..|pieces| - 1]) + [TrimSpace(pieces[|pieces| - 1])]
  }

  /** A line in the header part: email and name detection. */
  function HeaderLine(d: ResumeData, line: string, findEmail: string -> string): ResumeData {
    var email := findEmail(line);
    if email != "" then
      var namePart := TrimSpace(RemoveFirst(line, email));
      d.(email := email, name := if namePart != "" then TrimSpace(d.name + " " + namePart) else d.name)
    else if d.name == "" then d.(name := line)
    else d
  }

  /** A data line filed under the current section. */
  function Absorb(d: ResumeData, section: Section, line: string, findEmail: string -> string): ResumeData {
    match section
    case Summary => d.(summary := d.summary + line + " ")
    case Skills => d.(skills := d.skills + TrimAll(Split(line, ',')))
    case Experience => d.(experience := d.experience + [line])
    case Education => d.(education := d.education + [line])
    case Header => HeaderLine(d, line, findEmail)
  }

  /** One iteration of the line loop; `choice` is the iteration-order draw for this line. */
  function StepLine(st: ParseState, raw: string, choice: nat, keywords: seq<(string, Section)>,
                    findEmail: string -> string): ParseState
  {
    var line := TrimSpace(raw);
    if line == "" then st
    else
      var matches := MatchingSections(ToLower(line), keywords);
      if |matches| > 0 then st.(section := matches[choice % |matches|])
      else st.(data := Absorb(st.data, st.section, line, findEmail))
  }

  /** The state after the given lines. */
  function Run(lines: seq<string>, keywords: seq<(string, Section)>, pick: nat -> nat,
               findEmail: string -> string): ParseState
  {
    if |lines| == 0 then Start
    else
      var k := |lines| - 1;
      StepLine(Run(lines[..k], keywords, pick, findEmail), lines[k], pick(k), keywords, findEmail)
  }

  // ---------------------------------------------------------------------------------------
  // heuristicParse
  // ---------------------------------------------------------------------------------------

  /** The skills loop: every piece of the split appended, trimmed, in order. */
  method AppendSkillPieces(skills: seq<string>, line: string) returns (r: seq<string>)
    ensures r == skills + TrimAll(Split(line, ','))
  {
    var pieces := Split(line, ',');
    r := skills;
    for i := 0 to |pieces|
      invariant r == skills + TrimAll(pieces[..i])
    {
      assert pieces[..i + 1][..i] == pieces[..i];
      r := r + [TrimSpace(pieces[i])];
    }
    assert pieces[..|pieces|] == pieces;
  }

  /** The switch on the current section for a line that is not a header. */
  method AbsorbLine(d: ResumeData, section: Section, line: string, findEmail: string -> string)
    returns (r: ResumeData)
    ensures r == Absorb(d, section, line, findEmail)
  {
    r := d;
    match section
    case Summary =>
      r := r.(summary := r.summary + line + " ");
    case Skills =>
      var skills := AppendSkillPieces(r.skills, line);
      r := r.(skills := skills);
    case Experience =>
      r := r.(experience := r.experience + [line]);
    case Education =>
      r := r.(education := r.education + [line]);
    case Header =>
      var email := findEmail(line);
      if email != "" {
        r := r.(email := email);
        var namePart := TrimSpace(RemoveFirst(line, email));
        if namePart != "" {
          r := r.(name := TrimSpace(r.name + " " + namePart));
        }
      } else if r.name == "" {
        r := r.(name := line);
      }
  }

  /** heuristicParse: the line loop, then the summary's trailing space trimmed. */
  method HeuristicParse(text: string, pick: nat -> nat, findEmail: string -> string)
    returns (data: ResumeData)
    ensures var st := Run(Split(text, '\n'), SectionKeywords, pick, findEmail).data;
            data == st.(summary := TrimSpace(st.summary))
  {
    var lines := Split(text, '\n');
    var keywords := SectionKeywords;
    data := Start.data;
    var current := Start.section;
    for k := 0 to |lines|
      invariant ParseState(data, current) == Run(lines[..k], keywords, pick, findEmail)
    {
      assert lines[..k + 1][..k] == lines[..k];
      var line := TrimSpace(lines[k]);
      if line == "" {
        continue;
      }
      var matches := MatchingSections(ToLower(line), keywords);
      if |matches| > 0 {
        current := matches[pick(k) % |matches|];
        continue;
      }
      data := AbsorbLine(data, current, line, findEmail);
    }
    assert lines[..|lines|] == lines;
    data := data.(summary := TrimSpace(data.summary));
  }

  // ---------------------------------------------------------------------------------------
  // Properties of one step
  // ---------------------------------------------------------------------------------------

  /** Lines that are blank after trimming change nothing. */
  lemma BlankLineSkipped(st: ParseState, raw: string, choice: nat, keywords: seq<(string, Section)>,
                         findEmail: string -> string)
    requires IsBlank(raw)
    ensures StepLine(st, raw, choice, keywords, findEmail) == st
  {
    TrimSpaceEmptyIffBlank(raw);
  }

  /**
   * A line containing a keyword (case-insensitively) switches to the section of a keyword it
   * contains and contributes no data.
   */
  lemma KeywordLineSwitchesSection(st: ParseState, raw: string, choice: nat,
                                   keywords: seq<(string, Section)>, findEmail: string -> string, i: nat)
    requires i < |keywords| && Contains(ToLower(TrimSpace(raw)), keywords[i].0)
    requires keywords[i].0 != ""
    ensures StepLine(st, raw, choice, keywords, findEmail).data == st.data
    ensures exists j :: 0 <= j < |keywords| && Contains(ToLower(TrimSpace(raw)), keywords[j].0)
                        && keywords[j].1 == StepLine(st, raw, choice, keywords, findEmail).section
  {
    var line := TrimSpace(raw);
    var lower := ToLower(line);
    var matches := MatchingSections(lower, keywords);
    assert matches[choice % |matches|] in matches;
  }

  /** Whatever the map's iteration order, any matching keyword's section can be the one chosen. */
  lemma AnyMatchingSectionCanWin(st: ParseState, raw: string, keywords: seq<(string, Section)>,
                                 findEmail: string -> string, i: nat)
    requires i < |keywords| && keywords[i].0 != "" && Contains(ToLower(TrimSpace(raw)), keywords[i].0)
    ensures exists choice: nat :: StepLine(st, raw, choice, keywords, findEmail).section == keywords[i].1
  {
    var line := TrimSpace(raw);
    ContainsNeedsRoom(ToLower(line), keywords[i].0);
    var matches := MatchingSections(ToLower(line), keywords);
    assert keywords[i].1 in matches;
    var j := Position(matches, keywords[i].1);
    ModOfSmaller(j, |matches|);
    assert StepLine(st, raw, j, keywords, findEmail).section == keywords[i].1;
  }

  /** Only a text at least as long as `sub` can contain it. */
  lemma ContainsNeedsRoom(s: string, sub: string)
    requires Contains(s, sub)
    ensures |sub| <= |s|
  {
  }

  lemma ModOfSmaller(j: nat, n: nat)
    requires j < n
    ensures j % n == j
  {
  }

  /** Some position holding `x`. */
  function Position(s: seq<Section>, x: Section): (j: nat)
    requires x in s
    ensures j < |s| && s[j] == x
  {
    if s[0] == x then 0 else 1 + Position(s[1..], x)
  }

  /** A data line: not blank and containing no keyword. */
  predicate IsDataLine(raw: string, keywords: seq<(string, Section)>) {
    TrimSpace(raw) != "" && forall i :: 0 <= i < |keywords| ==> !Contains(ToLower(TrimSpace(raw)), keywords[i].0)
  }

  /**
   * In the skills section a data line is split on ",", and every piece, empty ones included,
   * is appended trimmed: one more skill than the line has commas.
   */
  lemma SkillsLineSplitsOnCommas(st: ParseState, raw: string, choice: nat,
                                 keywords: seq<(string, Section)>, findEmail: string -> string)
    requires st.section == Skills && IsDataLine(raw, keywords)
    ensures var next := StepLine(st, raw, choice, keywords, findEmail);
            next.section == Skills
            && |next.data.skills| == |st.data.skills| + multiset(TrimSpace(raw))[','] + 1
            && next.data.skills[..|st.data.skills|] == st.data.skills
            && next.data.skills[|st.data.skills|..] == TrimAll(Split(TrimSpace(raw), ','))
  {
    SplitCount(TrimSpace(raw), ',');
  }

  /** Experience and education data lines are appended trimmed, in document order. */
  lemma ListLineAppended(st: ParseState, raw: string, choice: nat,
                         keywords: seq<(string, Section)>, findEmail: string -> string)
    requires IsDataLine(raw, keywords)
    ensures st.section == Experience ==> StepLine(st, raw, choice, keywords, findEmail).data.experience
                                         == st.data.experience + [TrimSpace(raw)]
    ensures st.section == Education ==> StepLine(st, raw, choice, keywords, findEmail).data.education
                                        == st.data.education + [TrimSpace(raw)]
    ensures StepLine(st, raw, choice, keywords, findEmail).section == st.section
  {
  }

  /**
   * Before any section: a line with an email sets Email and adds the rest of the line to
   * Name; otherwise the line becomes the Name only while Name is still empty.
   */
  lemma HeaderLineNameRule(st: ParseState, raw: string, choice: nat,
                           keywords: seq<(string, Section)>, findEmail: string -> string)
    requires st.section == Header && IsDataLine(raw, keywords)
    ensures var line := TrimSpace(raw);
            var next := StepLine(st, raw, choice, keywords, findEmail).data;
            var email := findEmail(line);
            var namePart := TrimSpace(RemoveFirst(line, email));
            && (email != "" ==> next.email == email)
            && (email != "" && namePart != "" ==> next.name == TrimSpace(st.data.name + " " + namePart))
            && (email != "" && namePart == "" ==> next.name == st.data.name)
            && (email == "" && st.data.name == "" ==> next.name == line && next.email == st.data.email)
            && (email == "" && st.data.name != "" ==> next == st.data)
  {
  }

  // ---------------------------------------------------------------------------------------
  // The summary over a whole run
  // ---------------------------------------------------------------------------------------

  /** The trimmed lines filed under the summary section, in document order. */
  function SummaryLines(lines: seq<string>, keywords: seq<(string, Section)>, pick: nat -> nat,
                        findEmail: string -> string): (r: seq<string>)
    ensures forall i :: 0 <= i < |r| ==> r[i] != "" && !IsSpace(r[i][0]) && !IsSpace(r[i][|r[i]| - 1])
  {
    if |lines| == 0 then []
    else
      var k := |lines| - 1;
      var before := SummaryLines(lines[..k], keywords, pick, findEmail);
      var st := Run(lines[..k], keywords, pick, findEmail);
      if st.section == Summary && IsDataLine(lines[k], keywords) then before + [TrimSpace(lines[k])]
      else before
  }

  /** Each line followed by one space. */
  function Spaced(ls: seq<string>): string {
    if |ls| == 0 then "" else Spaced(ls[..|ls| - 1]) + ls[|ls| - 1] + " "
  }

  /** The accumulated summary is every summary line followed by a space. */
  lemma {:induction false} RunSummaryIsSpaced(lines: seq<string>, keywords: seq<(string, Section)>,
                                              pick: nat -> nat, findEmail: string -> string)
    ensures Run(lines, keywords, pick, findEmail).data.summary == Spaced(SummaryLines(lines, keywords, pick, findEmail))
  {
    if |lines| > 0 {
      var k := |lines| - 1;
      RunSummaryIsSpaced(lines[..k], keywords, pick, findEmail);
      var before := SummaryLines(lines[..k], keywords, pick, findEmail);
      var st := Run(lines[..k], keywords, pick, findEmail);
      if st.section == Summary && IsDataLine(lines[k], keywords) {
        assert (before + [TrimSpace(lines[k])])[..|before|] == before;
      }
    }
  }

  /** Trimmed, non-empty lines each followed by a space, trimmed, are the lines joined by spaces. */
  lemma {:induction false} SpacedTrimmedIsJoin(ls: seq<string>)
    requires forall i :: 0 <= i < |ls| ==> ls[i] != "" && !IsSpace(ls[i][0]) && !IsSpace(ls[i][|ls[i]| - 1])
    ensures TrimSpace(Spaced(ls)) == Join(ls, " ")
  {
    if |ls| > 0 {
      SpacedIsJoin(ls);
      var j := Join(ls, " ");
      JoinEnds(ls);
      assert (j + " ")[..|j|] == j;
      TrimSpaceOfTrimmed(j);
    }
  }

  lemma {:induction false} SpacedIsJoin(ls: seq<string>)
    requires |ls| > 0
    ensures Spaced(ls) == Join(ls, " ") + " "
  {
    var k := |ls| - 1;
    if k > 0 {
      SpacedIsJoin(ls[..k]);
      JoinSnoc(ls[..k], ls[k], " ");
      assert ls[..k] + [ls[k]] == ls;
    }
  }

  /** A join of non-empty parts starts with the first part's first character and ends with the last part's last. */
  lemma {:induction false} JoinEnds(ls: seq<string>)
    requires |ls| > 0 && forall i :: 0 <= i < |ls| ==> ls[i] != ""
    ensures |Join(ls, " ")| > 0
    ensures Join(ls, " ")[0] == ls[0][0]
    ensures Join(ls, " ")[|Join(ls, " ")| - 1] == ls[|ls| - 1][|ls[|ls| - 1]| - 1]
  {
    if |ls| > 1 {
      var rest := Join(ls[1..], " ");
      JoinEnds(ls[1..]);
      assert ls[1..][|ls[1..]| - 1] == ls[|ls| - 1];
      var j := Join(ls, " ");
      assert j == ls[0] + " " + rest;
      assert j[0] == ls[0][0];
      assert j[|j| - 1] == rest[|rest| - 1];
    }
  }

  /** The parsed Summary is the summary lines joined by single spaces. */
  lemma ParsedSummaryIsJoin(lines: seq<string>, keywords: seq<(string, Section)>, pick: nat -> nat,
                            findEmail: string -> string)
    ensures TrimSpace(Run(lines, keywords, pick, findEmail).data.summary)
            == Join(SummaryLines(lines, keywords, pick, findEmail), " ")
  {
    RunSummaryIsSpaced(lines, keywords, pick, findEmail);
    SpacedTrimmedIsJoin(SummaryLines(lines, keywords, pick, findEmail));
  }
}
