/**
 * Input checks and string clean-up (pkg/utils/validator.go): LinkedIn profile URLs checked
 * over an already parsed URL record, profile data and password checks, username extraction,
 * byte-length truncation, case-insensitive substring search and white-space sanitising.
 */
module Validation {
  import opened Wrappers
  import opened Text

  /** The parts of a net/url URL that the validators read or rewrite. */
  datatype Url = Url(scheme: string, host: string, path: string, rawQuery: string, fragment: string)

  // ---------------------------------------------------------------------------------------
  // The profile path pattern ^/in/[a-zA-Z0-9\-]+/?$, written out by hand
  // ---------------------------------------------------------------------------------------

  predicate IsSlugChar(c: char) {
    'a' <= c <= 'z' || 'A' <= c <= 'Z' || '0' <= c <= '9' || c == '-'
  }

  /** One or more characters of the class [a-zA-Z0-9-]. */
  predicate IsSlug(s: string) {
    |s| >= 1 && forall i :: 0 <= i < |s| ==> IsSlugChar(s[i])
  }

  const ProfilePrefix: string := "/in/"

  /** The matcher: "/in/", then a slug, then at most one "/". */
  predicate IsProfilePath(p: string) {
    HasPrefix(p, ProfilePrefix)
    && (IsSlug(p[4..]) || (|p| > 5 && p[|p| - 1] == '/' && IsSlug(p[4..|p| - 1])))
  }

  /** The language of the pattern, stated through the username it captures. */
  ghost predicate MatchesProfilePattern(p: string) {
    exists user :: IsSlug(user) && (p == ProfilePrefix + user || p == ProfilePrefix + user + "/")
  }

  /** The hand-written matcher accepts exactly the strings of the pattern. */
  lemma ProfilePathMatchesPattern(p: string)
    ensures IsProfilePath(p) <==> MatchesProfilePattern(p)
  {
    if IsProfilePath(p) {
      if IsSlug(p[4..]) {
        assert p == ProfilePrefix + p[4..];
      } else {
        assert p == ProfilePrefix + p[4..|p| - 1] + "/";
      }
    }
    if MatchesProfilePattern(p) {
      var user :| IsSlug(user) && (p == ProfilePrefix + user || p == ProfilePrefix + user + "/");
      if p == ProfilePrefix + user {
        assert p[4..] == user;
      } else {
        assert p[4..|p| - 1] == user;
      }
    }
  }

  // ---------------------------------------------------------------------------------------
  // ValidateLinkedInURL and ValidateProfileData
  // ---------------------------------------------------------------------------------------

  predicate IsLinkedInHost(host: string) {
    host == "www.linkedin.com" || host == "linkedin.com"
  }

  const EmptyURL: string := "profile URL cannot be empty"
  const BadFormat: string := "invalid URL format: "
  const ForeignHost: string := "URL must be from linkedin.com domain"
  const NotProfile: string := "URL must be a LinkedIn profile URL (format: /in/username)"

  /**
   * ValidateLinkedInURL over `parsed`, the result of url.Parse(profileURL). The checks run
   * in order: empty input, parse error, host, path pattern.
   */
  function ValidateLinkedInURL(profileURL: string, parsed: Result<Url>): (r: Status)
    ensures r.Pass? <==> profileURL != "" && parsed.Ok? && IsLinkedInHost(parsed.value.host)
                         && IsProfilePath(parsed.value.path)
    ensures profileURL == "" ==> r == Fail(EmptyURL)
    ensures profileURL != "" && parsed.Err? ==> r == Fail(BadFormat + parsed.msg)
    ensures profileURL != "" && parsed.Ok? && !IsLinkedInHost(parsed.value.host)
            ==> r == Fail(ForeignHost)
    ensures (profileURL != "" && parsed.Ok? && IsLinkedInHost(parsed.value.host)
             && !IsProfilePath(parsed.value.path)) ==> r == Fail(NotProfile)
  {
    if profileURL == "" then Fail(EmptyURL)
    else if parsed.Err? then Fail(BadFormat + parsed.msg)
    else if !IsLinkedInHost(parsed.value.host) then Fail(ForeignHost)
    else if !IsProfilePath(parsed.value.path) then Fail(NotProfile)
    else Pass
  }

  /** ValidateProfileData: trimmed name and URL must be non-empty, then the URL check. */
  function ValidateProfileData(name: string, profileURL: string, parsed: Result<Url>): Status {
    if TrimSpace(name) == "" then Fail("profile name is required")
    else if TrimSpace(profileURL) == "" then Fail("profile URL is required")
    else ValidateLinkedInURL(profileURL, parsed)
  }

  /**
   * A blank name is reported first, then a blank URL; otherwise the answer is exactly the
   * URL check's, so the data is accepted iff both fields are non-blank and the URL passes.
   */
  lemma ValidateProfileDataSpec(name: string, profileURL: string, parsed: Result<Url>)
    ensures IsBlank(name) ==> ValidateProfileData(name, profileURL, parsed)
                              == Fail("profile name is required")
    ensures !IsBlank(name) && IsBlank(profileURL)
            ==> ValidateProfileData(name, profileURL, parsed) == Fail("profile URL is required")
    ensures !IsBlank(name) && !IsBlank(profileURL)
            ==> ValidateProfileData(name, profileURL, parsed) == ValidateLinkedInURL(profileURL, parsed)
    ensures ValidateProfileData(name, profileURL, parsed).Pass?
            <==> !IsBlank(name) && !IsBlank(profileURL) && ValidateLinkedInURL(profileURL, parsed).Pass?
  {
    TrimSpaceEmptyIffBlank(name);
    TrimSpaceEmptyIffBlank(profileURL);
  }

  // ---------------------------------------------------------------------------------------
  // ValidatePassword
  // ---------------------------------------------------------------------------------------

  /** ValidatePassword: Go's len counts UTF-8 bytes, not characters. */
  function ValidatePassword(password: string): (r: Status)
    ensures r.Pass? <==> ByteLen(password) >= 6
  {
    if password == "" then Fail("password cannot be empty")
    else if ByteLen(password) < 6 then Fail("password must be at least 6 characters long")
    else Pass
  }

  /**
   * Because the length is in bytes, six characters always pass, one character never does,
   * and in between it depends on the characters (two 3-byte characters pass).
   */
  lemma PasswordLengthInCharacters(password: string)
    ensures |password| >= 6 ==> ValidatePassword(password).Pass?
    ensures |password| <= 1 ==> ValidatePassword(password).Fail?
    ensures password == "" ==> ValidatePassword(password) == Fail("password cannot be empty")
  {
  }

  // ---------------------------------------------------------------------------------------
  // NormalizeLinkedInURL
  // ---------------------------------------------------------------------------------------

  /** The input with "https://" put in front unless it already starts with http:// or https://. */
  function WithScheme(profileURL: string): (s: string)
    ensures HasPrefix(s, "http://") || HasPrefix(s, "https://")
    ensures HasPrefix(profileURL, "http://") || HasPrefix(profileURL, "https://") ==> s == profileURL
  {
    if !HasPrefix(profileURL, "http://") && !HasPrefix(profileURL, "https://") then "https://" + profileURL
    else profileURL
  }

  /** The field rewrites of NormalizeLinkedInURL applied to a parsed URL. */
  function Normalized(u: Url): Url {
    Url("https", if u.host == "linkedin.com" then "www.linkedin.com" else u.host,
        TrimSuffix(u.path, "/"), "", "")
  }

  /**
   * NormalizeLinkedInURL, with url.Parse passed in as `parse`; rendering the result back to
   * text (URL.String) is not part of this model, so the normalised record is returned.
   */
  method NormalizeLinkedInURL(profileURL: string, parse: string -> Result<Url>) returns (r: Result<Url>)
    ensures parse(WithScheme(profileURL)).Err? ==> r == Err(BadFormat + parse(WithScheme(profileURL)).msg)
    ensures parse(WithScheme(profileURL)).Ok? ==> r == Ok(Normalized(parse(WithScheme(profileURL)).value))
    ensures r.Ok? ==> r.value.scheme == "https" && r.value.rawQuery == "" && r.value.fragment == ""
    ensures r.Ok? ==> r.value.host != "linkedin.com"
    ensures r.Ok? ==> r.value.path + (if HasSuffix(parse(WithScheme(profileURL)).value.path, "/") then "/" else "")
                      == parse(WithScheme(profileURL)).value.path
  {
    var target := profileURL;
    if !HasPrefix(target, "http://") && !HasPrefix(target, "https://") {
      target := "https://" + target;
    }
    var parsed := parse(target);
    if parsed.Err? {
      return Err(BadFormat + parsed.msg);
    }
    var u := parsed.value;
    if u.host == "linkedin.com" {
      u := u.(host := "www.linkedin.com");
    }
    u := u.(scheme := "https");
    u := u.(path := TrimSuffix(u.path, "/"));
    u := u.(rawQuery := "", fragment := "");
    return Ok(u);
  }

  /**
   * Normalising an accepted profile URL keeps it a LinkedIn profile URL, on the canonical
   * host, without the trailing slash, and with the same username.
   */
  lemma NormalizedKeepsProfile(u: Url, user: string)
    requires IsLinkedInHost(u.host) && IsSlug(user)
    requires u.path == ProfilePrefix + user || u.path == ProfilePrefix + user + "/"
    ensures Normalized(u).host == "www.linkedin.com"
    ensures Normalized(u).path == ProfilePrefix + user
    ensures IsProfilePath(Normalized(u).path)
    ensures ExtractUsernameFromURL(Ok(Normalized(u))) == Ok(user)
  {
    var p := ProfilePrefix + user;
    assert p[4..] == user;
    if u.path == p + "/" {
      assert HasSuffix(u.path, "/");
      assert TrimSuffix(u.path, "/") + "/" == p + "/";
    } else {
      assert !HasSuffix(u.path, "/") by {
        assert u.path[|u.path| - 1] == user[|user| - 1];
      }
    }
    UsernameOfProfilePath(Normalized(u), user);
  }

  /** Normalising twice changes nothing more, unless the path ended in two or more slashes. */
  lemma NormalizedIdempotent(u: Url)
    requires !HasSuffix(u.path, "//")
    ensures Normalized(Normalized(u)) == Normalized(u)
  {
  }

  /** Text and parsing are independent of adding the scheme twice. */
  lemma WithSchemeIdempotent(profileURL: string)
    ensures WithScheme(WithScheme(profileURL)) == WithScheme(profileURL)
  {
  }

  // ---------------------------------------------------------------------------------------
  // ExtractUsernameFromURL
  // ---------------------------------------------------------------------------------------

  /** The second segment of the slash-trimmed path, provided the first one is "in". */
  function ExtractUsernameFromURL(parsed: Result<Url>): (r: Result<string>)
    ensures r.Ok? ==> '/' !in r.value
    ensures parsed.Err? ==> r == Err(BadFormat + parsed.msg)
    ensures parsed.Ok?
            ==> (r.Ok? <==> (|Segments(parsed.value.path)| >= 2 && Segments(parsed.value.path)[0] == "in"))
  {
    if parsed.Err? then Err(BadFormat + parsed.msg)
    else
      var parts := Segments(parsed.value.path);
      if |parts| < 2 || parts[0] != "in" then Err("invalid LinkedIn profile URL format")
      else Ok(parts[1])
  }

  /** strings.Split(strings.Trim(path, "/"), "/"). */
  function Segments(path: string): seq<string> {
    Split(TrimChar(path, '/'), '/')
  }

  /** On a profile path the username is exactly the slug the pattern captured. */
  lemma UsernameOfProfilePath(u: Url, user: string)
    requires IsSlug(user)
    requires u.path == ProfilePrefix + user || u.path == ProfilePrefix + user + "/"
    ensures ExtractUsernameFromURL(Ok(u)) == Ok(user)
  {
    var inner := "in/" + user;
    assert inner[0] == 'i';
    assert inner[|inner| - 1] == user[|user| - 1];
    if u.path == ProfilePrefix + user {
      assert u.path[1..] == inner;
      assert TrimChar(u.path, '/') == TrimChar(inner, '/');
    } else {
      assert u.path[1..] == inner + "/";
      assert (inner + "/")[..|inner|] == inner;
      assert TrimChar(u.path, '/') == TrimChar(inner + "/", '/');
    }
    assert TrimChar(inner, '/') == inner;
    assert '/' !in user by {
      forall i | 0 <= i < |user| ensures user[i] != '/' {
        assert IsSlugChar(user[i]);
      }
    }
    assert inner == "in" + ['/'] + user;
    SplitAtFirst("in", user, '/');
    SplitNoSep(user, '/');
  }

  /** Every URL that ValidateLinkedInURL accepts yields a username made of slug characters. */
  lemma ValidatedURLHasUsername(profileURL: string, parsed: Result<Url>)
    requires ValidateLinkedInURL(profileURL, parsed).Pass?
    ensures ExtractUsernameFromURL(parsed).Ok?
    ensures IsSlug(ExtractUsernameFromURL(parsed).value)
  {
    var p := parsed.value.path;
    if IsSlug(p[4..]) {
      assert p == ProfilePrefix + p[4..];
      UsernameOfProfilePath(parsed.value, p[4..]);
    } else {
      assert p == ProfilePrefix + p[4..|p| - 1] + "/";
      UsernameOfProfilePath(parsed.value, p[4..|p| - 1]);
    }
  }

  // ---------------------------------------------------------------------------------------
  // TruncateText (on the UTF-8 bytes of the string, as Go's len and slicing are)
  // ---------------------------------------------------------------------------------------

  type Byte = b: int | 0 <= b < 256

  /** The three bytes of "...". */
  const Ellipsis: seq<Byte> := [0x2E, 0x2E, 0x2E]

  /**
   * TruncateText: unchanged when it fits; otherwise exactly `maxLength` bytes, the last
   * three of which are "..." when there is room for them. A negative `maxLength` makes Go
   * slice with a negative bound and panic, hence the precondition.
   */
  function TruncateText(text: seq<Byte>, maxLength: int): (r: seq<Byte>)
    requires maxLength >= 0
    ensures |r| <= maxLength && |r| <= |text|
    ensures |text| <= maxLength ==> r == text
    ensures |text| > maxLength ==> |r| == maxLength
    ensures |text| > maxLength && maxLength > 3
            ==> (HasBytePrefix(text, r[..maxLength - 3]) && r[maxLength - 3..] == Ellipsis)
    ensures |text| > maxLength && maxLength <= 3 ==> HasBytePrefix(text, r)
  {
    if |text| <= maxLength then text
    else if maxLength <= 3 then text[..maxLength]
    else text[..maxLength - 3] + Ellipsis
  }

  predicate HasBytePrefix(s: seq<Byte>, p: seq<Byte>) {
    |p| <= |s| && s[..|p|] == p
  }

  /** Truncating an already truncated text changes nothing. */
  lemma TruncateTextIdempotent(text: seq<Byte>, maxLength: int)
    requires maxLength >= 0
    ensures TruncateText(TruncateText(text, maxLength), maxLength) == TruncateText(text, maxLength)
  {
  }

  // ---------------------------------------------------------------------------------------
  // ContainsAny
  // ---------------------------------------------------------------------------------------

  /** Some substring occurs in the text, both lower-cased (ASCII). */
  function ContainsAny(text: string, substrings: seq<string>): (b: bool)
    ensures b <==> exists i :: 0 <= i < |substrings| && Contains(ToLower(text), ToLower(substrings[i]))
  {
    if |substrings| == 0 then false
    else if Contains(ToLower(text), ToLower(substrings[0])) then true
    else
      var rest := ContainsAny(text, substrings[1..]);
      assert forall i :: 1 <= i < |substrings| ==> substrings[i] == substrings[1..][i - 1];
      rest
  }

  /** The empty substring occurs in every text, so a list holding "" always matches. */
  lemma ContainsAnyEmptySubstring(text: string, substrings: seq<string>)
    requires "" in substrings
    ensures ContainsAny(text, substrings)
  {
    var i :| 0 <= i < |substrings| && substrings[i] == "";
    assert OccursAt(ToLower(text), ToLower(substrings[i]), 0);
  }

  /** The search ignores the case of the text. */
  lemma ContainsAnyIgnoresCase(text: string, other: string, substrings: seq<string>)
    requires EqualFold(text, other)
    ensures ContainsAny(text, substrings) == ContainsAny(other, substrings)
  {
    EqualFoldIsLowerEquality(text, other);
  }

  // ---------------------------------------------------------------------------------------
  // SanitizeText: the \s+ to " " replacement followed by TrimSpace
  // ---------------------------------------------------------------------------------------

  /** The regexp class \s: ASCII tab, newline, form feed, carriage return and space. */
  predicate IsReSpace(c: char) {
    c == '\t' || c == '\n' || c == '\U{000C}' || c == '\r' || c == ' '
  }

  /** Drops the leading run of \s characters. */
  function SkipReSpace(s: string): (r: string)
    ensures |r| <= |s| && (r == [] || !IsReSpace(r[0]))
  {
    if |s| > 0 && IsReSpace(s[0]) then SkipReSpace(s[1..]) else s
  }

  /** Every maximal run of \s characters replaced by one space. */
  function CollapseSpaces(s: string): (r: string)
    ensures Collapsed(r)
    ensures s == [] ==> r == []
    ensures |s| > 0 && !IsReSpace(s[0]) ==> |r| > 0 && r[0] == s[0]
    decreases |s|
  {
    if |s| == 0 then ""
    else if IsReSpace(s[0]) then
      var rest := CollapseSpaces(SkipReSpace(s[1..]));
      " " + rest
    else [s[0]] + CollapseSpaces(s[1..])
  }

  /** The only \s character is the space, and no two of them are adjacent. */
  predicate Collapsed(s: string) {
    (forall i :: 0 <= i < |s| && IsReSpace(s[i]) ==> s[i] == ' ')
    && (forall i :: 0 <= i < |s| - 1 ==> !(IsReSpace(s[i]) && IsReSpace(s[i + 1])))
  }

  /** SanitizeText without the character replacements. */
  function SanitizeText(text: string): (r: string)
    ensures Collapsed(r)
    ensures r == [] || (!IsSpace(r[0]) && !IsSpace(r[|r| - 1]))
  {
    var c := CollapseSpaces(text);
    TrimSpaceKeepsCollapsed(c);
    TrimSpace(c)
  }

  lemma {:induction false} TrimSpaceKeepsCollapsed(s: string)
    requires Collapsed(s)
    ensures Collapsed(TrimSpace(s))
    decreases |s|
  {
    if |s| > 0 {
      if IsSpace(s[0]) {
        assert forall i :: 0 <= i < |s| - 1 ==> s[1..][i] == s[i + 1];
        TrimSpaceKeepsCollapsed(s[1..]);
      } else if IsSpace(s[|s| - 1]) {
        assert forall i :: 0 <= i < |s| - 1 ==> s[..|s| - 1][i] == s[i];
        TrimSpaceKeepsCollapsed(s[..|s| - 1]);
      }
    }
  }

  /** A collapsed string is its own collapse. */
  lemma {:induction false} CollapseOfCollapsed(s: string)
    requires Collapsed(s)
    ensures CollapseSpaces(s) == s
    decreases |s|
  {
    if |s| > 0 {
      assert Collapsed(s[1..]) by {
        assert forall i :: 0 <= i < |s| - 1 ==> s[1..][i] == s[i + 1];
      }
      if IsReSpace(s[0]) {
        assert |s| == 1 || !IsReSpace(s[1]);
        assert SkipReSpace(s[1..]) == s[1..];
      }
      CollapseOfCollapsed(s[1..]);
    }
  }

  /** Sanitising sanitised text changes nothing. */
  lemma SanitizeTextIdempotent(text: string)
    ensures SanitizeText(SanitizeText(text)) == SanitizeText(text)
  {
    var r := SanitizeText(text);
    CollapseOfCollapsed(r);
    TrimSpaceOfTrimmed(r);
  }

  // A reference reading of the replacement, and what it keeps

  /** Each \s character replaced by a space, one for one. */
  function SpacesToBlank(s: string): (r: string)
    ensures |r| == |s|
    ensures forall i :: 0 <= i < |s| ==> r[i] == (if IsReSpace(s[i]) then ' ' else s[i])
  {
    if |s| == 0 then "" else [if IsReSpace(s[0]) then ' ' else s[0]] + SpacesToBlank(s[1..])
  }

  /** Each run of adjacent spaces shortened to its first space. */
  function Squeeze(s: string): string {
    if |s| <= 1 then s
    else if s[0] == ' ' && s[1] == ' ' then Squeeze(s[1..])
    else [s[0]] + Squeeze(s[1..])
  }

  /** The collapse is the one-for-one blanking of \s followed by squeezing the blanks. */
  lemma {:induction false} CollapseSpacesIsBlankThenSqueeze(s: string)
    ensures CollapseSpaces(s) == Squeeze(SpacesToBlank(s))
    decreases |s|
  {
    if |s| > 0 {
      var b := SpacesToBlank(s);
      assert b[1..] == SpacesToBlank(s[1..]);
      CollapseSpacesIsBlankThenSqueeze(s[1..]);
      if IsReSpace(s[0]) && |s| > 1 && IsReSpace(s[1]) {
        assert SkipReSpace(s[1..]) == SkipReSpace(s[2..]) by {
          assert s[1..][1..] == s[2..];
        }
        assert s[1..][0] == s[1];
        assert CollapseSpaces(s[1..]) == " " + CollapseSpaces(SkipReSpace(s[2..]));
      } else if IsReSpace(s[0]) {
        assert SkipReSpace(s[1..]) == s[1..];
      }
    }
  }

  /** The characters outside \s, in order. */
  function NonSpace(s: string): (r: string)
    ensures |r| <= |s|
    ensures forall i :: 0 <= i < |r| ==> !IsReSpace(r[i])
  {
    if |s| == 0 then "" else (if IsReSpace(s[0]) then "" else [s[0]]) + NonSpace(s[1..])
  }

  lemma {:induction false} NonSpaceAppend(a: string, b: string)
    ensures NonSpace(a + b) == NonSpace(a) + NonSpace(b)
    decreases |a|
  {
    if |a| > 0 {
      assert (a + b)[1..] == a[1..] + b;
      NonSpaceAppend(a[1..], b);
    } else {
      assert a + b == b;
    }
  }

  lemma {:induction false} SkipReSpaceKeepsNonSpace(s: string)
    ensures NonSpace(SkipReSpace(s)) == NonSpace(s)
    decreases |s|
  {
    if |s| > 0 && IsReSpace(s[0]) {
      SkipReSpaceKeepsNonSpace(s[1..]);
    }
  }

  /** The collapse keeps every character outside \s, in order, and adds none. */
  lemma {:induction false} CollapseSpacesKeepsNonSpace(s: string)
    ensures NonSpace(CollapseSpaces(s)) == NonSpace(s)
    decreases |s|
  {
    if |s| > 0 {
      if IsReSpace(s[0]) {
        var t := SkipReSpace(s[1..]);
        CollapseSpacesKeepsNonSpace(t);
        SkipReSpaceKeepsNonSpace(s[1..]);
        assert (" " + CollapseSpaces(t))[1..] == CollapseSpaces(t);
      } else {
        CollapseSpacesKeepsNonSpace(s[1..]);
        assert ([s[0]] + CollapseSpaces(s[1..]))[1..] == CollapseSpaces(s[1..]);
      }
    }
  }

  /** TrimSpace drops only \s characters from a string whose white space is all \s. */
  lemma {:induction false} TrimSpaceKeepsNonSpace(s: string)
    requires forall i :: 0 <= i < |s| && IsSpace(s[i]) ==> IsReSpace(s[i])
    ensures NonSpace(TrimSpace(s)) == NonSpace(s)
    decreases |s|
  {
    if |s| > 0 {
      if IsSpace(s[0]) {
        TrimSpaceKeepsNonSpace(s[1..]);
      } else if IsSpace(s[|s| - 1]) {
        var init := s[..|s| - 1];
        TrimSpaceKeepsNonSpace(init);
        assert s == init + [s[|s| - 1]];
        NonSpaceAppend(init, [s[|s| - 1]]);
      }
    }
  }

  /**
   * Sanitising keeps every character outside \s, in order, when the text has no white
   * space beyond \s (TrimSpace would also drop, say, a no-break space at either end).
   */
  lemma SanitizeTextKeepsNonSpace(text: string)
    requires forall i :: 0 <= i < |text| && IsSpace(text[i]) ==> IsReSpace(text[i])
    ensures NonSpace(SanitizeText(text)) == NonSpace(text)
  {
    CollapseSpacesKeepsNonSpace(text);
    CollapseKeepsWhiteSpaceClass(text);
    TrimSpaceKeepsNonSpace(CollapseSpaces(text));
  }

  /** The collapse brings in no white space beyond \s that the text did not have. */
  lemma CollapseKeepsWhiteSpaceClass(text: string)
    requires forall i :: 0 <= i < |text| && IsSpace(text[i]) ==> IsReSpace(text[i])
    ensures var c := CollapseSpaces(text);
            forall i :: 0 <= i < |c| && IsSpace(c[i]) ==> IsReSpace(c[i])
  {
    var c := CollapseSpaces(text);
    var b := SpacesToBlank(text);
    CollapseSpacesIsBlankThenSqueeze(text);
    SqueezeKeepsChars(b);
    forall j | 0 <= j < |b|
      ensures IsSpace(b[j]) ==> IsReSpace(b[j])
    {
      assert b[j] == (if IsReSpace(text[j]) then ' ' else text[j]);
    }
    forall i | 0 <= i < |c|
      ensures IsSpace(c[i]) ==> IsReSpace(c[i])
    {
      assert c[i] in b;
    }
  }

  /** Squeezing only drops characters of its input. */
  lemma {:induction false} SqueezeKeepsChars(s: string)
    ensures forall c :: c in Squeeze(s) ==> c in s
    decreases |s|
  {
    if |s| > 1 {
      SqueezeKeepsChars(s[1..]);
    }
  }
}
