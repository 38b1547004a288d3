/**
 * The pieces of Go's `strings`, `strconv` and `unicode` packages that the scraper relies on,
 * stated over Dafny strings (sequences of Unicode scalar values, i.e. Go runes).
 */
module Text {
  import opened Wrappers

  // ---------------------------------------------------------------------------------------
  // Whitespace and trimming
  // ---------------------------------------------------------------------------------------

  /** unicode.IsSpace: the Latin-1 spaces plus the Unicode White_Space characters. */
  predicate IsSpace(c: char) {
    c == ' ' || c == '\t' || c == '\n' || c == '\r' || c == '\U{000B}' || c == '\U{000C}'
    || c == '\U{0085}' || c == '\U{00A0}' || c == '\U{1680}'
    || ('\U{2000}' <= c <= '\U{200A}')
    || c == '\U{2028}' || c == '\U{2029}' || c == '\U{202F}' || c == '\U{205F}' || c == '\U{3000}'
  }

  /** True when every character of `s` is white space (including the empty string). */
  predicate IsBlank(s: string) {
    forall i :: 0 <= i < |s| ==> IsSpace(s[i])
  }

  /**
   * strings.TrimSpace: drops leading and trailing white space. The result neither starts nor
   * ends with white space.
   */
  function TrimSpace(s: string): (r: string)
    ensures |r| <= |s|
    ensures r == [] || (!IsSpace(r[0]) && !IsSpace(r[|r| - 1]))
  {
    if |s| == 0 then s
    else if IsSpace(s[0]) then TrimSpace(s[1..])
    else if IsSpace(s[|s| - 1]) then TrimSpace(s[..|s| - 1])
    else s
  }

  /** A string that does not start or end with white space is its own trimming. */
  lemma TrimSpaceOfTrimmed(s: string)
    requires s == [] || (!IsSpace(s[0]) && !IsSpace(s[|s| - 1]))
    ensures TrimSpace(s) == s
  {
  }

  /** White space around a word is exactly what TrimSpace removes. */
  lemma {:induction false} TrimSpacePadded(a: string, s: string, b: string)
    requires IsBlank(a) && IsBlank(b)
    requires |s| > 0 && !IsSpace(s[0]) && !IsSpace(s[|s| - 1])
    ensures TrimSpace(a + s + b) == s
    decreases |a| + |b|
  {
    var t := a + s + b;
    if |a| > 0 {
      assert t[1..] == a[1..] + s + b;
      TrimSpacePadded(a[1..], s, b);
    } else if |b| > 0 {
      assert t == s + b;
      assert t[..|t| - 1] == [] + s + b[..|b| - 1];
      TrimSpacePadded([], s, b[..|b| - 1]);
    } else {
      assert t == s;
    }
  }

  lemma TrimSpaceIdempotent(s: string)
    ensures TrimSpace(TrimSpace(s)) == TrimSpace(s)
  {
    TrimSpaceOfTrimmed(TrimSpace(s));
  }

  /** TrimSpace gives "" exactly for the blank strings. */
  lemma {:induction false} TrimSpaceEmptyIffBlank(s: string)
    ensures TrimSpace(s) == "" <==> IsBlank(s)
  {
    if |s| > 0 {
      if IsSpace(s[0]) {
        TrimSpaceEmptyIffBlank(s[1..]);
        assert IsBlank(s) <==> IsBlank(s[1..]) by {
          assert forall i :: 0 < i < |s| ==> s[i] == s[1..][i - 1];
        }
      } else if IsSpace(s[|s| - 1]) {
        TrimSpaceEmptyIffBlank(s[..|s| - 1]);
        assert IsBlank(s) <==> IsBlank(s[..|s| - 1]) by {
          assert forall i :: 0 <= i < |s| - 1 ==> s[i] == s[..|s| - 1][i];
        }
      }
    }
  }

  // ---------------------------------------------------------------------------------------
  // ASCII case folding (strings.EqualFold and strings.ToLower restricted to ASCII)
  // ---------------------------------------------------------------------------------------

  function Lower(c: char): char {
    if 'A' <= c <= 'Z' then (c as int + 32) as char else c
  }

  function ToLower(s: string): (r: string)
    ensures |r| == |s|
  {
    seq(|s|, i requires 0 <= i < |s| => Lower(s[i]))
  }

  /** strings.EqualFold with ASCII folding. */
  predicate EqualFold(a: string, b: string) {
    |a| == |b| && forall i :: 0 <= i < |a| ==> Lower(a[i]) == Lower(b[i])
  }

  /** Folding is an equality of lower-cased forms, hence an equivalence relation. */
  lemma EqualFoldIsLowerEquality(a: string, b: string)
    ensures EqualFold(a, b) <==> ToLower(a) == ToLower(b)
  {
    if ToLower(a) == ToLower(b) {
      assert forall i :: 0 <= i < |a| ==> ToLower(a)[i] == Lower(a[i]);
    }
  }

  // ---------------------------------------------------------------------------------------
  // Prefixes, suffixes, search
  // ---------------------------------------------------------------------------------------

  predicate HasPrefix(s: string, p: string) {
    |p| <= |s| && s[..|p|] == p
  }

  predicate HasSuffix(s: string, p: string) {
    |p| <= |s| && s[|s| - |p|..] == p
  }

  /** strings.TrimSuffix: removes one copy of `suffix` if present. */
  function TrimSuffix(s: string, suffix: string): (r: string)
    ensures HasSuffix(s, suffix) ==> r + suffix == s
    ensures !HasSuffix(s, suffix) ==> r == s
  {
    if HasSuffix(s, suffix) then s[..|s| - |suffix|] else s
  }

  /** strings.Trim with a one-character cut set: strips every leading and trailing `c`. */
  function TrimChar(s: string, c: char): (r: string)
    ensures r == [] || (r[0] != c && r[|r| - 1] != c)
    decreases |s|
  {
    if |s| > 0 && s[0] == c then TrimChar(s[1..], c)
    else if |s| > 0 && s[|s| - 1] == c then TrimChar(s[..|s| - 1], c)
    else s
  }

  /** `sub` occurs in `s` starting at position `j`. */
  predicate OccursAt(s: string, sub: string, j: int) {
    0 <= j && j + |sub| <= |s| && s[j..j + |sub|] == sub
  }

  /** The first position at or after `k` at which `sub` occurs in `s`. */
  function IndexFrom(s: string, sub: string, k: nat): (r: Option<nat>)
    ensures r.Some? ==> k <= r.value && OccursAt(s, sub, r.value)
    ensures r.Some? ==> forall j :: k <= j < r.value ==> !OccursAt(s, sub, j)
    ensures r.None? ==> forall j :: k <= j ==> !OccursAt(s, sub, j)
    decreases |s| - k
  {
    if k + |sub| > |s| then None
    else if OccursAt(s, sub, k) then Some(k)
    else IndexFrom(s, sub, k + 1)
  }

  /** strings.Index: the first position at which `sub` occurs in `s`. */
  function IndexOf(s: string, sub: string): Option<nat> {
    IndexFrom(s, sub, 0)
  }

  /** strings.Contains. */
  predicate Contains(s: string, sub: string) {
    IndexOf(s, sub).Some?
  }

  /** strings.Replace(s, sub, "", 1) for a non-empty `sub`: deletes its first occurrence. */
  function RemoveFirst(s: string, sub: string): (r: string)
    ensures IndexOf(s, sub).None? ==> r == s
    ensures IndexOf(s, sub).Some? ==> |r| == |s| - |sub|
  {
    match IndexOf(s, sub)
    case None => s
    case Some(i) => s[..i] + s[i + |sub|..]
  }

  // ---------------------------------------------------------------------------------------
  // Split and Join
  // ---------------------------------------------------------------------------------------

  /** strings.Join. */
  function Join(parts: seq<string>, sep: string): string {
    if |parts| == 0 then ""
    else if |parts| == 1 then parts[0]
    else parts[0] + sep + Join(parts[1..], sep)
  }

  /** Appending one part extends the joined string by the separator and that part. */
  lemma {:induction false} JoinSnoc(parts: seq<string>, x: string, sep: string)
    requires |parts| > 0
    ensures Join(parts + [x], sep) == Join(parts, sep) + sep + x
  {
    if |parts| > 1 {
      assert (parts + [x])[1..] == parts[1..] + [x];
      JoinSnoc(parts[1..], x, sep);
    }
  }

  /** Each separator in a join is counted once, on top of those inside the parts. */
  lemma {:induction false} JoinCount(parts: seq<string>, sep: string, c: char)
    requires |parts| > 0
    ensures multiset(Join(parts, sep))[c]
            == SumCounts(parts, c) + (|parts| - 1) * multiset(sep)[c]
  {
    if |parts| > 1 {
      var k := multiset(sep)[c];
      var tail := Join(parts[1..], sep);
      JoinCount(parts[1..], sep, c);
      assert multiset(tail)[c] == SumCounts(parts[1..], c) + (|parts| - 2) * k;
      assert multiset(parts[0] + sep + tail)[c] == multiset(parts[0])[c] + k + multiset(tail)[c];
      assert (|parts| - 2) * k + k == (|parts| - 1) * k;
    }
  }

  /** Number of occurrences of `c` across all parts. */
  function SumCounts(parts: seq<string>, c: char): nat {
    if |parts| == 0 then 0 else multiset(parts[0])[c] + SumCounts(parts[1..], c)
  }

  lemma {:induction false} SumCountsZero(parts: seq<string>, c: char)
    requires forall i :: 0 <= i < |parts| ==> c !in parts[i]
    ensures SumCounts(parts, c) == 0
  {
    if |parts| > 0 {
      SumCountsZero(parts[1..], c);
    }
  }

  /** Joining separator-free parts with a separator holding `c` once gives one `c` per gap. */
  lemma JoinCountGaps(parts: seq<string>, sep: string, c: char)
    requires |parts| > 0 && multiset(sep)[c] == 1
    requires forall i :: 0 <= i < |parts| ==> c !in parts[i]
    ensures multiset(Join(parts, sep))[c] == |parts| - 1
  {
    JoinCount(parts, sep, c);
    SumCountsZero(parts, c);
  }

  /** strings.Split with a one-character separator. */
  function Split(s: string, c: char): (parts: seq<string>)
    ensures |parts| >= 1
    ensures forall i :: 0 <= i < |parts| ==> c !in parts[i]
    decreases |s|
  {
    if |s| == 0 then [""]
    else
      var rest := Split(s[1..], c);
      if s[0] == c then [""] + rest
      else [[s[0]] + rest[0]] + rest[1..]
  }

  /** Joining the pieces with the separator gives the input back. */
  lemma {:induction false} SplitJoin(s: string, c: char)
    ensures Join(Split(s, c), [c]) == s
    decreases |s|
  {
    if |s| > 0 {
      var rest := Split(s[1..], c);
      SplitJoin(s[1..], c);
      assert s == [s[0]] + s[1..];
      if s[0] != c && |rest| > 1 {
        assert rest == [rest[0]] + rest[1..];
      }
    }
  }

  /** Split yields one more piece than there are separators. */
  lemma {:induction false} SplitCount(s: string, c: char)
    ensures |Split(s, c)| == multiset(s)[c] + 1
    decreases |s|
  {
    if |s| > 0 {
      SplitCount(s[1..], c);
      assert s == [s[0]] + s[1..];
    }
  }

  /** A separator-free string splits into itself. */
  lemma {:induction false} SplitNoSep(s: string, c: char)
    requires c !in s
    ensures Split(s, c) == [s]
    decreases |s|
  {
    if |s| > 0 {
      SplitNoSep(s[1..], c);
      assert s == [s[0]] + s[1..];
    }
  }

  /** Splitting at the first separator. */
  lemma {:induction false} SplitAtFirst(a: string, b: string, c: char)
    requires c !in a
    ensures Split(a + [c] + b, c) == [a] + Split(b, c)
    decreases |a|
  {
    var s := a + [c] + b;
    if |a| > 0 {
      assert s[1..] == a[1..] + [c] + b;
      SplitAtFirst(a[1..], b, c);
      assert [a[0]] + a[1..] == a;
    } else {
      assert s[1..] == b;
    }
  }

  // ---------------------------------------------------------------------------------------
  // Integers (strconv.Atoi on a 64-bit platform) and byte length (len on a Go string)
  // ---------------------------------------------------------------------------------------

  const MinInt64: int := -0x8000_0000_0000_0000
  const MaxInt64: int := 0x7FFF_FFFF_FFFF_FFFF

  predicate IsDigit(c: char) {
    '0' <= c <= '9'
  }

  predicate AllDigits(s: string) {
    forall i :: 0 <= i < |s| ==> IsDigit(s[i])
  }

  /** The value of a decimal digit string, most significant digit first. */
  function DigitsValue(s: string): nat
    requires AllDigits(s)
  {
    if |s| == 0 then 0 else 10 * DigitsValue(s[..|s| - 1]) + (s[|s| - 1] as int - '0' as int)
  }

  /** strconv.Atoi: an optional sign, one or more decimal digits, and a value that fits an int. */
  function Atoi(s: string): (r: Result<int>)
    ensures r.Ok? ==> MinInt64 <= r.value <= MaxInt64
    ensures r.Ok? ==> |s| > 0 && (IsDigit(s[0]) || s[0] == '+' || s[0] == '-')
  {
    var signed := |s| > 0 && (s[0] == '+' || s[0] == '-');
    var digits := if signed then s[1..] else s;
    if |digits| == 0 || !AllDigits(digits) then Err("invalid syntax")
    else
      var v: int := if signed && s[0] == '-' then -(DigitsValue(digits) as int) else DigitsValue(digits);
      if v < MinInt64 || v > MaxInt64 then Err("value out of range") else Ok(v)
  }

  /** Decimal rendering of a natural number (strconv.Itoa for n >= 0). */
  function NatToDigits(n: nat): (s: string)
    ensures |s| >= 1 && AllDigits(s)
  {
    if n < 10 then [('0' as int + n) as char]
    else NatToDigits(n / 10) + [('0' as int + n % 10) as char]
  }

  /** strconv.Itoa. */
  function FormatInt(n: int): (s: string)
    ensures |s| >= 1
  {
    if n < 0 then "-" + NatToDigits(-n) else NatToDigits(n)
  }

  lemma {:induction false} DigitsRoundTrip(n: nat)
    ensures DigitsValue(NatToDigits(n)) == n
  {
    if n >= 10 {
      DigitsRoundTrip(n / 10);
      var s := NatToDigits(n);
      assert s[..|s| - 1] == NatToDigits(n / 10);
    }
  }

  /** Atoi reads back every 64-bit integer that Itoa writes. */
  lemma AtoiFormatInt(n: int)
    requires MinInt64 <= n <= MaxInt64
    ensures Atoi(FormatInt(n)) == Ok(n)
  {
    if n < 0 {
      var d := NatToDigits(-n);
      DigitsRoundTrip(-n);
      var s := "-" + d;
      assert s[0] == '-' && s[1..] == d;
      assert FormatInt(n) == s;
    } else {
      var d := NatToDigits(n);
      DigitsRoundTrip(n);
      assert IsDigit(d[0]);
      assert FormatInt(n) == d;
    }
  }

  /** A rendered integer contains no separator characters and no white space. */
  lemma FormatIntChars(n: int, i: int)
    requires 0 <= i < |FormatInt(n)|
    ensures IsDigit(FormatInt(n)[i]) || FormatInt(n)[i] == '-'
  {
    if n < 0 {
      assert FormatInt(n)[i] == ("-" + NatToDigits(-n))[i];
    }
  }

  /** Number of bytes in the UTF-8 encoding of one scalar value. */
  function Utf8Width(c: char): nat {
    if c as int < 0x80 then 1 else if c as int < 0x800 then 2 else if c as int < 0x10000 then 3 else 4
  }

  /** Go's len on a string: its length in UTF-8 bytes. */
  function ByteLen(s: string): (n: nat)
    ensures |s| <= n <= 4 * |s|
  {
    if |s| == 0 then 0 else ByteLen(s[..|s| - 1]) + Utf8Width(s[|s| - 1])
  }
}
