/**
 * Random helpers (pkg/utils/randomizer.go). Each `rand` call is an injected draw satisfying
 * the range the Go call guarantees; `time.Sleep` is dropped and RandomSleep returns the
 * duration it would sleep for.
 */
module Randomizer {

  // ---------------------------------------------------------------------------------------
  // Draw arithmetic
  // ---------------------------------------------------------------------------------------

  /**
   * RandomSleep: `draw` stands for rand.Int63n(max - min) and is only made when max > min.
   * The duration is min for an empty range, otherwise in [min, max).
   */
  function RandomSleep(min: int, max: int, draw: int): (d: int)
    requires max > min ==> 0 <= draw < max - min
    ensures max <= min ==> d == min
    ensures max > min ==> min <= d < max
  {
    if max <= min then min else draw + min
  }

  /** Every duration of the range is slept for some draw, so the range is not narrowed. */
  lemma RandomSleepCovers(min: int, max: int, d: int)
    requires min <= d < max
    ensures exists draw :: 0 <= draw < max - min && RandomSleep(min, max, draw) == d
  {
    assert RandomSleep(min, max, d - min) == d;
  }

  /** RandomInt: `draw` stands for rand.Intn(max - min + 1); the result is in [min, max]. */
  function RandomInt(min: int, max: int, draw: int): (r: int)
    requires max > min ==> 0 <= draw <= max - min
    ensures max <= min ==> r == min
    ensures max > min ==> min <= r <= max
  {
    if max <= min then min else draw + min
  }

  /** Both ends of the range are reachable, and so is everything in between. */
  lemma RandomIntCovers(min: int, max: int, r: int)
    requires min < max && min <= r <= max
    ensures exists draw :: 0 <= draw <= max - min && RandomInt(min, max, draw) == r
  {
    assert RandomInt(min, max, r - min) == r;
  }

  /** RandomChoice: "" for no choices, otherwise the element at the drawn index. */
  function RandomChoice(choices: seq<string>, draw: int): (r: string)
    requires |choices| > 0 ==> 0 <= draw < |choices|
    ensures |choices| == 0 ==> r == ""
    ensures |choices| > 0 ==> r in choices
  {
    if |choices| == 0 then "" else choices[draw]
  }

  /** Every choice can be returned. */
  lemma RandomChoiceCovers(choices: seq<string>, c: string)
    requires c in choices
    ensures exists draw :: 0 <= draw < |choices| && RandomChoice(choices, draw) == c
  {
    var i :| 0 <= i < |choices| && choices[i] == c;
    assert RandomChoice(choices, i) == c;
  }

  /** The six user agents GenerateRandomUserAgent picks from. */
  const RandomUserAgents: seq<string> := [
    "Mozilla/5.0 (Windows NT 10.0; Win64; x64) AppleWebKit/537.36 (KHTML, like Gecko) Chrome/119.0.0.0 Safari/537.36",
    "Mozilla/5.0 (Macintosh; Intel Mac OS X 10_15_7) AppleWebKit/537.36 (KHTML, like Gecko) Chrome/119.0.0.0 Safari/537.36",
    "Mozilla/5.0 (X11; Linux x86_64) AppleWebKit/537.36 (KHTML, like Gecko) Chrome/119.0.0.0 Safari/537.36",
    "Mozilla/5.0 (Windows NT 10.0; Win64; x64; rv:109.0) Gecko/20100101 Firefox/119.0",
    "Mozilla/5.0 (Macintosh; Intel Mac OS X 10.15; rv:109.0) Gecko/20100101 Firefox/119.0",
    "Mozilla/5.0 (X11; Linux x86_64; rv:109.0) Gecko/20100101 Firefox/119.0"
  ]

  /** GenerateRandomUserAgent: RandomChoice over the six fixed strings, so never "". */
  function GenerateRandomUserAgent(draw: int): (ua: string)
    requires 0 <= draw < |RandomUserAgents|
    ensures ua in RandomUserAgents
  {
    RandomChoice(RandomUserAgents, draw)
  }

  // ---------------------------------------------------------------------------------------
  // ShuffleStrings: rand.Shuffle's Fisher-Yates pass, in place
  // ---------------------------------------------------------------------------------------

  /** `draw(i)` is the index rand.Shuffle swaps with position `i`: a value in [0, i]. */
  ghost predicate ShuffleDraws(draw: nat -> nat, n: int) {
    forall i: nat :: 0 < i < n ==> draw(i) <= i
  }

  function Swap(s: seq<string>, i: nat, j: nat): (t: seq<string>)
    requires i < |s| && j < |s|
  {
    s[i := s[j]][j := s[i]]
  }

  /** The rest of the pass once positions above `i` are done: swaps at i, i - 1, ..., 1. */
  function ShuffleFrom(s: seq<string>, i: int, draw: nat -> nat): seq<string>
    requires i < |s| && ShuffleDraws(draw, |s|)
    decreases i
  {
    if i <= 0 then s else ShuffleFrom(Swap(s, i, draw(i)), i - 1, draw)
  }

  /** The whole pass, from the last position down to position 1. */
  function Shuffled(s: seq<string>, draw: nat -> nat): seq<string>
    requires ShuffleDraws(draw, |s|)
  {
    ShuffleFrom(s, |s| - 1, draw)
  }

  /** ShuffleStrings: swaps only, in the order rand.Shuffle makes them. */
  method ShuffleStrings(slice: array<string>, draw: nat -> nat)
    requires ShuffleDraws(draw, slice.Length)
    modifies slice
    ensures slice[..] == Shuffled(old(slice[..]), draw)
    ensures multiset(slice[..]) == multiset(old(slice[..]))
  {
    var i := slice.Length - 1;
    while i > 0
      invariant i < slice.Length
      invariant ShuffleFrom(slice[..], i, draw) == Shuffled(old(slice[..]), draw)
      decreases i
    {
      var j := draw(i);
      slice[i], slice[j] := slice[j], slice[i];
      i := i - 1;
    }
    ShuffledIsPermutation(old(slice[..]), draw);
  }

  /** The pass keeps the length and the multiset of elements. */
  lemma ShuffledIsPermutation(s: seq<string>, draw: nat -> nat)
    requires ShuffleDraws(draw, |s|)
    ensures |Shuffled(s, draw)| == |s|
    ensures multiset(Shuffled(s, draw)) == multiset(s)
  {
    ShuffleFromIsPermutation(s, |s| - 1, draw);
  }

  lemma {:induction false} ShuffleFromIsPermutation(s: seq<string>, i: int, draw: nat -> nat)
    requires i < |s| && ShuffleDraws(draw, |s|)
    ensures |ShuffleFrom(s, i, draw)| == |s|
    ensures multiset(ShuffleFrom(s, i, draw)) == multiset(s)
    decreases i
  {
    if i > 0 {
      SwapIsPermutation(s, i, draw(i));
      ShuffleFromIsPermutation(Swap(s, i, draw(i)), i - 1, draw);
    }
  }

  lemma SwapIsPermutation(s: seq<string>, i: nat, j: nat)
    requires i < |s| && j < |s|
    ensures |Swap(s, i, j)| == |s|
    ensures multiset(Swap(s, i, j)) == multiset(s)
  {
    var t := s[i := s[j]];
    assert multiset(t) == multiset(s) - multiset{s[i]} + multiset{s[j]};
    assert multiset(t[j := s[i]]) == multiset(t) - multiset{t[j]} + multiset{s[i]};
  }
}
