/**
 * Slice helpers (internal/util.go): membership and order-preserving de-duplication. The
 * de-duplication loop of pkg/utils/validator.go is the same algorithm and shares this model.
 */
module Util {

  /** ContainsString: a scan that returns as soon as an element equals `str`. */
  method ContainsString(slice: seq<string>, str: string) returns (found: bool)
    ensures found <==> str in slice
  {
    for i := 0 to |slice|
      invariant str !in slice[..i]
    {
      if slice[i] == str {
        return true;
      }
    }
    assert slice[..|slice|] == slice;
    return false;
  }

  // ---------------------------------------------------------------------------------------
  // De-duplication
  // ---------------------------------------------------------------------------------------

  /** The elements of `s` at their first occurrence, in order. */
  function Distinct<T(==)>(s: seq<T>): seq<T> {
    if |s| == 0 then []
    else
      var d := Distinct(s[..|s| - 1]);
      if s[|s| - 1] in s[..|s| - 1] then d else d + [s[|s| - 1]]
  }

  /** RemoveDuplicates: `unique` records what has been kept so far (a missing key reads false). */
  method RemoveDuplicates(slice: seq<string>) returns (result: seq<string>)
    ensures result == Distinct(slice)
  {
    var unique: map<string, bool> := map[];
    result := [];
    for i := 0 to |slice|
      invariant result == Distinct(slice[..i])
      invariant forall v :: v in unique <==> v in slice[..i]
      invariant forall v :: v in unique ==> unique[v]
    {
      var v := slice[i];
      assert slice[..i + 1][..i] == slice[..i];
      if !(v in unique && unique[v]) {
        unique := unique[v := true];
        result := result + [v];
      }
    }
    assert slice[..|slice|] == slice;
  }

  predicate NoRepeats<T(==)>(s: seq<T>) {
    forall i, j :: 0 <= i < j < |s| ==> s[i] != s[j]
  }

  /** Nothing appears twice in the output. */
  lemma {:induction false} DistinctNoRepeats<T>(s: seq<T>)
    ensures NoRepeats(Distinct(s))
  {
    if |s| > 0 {
      DistinctNoRepeats(s[..|s| - 1]);
      DistinctSameElements(s[..|s| - 1]);
    }
  }

  /** The output holds exactly the input's elements. */
  lemma {:induction false} DistinctSameElements<T>(s: seq<T>)
    ensures forall v :: v in Distinct(s) <==> v in s
  {
    if |s| > 0 {
      var init := s[..|s| - 1];
      DistinctSameElements(init);
      assert s == init + [s[|s| - 1]];
    }
  }

  /** The position of the first occurrence of `v`. */
  function FirstIndex<T(==)>(s: seq<T>, v: T): (k: nat)
    requires v in s
    ensures k < |s| && s[k] == v
    ensures forall j :: 0 <= j < k ==> s[j] != v
  {
    if s[0] == v then 0
    else
      assert s == [s[0]] + s[1..];
      FirstIndex(s[1..], v) + 1
  }

  /** Two positions that are both first occurrences of `v` coincide. */
  lemma FirstIndexUnique<T>(s: seq<T>, v: T, k: nat)
    requires k < |s| && s[k] == v
    requires forall j :: 0 <= j < k ==> s[j] != v
    ensures FirstIndex(s, v) == k
  {
  }

  /** The output lists the elements in the order of their first occurrence in the input. */
  lemma {:induction false} DistinctKeepsFirstOrder<T>(s: seq<T>)
    ensures forall v :: v in Distinct(s) ==> v in s
    ensures forall i, j :: 0 <= i < j < |Distinct(s)|
              ==> FirstIndex(s, Distinct(s)[i]) < FirstIndex(s, Distinct(s)[j])
  {
    DistinctSameElements(s);
    if |s| > 0 {
      var init := s[..|s| - 1];
      var x := s[|s| - 1];
      var d := Distinct(init);
      DistinctKeepsFirstOrder(init);
      DistinctSameElements(init);
      forall v | v in init
        ensures FirstIndex(s, v) == FirstIndex(init, v)
      {
        FirstIndexUnique(s, v, FirstIndex(init, v));
      }
      if x !in init {
        FirstIndexUnique(s, x, |s| - 1);
        forall i, j | 0 <= i < j < |Distinct(s)|
          ensures FirstIndex(s, Distinct(s)[i]) < FirstIndex(s, Distinct(s)[j])
        {
          if j < |d| {
            assert Distinct(s)[i] == d[i] && Distinct(s)[j] == d[j];
          } else {
            assert Distinct(s)[i] == d[i] && d[i] in init;
          }
        }
      }
    }
  }

  /** A list without repeats is left as it is. */
  lemma {:induction false} DistinctOfNoRepeats<T>(s: seq<T>)
    requires NoRepeats(s)
    ensures Distinct(s) == s
  {
    if |s| > 0 {
      var init := s[..|s| - 1];
      assert NoRepeats(init);
      DistinctOfNoRepeats(init);
      assert s[|s| - 1] !in init;
      assert init + [s[|s| - 1]] == s;
    }
  }

  /** De-duplicating twice is de-duplicating once. */
  lemma DistinctIdempotent<T>(s: seq<T>)
    ensures Distinct(Distinct(s)) == Distinct(s)
  {
    DistinctNoRepeats(s);
    DistinctOfNoRepeats(Distinct(s));
  }
}
