/**
 * The output-path helper of the scraper command (cmd/scraper/main.go): changeExtension.
 * Go scans the bytes of the name; '.' is ASCII and never occurs inside a multi-byte UTF-8
 * sequence, so scanning characters finds the same cut.
 */
module Command {
  import opened Wrappers

  /** The position of the last '.', found by scanning backwards. */
  function LastDot(s: string): (r: Option<nat>)
    ensures r.Some? ==> r.value < |s| && s[r.value] == '.'
    ensures r.Some? ==> forall j :: r.value < j < |s| ==> s[j] != '.'
    ensures r.None? ==> '.' !in s
  {
    if |s| == 0 then None
    else if s[|s| - 1] == '.' then Some(|s| - 1)
    else
      assert s == s[..|s| - 1] + [s[|s| - 1]];
      LastDot(s[..|s| - 1])
  }

  /** changeExtension: cut at the last '.' of the whole path, if any, then append newExt. */
  function ChangeExtension(filename: string, newExt: string): (r: string)
    ensures |newExt| <= |r| && r[|r| - |newExt|..] == newExt
  {
    match LastDot(filename)
    case Some(i) => filename[..i] + newExt
    case None => filename + newExt
  }

  /** With a '.' at position k and none after it, everything from k on is replaced. */
  lemma ChangeExtensionCutsAtLastDot(filename: string, newExt: string, k: nat)
    requires k < |filename| && filename[k] == '.'
    requires forall j :: k < j < |filename| ==> filename[j] != '.'
    ensures ChangeExtension(filename, newExt) == filename[..k] + newExt
  {
  }

  /** Without any '.', the extension is appended to the whole name. */
  lemma ChangeExtensionWithoutDot(filename: string, newExt: string)
    requires '.' !in filename
    ensures ChangeExtension(filename, newExt) == filename + newExt
  {
  }

  /** The search is not limited to the last path element: "a.b/c" loses "b/c" too. */
  lemma ChangeExtensionCutsDirectoryDot(filename: string, newExt: string)
    requires filename == "a.b/c"
    ensures ChangeExtension(filename, newExt) == "a" + newExt
  {
    ChangeExtensionCutsAtLastDot(filename, newExt, 1);
  }

  /** Changing to an extension whose only '.' leads it a second time changes nothing. */
  lemma ChangeExtensionIdempotent(filename: string, newExt: string)
    requires |newExt| > 0 && newExt[0] == '.' && '.' !in newExt[1..]
    ensures ChangeExtension(ChangeExtension(filename, newExt), newExt)
            == ChangeExtension(filename, newExt)
  {
    var r := ChangeExtension(filename, newExt);
    var prefix := r[..|r| - |newExt|];
    assert r == prefix + newExt;
    assert r[|prefix|] == '.';
    assert forall j :: |prefix| < j < |r| ==> r[j] == newExt[1..][j - |prefix| - 1];
    ChangeExtensionCutsAtLastDot(r, newExt, |prefix|);
  }
}
