/** The command-line report's path shortening (src/main.rs): long paths are shown as
    "..." followed by their tail, counted in characters rather than bytes. */
module Cli {
  import opened Common

  /** The marker put in front of a shortened path. */
  const ELLIPSIS: string := "..."

  /** `truncate_path`: a path of at most `maxLen` characters is shown as it is; a
      longer one keeps only its last `maxLen - 3` characters (none when `maxLen` is
      below 3) behind the marker. */
  function TruncatePath(path: string, maxLen: nat): (r: string)
    ensures |path| <= maxLen ==> r == path
    ensures |path| > maxLen ==>
      && |r| == |ELLIPSIS| + SaturatingSub(maxLen, |ELLIPSIS|)
      && r[..|ELLIPSIS|] == ELLIPSIS
      && r[|ELLIPSIS|..] == path[|path| - (|r| - |ELLIPSIS|)..]
  {
    var charCount := |path|;
    if charCount <= maxLen then path
    else
      var available := SaturatingSub(maxLen, |ELLIPSIS|);
      ELLIPSIS + path[SaturatingSub(charCount, available)..]
  }

  /** The shortened path never exceeds `maxLen` characters once there is room for the
      marker, and a shortened path uses all of it; below that the marker alone
      overshoots the limit. */
  lemma TruncateFits(path: string, maxLen: nat)
    ensures |TruncatePath(path, maxLen)| <= Max(maxLen, |ELLIPSIS|)
    ensures |path| > maxLen >= |ELLIPSIS| ==> |TruncatePath(path, maxLen)| == maxLen
    ensures |path| > maxLen && maxLen < |ELLIPSIS| ==> TruncatePath(path, maxLen) == ELLIPSIS
  {
    if |path| > maxLen && maxLen < |ELLIPSIS| {
      var r := TruncatePath(path, maxLen);
      assert r == r[..|ELLIPSIS|] + r[|ELLIPSIS|..];
    }
  }

  /** Shortening an already shortened path changes nothing, once the limit leaves
      room for the marker. */
  lemma TruncateIdempotent(path: string, maxLen: nat)
    requires maxLen >= |ELLIPSIS|
    ensures TruncatePath(TruncatePath(path, maxLen), maxLen) == TruncatePath(path, maxLen)
  {
    TruncateFits(path, maxLen);
  }

  /** A 60-character path shown in a 50-character column keeps its last 47 characters. */
  lemma TruncateExample()
    ensures var p := seq(60, i => if i < 13 then 'a' else 'b');
      TruncatePath(p, 50) == ELLIPSIS + seq(47, i => 'b')
  {
    var p := seq(60, i => if i < 13 then 'a' else 'b');
    assert p[13..] == seq(47, i => 'b');
  }
}
