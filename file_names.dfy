/**
 * `removeFileExtension`: `filename.replace(/\.[^/.]+$/, '')`. The pattern has no `g` flag
 * and no `m` flag, so at most one match is replaced and `$` is the end of the whole string.
 */
module FileNames {
  import opened Wrappers

  /**
   * The pattern `\.[^/.]+$` matches starting at `i`: a '.', then at least one character,
   * none of which is '/' or '.', running to the end of the string.
   */
  ghost predicate ExtensionAt(s: string, i: nat)
  {
    i + 1 < |s| && s[i] == '.' && forall j :: i < j < |s| ==> s[j] != '/' && s[j] != '.'
  }

  /** The pattern can start in at most one place: at the last '.'. */
  lemma ExtensionAtIsUnique(s: string, i: nat, j: nat)
    requires ExtensionAt(s, i) && ExtensionAt(s, j)
    ensures i == j
  {
  }

  /** The position of the last '.', if any. */
  function LastDot(s: string): (r: Option<nat>)
    ensures r.Some? ==> r.value < |s| && s[r.value] == '.' && forall j :: r.value < j < |s| ==> s[j] != '.'
    ensures r.None? <==> forall j :: 0 <= j < |s| ==> s[j] != '.'
  {
    if |s| == 0 then None
    else if s[|s| - 1] == '.' then Some(|s| - 1)
    else LastDot(s[..|s| - 1])
  }

  function RemoveFileExtension(filename: string): (r: string)
    ensures |r| <= |filename| && r == filename[..|r|]
    ensures forall i: nat :: ExtensionAt(filename, i) ==> r == filename[..i]
    ensures (forall i: nat :: !ExtensionAt(filename, i)) ==> r == filename
  {
    match LastDot(filename)
    case None => filename
    case Some(d) =>
      if d + 1 < |filename| && forall j :: d < j < |filename| ==> filename[j] != '/' then
        assert ExtensionAt(filename, d);
        filename[..d]
      else
        filename
  }

  /** A name without a '.' is returned unchanged, so every result without a '.' is a fixed point. */
  lemma NoDotIsFixedPoint(s: string)
    requires forall j :: 0 <= j < |s| ==> s[j] != '.'
    ensures RemoveFileExtension(s) == s
  {
  }

  /** What the function does to typical names. */
  lemma Examples()
    ensures RemoveFileExtension("receipt.png") == "receipt"
    ensures RemoveFileExtension("a.tar.gz") == "a.tar"
    ensures RemoveFileExtension("a.") == "a."
    ensures RemoveFileExtension("dir.v1/file") == "dir.v1/file"
    ensures RemoveFileExtension(".bashrc") == ""
  {
    assert ExtensionAt("receipt.png", 7);
    assert ExtensionAt("a.tar.gz", 5);
    assert !ExtensionAt("a.", 1);
    assert ExtensionAt(".bashrc", 0);
    assert "dir.v1/file"[6] == '/';
  }

  /** Not idempotent: each application removes one more extension of a multi-dot name. */
  lemma NotIdempotent()
    ensures RemoveFileExtension(RemoveFileExtension("a.tar.gz")) == "a"
    ensures RemoveFileExtension("a.tar.gz") != RemoveFileExtension(RemoveFileExtension("a.tar.gz"))
  {
    Examples();
    assert ExtensionAt("a.tar", 1);
  }
}
