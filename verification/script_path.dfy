/** How the launcher hands the script's path to the Bun runtime
  * (`main.rs`): on Windows, the verbatim `\\?\` forms that canonical paths
  * take are turned back into ordinary paths, which Bun understands. */
module ScriptPath {
  import opened Common

  const VerbatimUnc := "\\\\?\\UNC\\"
  const Verbatim := "\\\\?\\"

  /** `normalize_script_path_for_bun`. `windows` is the target operating
    * system. A verbatim UNC path `\\?\UNC\server\share` becomes
    * `\\server\share`; any other verbatim path loses its `\\?\`; every other
    * path, and every path elsewhere than on Windows, is kept. */
  function NormalizeScriptPathForBun(raw: string, windows: bool): (r: string)
    ensures !windows ==> r == raw
    ensures windows && StartsWith(raw, VerbatimUnc) ==> r == "\\\\" + raw[|VerbatimUnc|..]
    ensures windows && !StartsWith(raw, VerbatimUnc) && StartsWith(raw, Verbatim) ==> r == raw[|Verbatim|..]
    ensures !StartsWith(raw, Verbatim) ==> r == raw
  {
    if !windows then raw
    else match StripPrefix(raw, VerbatimUnc)
      case Some(stripped) => "\\\\" + stripped
      case None =>
        match StripPrefix(raw, Verbatim)
        case Some(stripped) => stripped
        case None => raw
  }

  /** Every verbatim UNC path is also a verbatim path: checking the UNC form
    * first is what keeps its `UNC\` from surviving. */
  lemma UncIsVerbatim(raw: string)
    requires StartsWith(raw, VerbatimUnc)
    ensures StartsWith(raw, Verbatim)
    ensures NormalizeScriptPathForBun(raw, true) != raw[|Verbatim|..]
  {
    assert raw[..|Verbatim|] == VerbatimUnc[..|Verbatim|];
    var r := NormalizeScriptPathForBun(raw, true);
    assert r[0] == '\\';
    assert raw[|Verbatim|..][0] == 'U';
  }

  /** The verbatim form Windows gives a path: `\\?\UNC\` in place of the
    * leading `\\` of a network path, `\\?\` in front of any other. */
  function VerbatimForm(path: string): string {
    if StartsWith(path, "\\\\") then VerbatimUnc + path[2..] else Verbatim + path
  }

  /** Normalising undoes the verbatim form, for network paths and for every
    * other path that does not itself begin with `UNC\`. */
  lemma VerbatimRoundTrip(path: string)
    requires !StartsWith(path, "UNC\\")
    ensures NormalizeScriptPathForBun(VerbatimForm(path), true) == path
  {
    var v := VerbatimForm(path);
    if StartsWith(path, "\\\\") {
      assert v[..|VerbatimUnc|] == VerbatimUnc && v[|VerbatimUnc|..] == path[2..];
      assert "\\\\" + path[2..] == path;
    } else {
      assert v[..|Verbatim|] == Verbatim && v[|Verbatim|..] == path;
    }
  }
}
