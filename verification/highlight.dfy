/** The name of the file returned by `/highlight_pdf`
    (corbas_backend_NOCACHE.py): the uploaded name without its last
    `.`-suffix, followed by `_highlighted.pdf`. */
module Highlight {
  import opened Wrappers

  const Suffix := "_highlighted.pdf"

  /** The position of the last `.` in `s`, if there is one. */
  function LastDot(s: string): (r: Option<nat>)
    ensures r.Some? ==> r.value < |s| && s[r.value] == '.' && '.' !in s[r.value + 1..]
    ensures r.None? <==> '.' !in s
  {
    if s == [] then None
    else if s[|s| - 1] == '.' then Some(|s| - 1)
    else
      var r := LastDot(s[..|s| - 1]);
      assert s == s[..|s| - 1] + [s[|s| - 1]];
      r
  }

  /** The first part of `name.rsplit('.', 1)`: everything before the last
      `.`, or the whole name when it has none. */
  function Stem(name: string): (stem: string)
    ensures stem <= name
    ensures '.' !in name ==> stem == name
    ensures '.' in name ==> |stem| < |name| && name[|stem|] == '.' && '.' !in name[|stem| + 1..]
  {
    match LastDot(name)
    case None => name
    case Some(i) => name[..i]
  }

  /** The download name of the highlighted copy of `filename`. */
  function HighlightedName(filename: string): (out: string)
    ensures |out| >= |Suffix| && out[|out| - |Suffix|..] == Suffix
    ensures out[..|out| - |Suffix|] <= filename
  {
    Stem(filename) + Suffix
  }

  /** A `.` with no `.` after it is the last one. */
  lemma LastDotUnique(s: string, i: nat)
    requires i < |s| && s[i] == '.' && '.' !in s[i + 1..]
    ensures LastDot(s) == Some(i)
  {
    var r := LastDot(s);
    assert s[i] in s;
    forall j | i < j < |s| ensures s[j] != '.' {
      assert s[j] == s[i + 1..][j - i - 1];
    }
    forall j | r.value < j < |s| ensures s[j] != '.' {
      assert s[j] == s[r.value + 1..][j - r.value - 1];
    }
  }

  /** Only the last suffix is removed: `stem.ext` becomes
      `stem_highlighted.pdf` whatever dots `stem` itself holds. */
  lemma HighlightedNameDropsLastSuffix(stem: string, ext: string)
    requires '.' !in ext
    ensures HighlightedName(stem + "." + ext) == stem + Suffix
  {
    var name := stem + "." + ext;
    assert name[|stem| + 1..] == ext;
    LastDotUnique(name, |stem|);
    assert name[..|stem|] == stem;
  }

  /** A name without a dot is kept whole. */
  lemma HighlightedNameWithoutDot(name: string)
    requires '.' !in name
    ensures HighlightedName(name) == name + Suffix
  {
  }
}
