/**
 * The "is this report empty?" test the application applies before saving or
 * exporting: Python's `text.strip() == ""`, where `strip()` with no argument
 * removes leading and trailing whitespace as `str.isspace()` defines it.
 */
module Blank {

  /** The characters `str.isspace()` accepts: Unicode whitespace (category Zs,
      bidirectional classes WS, B and S). */
  predicate IsSpace(c: char) {
    ('\t' <= c <= '\r') || ('\U{1C}' <= c <= '\U{1F}') || c == ' ' ||
    c == '\U{85}' || c == '\U{A0}' || c == '\U{1680}' ||
    ('\U{2000}' <= c <= '\U{200A}') || c == '\U{2028}' || c == '\U{2029}' ||
    c == '\U{202F}' || c == '\U{205F}' || c == '\U{3000}'
  }

  predicate AllSpace(s: string) {
    forall i :: 0 <= i < |s| ==> IsSpace(s[i])
  }

  /** `s.lstrip()`: the longest suffix of `s` that does not start with whitespace. */
  function TrimStart(s: string): (r: string)
    ensures |r| <= |s| && r == s[|s| - |r|..]
    ensures r == [] || !IsSpace(r[0])
    ensures AllSpace(s[..|s| - |r|])
  {
    if s != [] && IsSpace(s[0]) then
      var r := TrimStart(s[1..]);
      assert s[..|s| - |r|] == [s[0]] + s[1..][..|s| - 1 - |r|];
      r
    else
      s
  }

  /** `s.rstrip()`: the longest prefix of `s` that does not end with whitespace. */
  function TrimEnd(s: string): (r: string)
    ensures |r| <= |s| && r == s[..|r|]
    ensures r == [] || !IsSpace(r[|r| - 1])
    ensures AllSpace(s[|r|..])
  {
    if s != [] && IsSpace(s[|s| - 1]) then
      var r := TrimEnd(s[..|s| - 1]);
      assert s[|r|..] == s[..|s| - 1][|r|..] + [s[|s| - 1]];
      r
    else
      s
  }

  /** `s.strip()`: what is left after removing whitespace at both ends. The
      result is the slice `s[k..k + |r|]` with only whitespace around it. */
  function Strip(s: string): (r: string)
    ensures |r| <= |s|
    ensures var k := |s| - |TrimStart(s)|;
      k + |r| <= |s| && r == s[k..k + |r|] && AllSpace(s[..k]) && AllSpace(s[k + |r|..])
    ensures r == [] || (!IsSpace(r[0]) && !IsSpace(r[|r| - 1]))
  {
    StripIsSlice(s);
    TrimEnd(TrimStart(s))
  }

  /** Trimming the end of what `TrimStart` left gives a slice of `s` with only
      whitespace on either side of it. */
  lemma StripIsSlice(s: string)
    ensures var k, r := |s| - |TrimStart(s)|, TrimEnd(TrimStart(s));
      k + |r| <= |s| && r == s[k..k + |r|] && AllSpace(s[..k]) && AllSpace(s[k + |r|..])
  {
    var t := TrimStart(s);
    var r := TrimEnd(t);
    var k := |s| - |t|;
    assert s[k + |r|..] == t[|r|..];
  }

  /** The guard `text.strip() == ""` of medvi.py. */
  predicate IsBlank(s: string) {
    Strip(s) == ""
  }

  /** Stripping leaves nothing exactly when every character is whitespace. */
  lemma StripEmptyIffAllSpace(s: string)
    ensures Strip(s) == [] <==> AllSpace(s)
  {
    var t := TrimStart(s);
    if Strip(s) == [] {
      assert AllSpace(t[0..]);
      if t != [] {
        assert false;
      }
      assert s == s[..|s| - |t|];
    } else {
      var r := Strip(s);
      assert r[0] == t[0] == s[|s| - |t|];
    }
  }

  lemma BlankIffAllSpace(s: string)
    ensures IsBlank(s) <==> AllSpace(s)
  {
    StripEmptyIffAllSpace(s);
  }

  /** A string holding a character that is not whitespace is never blank. */
  lemma NotBlankWitness(s: string, i: nat)
    requires i < |s| && !IsSpace(s[i])
    ensures !IsBlank(s)
  {
    BlankIffAllSpace(s);
  }

  /** The newline Tk appends when the text box is read does not change the
      blank test: `(t + "\n").strip() == ""` exactly when `t.strip() == ""`. */
  lemma BlankIgnoresFinalNewline(s: string)
    ensures IsBlank(s + "\n") <==> IsBlank(s)
  {
    BlankIffAllSpace(s);
    BlankIffAllSpace(s + "\n");
    assert IsSpace('\n');
    if AllSpace(s + "\n") {
      forall i | 0 <= i < |s| ensures IsSpace(s[i]) {
        assert s[i] == (s + "\n")[i];
      }
    }
  }
}
