/** String helpers the asset code uses: basename, URL-prefix tests, implode. */
module Strings {

  /**
   * The segment after the last '/', as `end(explode('/', s))` yields it
   * (the whole string when there is no '/', "" when s ends with '/').
   */
  function LastSegment(s: string): string
  {
    if s == [] || s[|s| - 1] == '/' then [] else LastSegment(s[..|s| - 1]) + [s[|s| - 1]]
  }

  /**
   * The last segment is a suffix of the path holding no '/', and it is the
   * whole path or preceded by a '/'.
   */
  lemma {:induction false} LastSegmentIsBaseName(s: string)
    ensures var r := LastSegment(s);
      && '/' !in r
      && |r| <= |s| && r == s[|s| - |r|..]
      && (|r| < |s| ==> s[|s| - |r| - 1] == '/')
  {
    if s != [] && s[|s| - 1] != '/' {
      var init := s[..|s| - 1];
      LastSegmentIsBaseName(init);
      var r' := LastSegment(init);
      var r := r' + [s[|s| - 1]];
      assert LastSegment(s) == r;
      assert s[|s| - |r|..] == init[|init| - |r'|..] + [s[|s| - 1]];
      if |r| < |s| {
        assert s[|s| - |r| - 1] == init[|init| - |r'| - 1];
      }
    }
  }

  /** ASCII lower-casing, as the `i` flag of a PCRE pattern compares letters. */
  function LowerChar(c: char): char
  {
    if 'A' <= c <= 'Z' then (c as int + 32) as char else c
  }

  /** `s` begins with the lower-case literal `p`, compared case-insensitively. */
  predicate StartsWithIgnoringCase(s: string, p: string)
  {
    |p| <= |s| && forall i :: 0 <= i < |p| ==> LowerChar(s[i]) == p[i]
  }

  /** The remote-reference test `#^(http://|https://|//)#i`. */
  predicate IsRemoteRef(f: string)
  {
    StartsWithIgnoringCase(f, "http://") || StartsWithIgnoringCase(f, "https://") || StartsWithIgnoringCase(f, "//")
  }

  /** A protocol-relative reference `//x` becomes `http://x`; anything else is kept. */
  function WithScheme(ref: string): (r: string)
    ensures |ref| >= 2 && ref[..2] == "//" ==> r == "http:" + ref
    ensures !(|ref| >= 2 && ref[..2] == "//") ==> r == ref
  {
    if |ref| >= 2 && ref[..2] == "//" then "http:" + ref else ref
  }

  /**
   * After the rewrite every remote reference names its scheme explicitly:
   * it starts with `http://` or `https://`, in any letter case.
   */
  lemma RemoteRefGetsScheme(ref: string)
    requires IsRemoteRef(ref)
    ensures StartsWithIgnoringCase(WithScheme(ref), "http://") || StartsWithIgnoringCase(WithScheme(ref), "https://")
  {
    if |ref| >= 2 && ref[..2] == "//" {
      var r := WithScheme(ref);
      assert r == "http:" + ref;
      assert forall i :: 0 <= i < 5 ==> r[i] == "http:"[i];
      assert r[5] == '/' && r[6] == '/';
    }
  }

  /** `implode("", parts)`: the parts concatenated in order. */
  function Implode(parts: seq<string>): string
  {
    if parts == [] then "" else parts[0] + Implode(parts[1..])
  }

  /** Imploding a longer list appends the last part's text. */
  lemma {:induction false} ImplodeSnoc(parts: seq<string>, p: string)
    ensures Implode(parts + [p]) == Implode(parts) + p
  {
    if parts != [] {
      assert (parts + [p])[1..] == parts[1..] + [p];
      ImplodeSnoc(parts[1..], p);
    }
  }
}
