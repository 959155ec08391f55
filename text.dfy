/** The string predicates the views and handlers use: JavaScript truthiness
    of a string and `String.prototype.trim`. */
module Text {
  import opened Wrappers

  /** The code points `trim` removes: the ECMAScript WhiteSpace and
      LineTerminator productions (section 12.2 and 12.3 of ECMA-262). */
  predicate IsSpace(c: char)
  {
    || c == '\t' || c == '\n' || c == '\U{000B}' || c == '\U{000C}' || c == '\r'
    || c == ' ' || c == '\U{00A0}' || c == '\U{1680}'
    || ('\U{2000}' <= c <= '\U{200A}')
    || c == '\U{2028}' || c == '\U{2029}' || c == '\U{202F}' || c == '\U{205F}'
    || c == '\U{3000}' || c == '\U{FEFF}'
  }

  /** Every character of `s` is white space (true of the empty string). */
  predicate AllSpace(s: string)
  {
    forall i :: 0 <= i < |s| ==> IsSpace(s[i])
  }

  /** One more leading white-space character in front of a string whose
      trimmed suffix is `r` leaves the same suffix. */
  lemma SkipSpace(s: string, r: string)
    requires |s| > 0 && IsSpace(s[0])
    requires |r| <= |s| - 1 && r == s[1..][|s| - 1 - |r|..]
    requires AllSpace(s[1..][..|s| - 1 - |r|])
    ensures r == s[|s| - |r|..]
    ensures AllSpace(s[..|s| - |r|])
  {
    forall i | 0 < i < |s| - |r|
      ensures IsSpace(s[i])
    {
      assert s[i] == s[1..][..|s| - 1 - |r|][i - 1];
    }
  }

  /** `s` with its leading white space removed: a suffix of `s` that does
      not start with white space. */
  function TrimStart(s: string): (r: string)
    ensures |r| <= |s| && r == s[|s| - |r|..]
    ensures AllSpace(s[..|s| - |r|])
    ensures r == [] || !IsSpace(r[0])
  {
    if |s| > 0 && IsSpace(s[0]) then
      var r := TrimStart(s[1..]);
      SkipSpace(s, r);
      r
    else
      assert s[..0] == [];
      s
  }

  /** `s` with its trailing white space removed: a prefix of `s` that does
      not end with white space. */
  function TrimEnd(s: string): (r: string)
    ensures |r| <= |s| && r == s[..|r|]
    ensures AllSpace(s[|r|..])
    ensures r == [] || !IsSpace(r[|r| - 1])
  {
    if |s| > 0 && IsSpace(s[|s| - 1]) then
      var r := TrimEnd(s[..|s| - 1]);
      assert s[|r|..] == s[..|s| - 1][|r|..] + [s[|s| - 1]];
      r
    else s
  }

  /** Removing a leading run and then a trailing run of white space leaves
      a slice of `s` with only white space on either side of it. */
  lemma TrimBetween(s: string, t: string, r: string)
    requires |t| <= |s| && t == s[|s| - |t|..] && AllSpace(s[..|s| - |t|])
    requires |r| <= |t| && r == t[..|r|] && AllSpace(t[|r|..])
    ensures exists i, j :: 0 <= i <= j <= |s| && r == s[i..j] && AllSpace(s[..i]) && AllSpace(s[j..])
  {
    var i := |s| - |t|;
    var j := i + |r|;
    assert r == s[i..j];
    assert s[j..] == t[|r|..];
  }

  /** `String.prototype.trim`: the slice of `s` between its leading and its
      trailing white space. */
  function Trim(s: string): (r: string)
    ensures |r| <= |s|
    ensures r == [] || (!IsSpace(r[0]) && !IsSpace(r[|r| - 1]))
    ensures r == [] <==> AllSpace(s)
  {
    var t := TrimStart(s);
    var r := TrimEnd(t);
    assert r != [] ==> r[0] == t[0];
    assert t == [] ==> AllSpace(s) by {
      if t == [] { assert s[..|s|] == s; }
    }
    r
  }

  /** What `trim` keeps is the slice of `s` between its leading and its
      trailing white space. */
  lemma TrimIsSlice(s: string)
    ensures exists i, j :: 0 <= i <= j <= |s| && Trim(s) == s[i..j] && AllSpace(s[..i]) && AllSpace(s[j..])
  {
    TrimBetween(s, TrimStart(s), Trim(s));
  }

  /** A form field the views treat as filled in: `value.trim()` is truthy,
      which by `Trim`'s contract is that some character is not white
      space. */
  predicate IsFilled(s: string)
  {
    !AllSpace(s)
  }

  /** JavaScript truthiness of an optional string field: `undefined`/`null`
      and the empty string are falsy, every other string is truthy. */
  predicate Truthy(o: Option<string>)
  {
    o.Some? && o.value != ""
  }

  /** Trimming twice is trimming once: a trimmed string has neither leading
      nor trailing white space. */
  lemma {:induction false} TrimIdempotent(s: string)
    ensures Trim(Trim(s)) == Trim(s)
  {
    var r := Trim(s);
    assert TrimStart(r) == r;
    assert TrimEnd(r) == r;
  }

  /** A filled field trims to a non-empty string with a non-blank character
      at both ends, which is what a handler then sends. */
  lemma FilledTrimIsTruthy(s: string)
    requires IsFilled(s)
    ensures Truthy(Some(Trim(s)))
    ensures !IsSpace(Trim(s)[0])
  {
  }
}
