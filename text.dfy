/**
 * The two string operations the pages rely on: `String.prototype.trim`,
 * which strips ECMAScript white space and line terminators from both ends,
 * and `String.prototype.includes`, substring search.
 */
module Text {

  /** WhiteSpace and LineTerminator code points of ECMAScript (sections 12.2 and 12.3 of ECMA-262). */
  predicate IsJsWhitespace(c: char) {
    || c == '\U{9}' || c == '\U{B}' || c == '\U{C}' || c == '\U{20}' || c == '\U{A0}' || c == '\U{FEFF}'
    || c == '\U{A}' || c == '\U{D}' || c == '\U{2028}' || c == '\U{2029}'
    || c == '\U{1680}' || ('\U{2000}' <= c <= '\U{200A}') || c == '\U{202F}' || c == '\U{205F}' || c == '\U{3000}'
  }

  predicate Blank(s: string) {
    forall i :: 0 <= i < |s| ==> IsJsWhitespace(s[i])
  }

  /** `trimStart`: drops leading white space. */
  function TrimStart(s: string): (r: string)
    ensures |r| <= |s|
  {
    if s != [] && IsJsWhitespace(s[0]) then TrimStart(s[1..]) else s
  }

  /** `trimEnd`: drops trailing white space. */
  function TrimEnd(s: string): (r: string)
    ensures |r| <= |s|
  {
    if s != [] && IsJsWhitespace(s[|s| - 1]) then TrimEnd(s[..|s| - 1]) else s
  }

  /** `s.trim()`. */
  function Trim(s: string): string {
    TrimEnd(TrimStart(s))
  }

  /** What trimStart removes is white space, and what it keeps does not start with any. */
  lemma {:induction false} TrimStartShape(s: string)
    ensures var r := TrimStart(s);
            && r == s[|s| - |r|..]
            && (r == [] || !IsJsWhitespace(r[0]))
            && Blank(s[..|s| - |r|])
  {
    if s != [] && IsJsWhitespace(s[0]) {
      TrimStartShape(s[1..]);
      var r := TrimStart(s[1..]);
      assert s[1..][..|s| - 1 - |r|] == s[1..|s| - |r|];
    }
  }

  /** What trimEnd removes is white space, and what it keeps does not end with any. */
  lemma {:induction false} TrimEndShape(s: string)
    ensures var r := TrimEnd(s);
            && r == s[..|r|]
            && (r == [] || !IsJsWhitespace(r[|r| - 1]))
            && Blank(s[|r|..])
  {
    if s != [] && IsJsWhitespace(s[|s| - 1]) {
      TrimEndShape(s[..|s| - 1]);
      var r := TrimEnd(s[..|s| - 1]);
      assert s[..|s| - 1][|r|..] == s[|r|..|s| - 1];
    }
  }

  /** The trimmed string is the piece of `s` left between white space at both ends, and is not padded itself. */
  lemma TrimShape(s: string)
    ensures var r := Trim(s);
            && (r == [] || (!IsJsWhitespace(r[0]) && !IsJsWhitespace(r[|r| - 1])))
            && exists i :: 0 <= i <= |s| - |r| && r == s[i..i + |r|] && Blank(s[..i]) && Blank(s[i + |r|..])
  {
    var t := TrimStart(s);
    var r := TrimEnd(t);
    TrimStartShape(s);
    TrimEndShape(t);
    var i := |s| - |t|;
    assert r == s[i..i + |r|];
    assert s[i + |r|..] == t[|r|..];
  }

  /** `!s.trim()` holds exactly for a string made only of white space. */
  lemma TrimEmptyIffBlank(s: string)
    ensures Trim(s) == [] <==> Blank(s)
  {
    var r := Trim(s);
    TrimShape(s);
    if r == [] {
      var i :| 0 <= i <= |s| && Blank(s[..i]) && Blank(s[i..]);
      forall k | 0 <= k < |s| ensures IsJsWhitespace(s[k]) {
        if k < i {
          assert s[..i][k] == s[k];
        } else {
          assert s[i..][k - i] == s[k];
        }
      }
    }
  }

  /** `!s.trim()`: trimming leaves nothing. */
  function TrimsToEmpty(s: string): (r: bool)
    ensures r <==> Blank(s)
  {
    TrimEmptyIffBlank(s);
    Trim(s) == ""
  }

  /** `q` occurs in `s` starting at position `i`. */
  predicate OccursAt(s: string, q: string, i: int) {
    0 <= i <= |s| - |q| && s[i..i + |q|] == q
  }

  /** `s.includes(q)`, searched from the front. */
  function Contains(s: string, q: string): bool
  {
    if q <= s then true
    else if s == [] then false
    else Contains(s[1..], q)
  }

  /** Substring search finds `q` exactly when it occurs at some position of `s`. */
  lemma {:induction false} ContainsIffOccurs(s: string, q: string)
    ensures Contains(s, q) <==> exists i :: OccursAt(s, q, i)
  {
    if q <= s {
      assert s[0..|q|] == q;
      assert OccursAt(s, q, 0);
    } else if s == [] {
    } else {
      ContainsIffOccurs(s[1..], q);
      if Contains(s[1..], q) {
        var i :| OccursAt(s[1..], q, i);
        assert s[1..][i..i + |q|] == s[i + 1..i + 1 + |q|];
        assert OccursAt(s, q, i + 1);
      }
      forall i | OccursAt(s, q, i) && i > 0 ensures OccursAt(s[1..], q, i - 1) {
        assert s[1..][i - 1..i - 1 + |q|] == s[i..i + |q|];
      }
    }
  }
}
