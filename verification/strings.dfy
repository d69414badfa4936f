/** The JavaScript string primitives the source relies on: `startsWith`,
    `endsWith`, `includes`, `trim` and ASCII case folding. A `string` is a
    sequence of Unicode scalar values. */
module Strings {

  predicate IsPrefix(p: string, s: string) {
    |p| <= |s| && s[..|p|] == p
  }

  predicate IsSuffix(p: string, s: string) {
    |p| <= |s| && s[|s| - |p|..] == p
  }

  /** `p` occurs in `s` starting at offset `i`. */
  predicate OccursAt(s: string, p: string, i: int) {
    0 <= i <= |s| - |p| && s[i..i + |p|] == p
  }

  /** `s.includes(p)`: `p` occurs at some offset of `s` (the empty string occurs everywhere). */
  predicate Contains(s: string, p: string)
    decreases |s|
  {
    IsPrefix(p, s) || (|s| > 0 && Contains(s[1..], p))
  }

  /** `Contains` agrees with the positional definition of a substring. */
  lemma {:induction false} ContainsAt(s: string, p: string)
    ensures Contains(s, p) <==> exists i :: OccursAt(s, p, i)
  {
    if Contains(s, p) {
      if !IsPrefix(p, s) {
        ContainsAt(s[1..], p);
        var i :| OccursAt(s[1..], p, i);
        assert s[1..][i..i + |p|] == s[i + 1..i + 1 + |p|];
        assert OccursAt(s, p, i + 1);
      } else {
        assert OccursAt(s, p, 0);
      }
    } else {
      forall i | OccursAt(s, p, i)
        ensures false
      {
        ContainsShift(s, p, i);
      }
    }
  }

  lemma {:induction false} ContainsShift(s: string, p: string, i: int)
    requires OccursAt(s, p, i)
    ensures Contains(s, p)
    decreases i
  {
    if i > 0 {
      assert s[1..][i - 1..i - 1 + |p|] == s[i..i + |p|];
      ContainsShift(s[1..], p, i - 1);
    } else {
      assert s[..|p|] == p;
    }
  }

  /** An occurrence inside a part is an occurrence in the whole. */
  lemma ContainsInPart(a: string, b: string, c: string, p: string)
    requires Contains(b, p)
    ensures Contains(a + b + c, p)
  {
    ContainsAt(b, p);
    var i :| OccursAt(b, p, i);
    assert (a + b + c)[|a| + i..|a| + i + |p|] == b[i..i + |p|];
    ContainsShift(a + b + c, p, |a| + i);
  }

  /** `includes` is transitive: an occurrence of `q` inside an occurrence of
      `p` is an occurrence of `q`. */
  lemma ContainsTrans(s: string, p: string, q: string)
    requires Contains(s, p) && Contains(p, q)
    ensures Contains(s, q)
  {
    ContainsAt(s, p);
    ContainsAt(p, q);
    var i :| OccursAt(s, p, i);
    var j :| OccursAt(p, q, j);
    var inS, inP := s[i + j..i + j + |q|], p[j..j + |q|];
    forall k | 0 <= k < |q|
      ensures inS[k] == inP[k]
    {
      assert p[j + k] == s[i..i + |p|][j + k];
    }
    assert inS == inP;
    ContainsShift(s, q, i + j);
  }

  /** An occurrence in a suffix is an occurrence in the whole. */
  lemma ContainsInSuffix(s: string, k: nat, p: string)
    requires k <= |s| && Contains(s[k..], p)
    ensures Contains(s, p)
  {
    ContainsInPart(s[..k], s[k..], [], p);
    assert s[..k] + s[k..] + [] == s;
  }

  /** An occurrence of `p` around the separator `c` lies on one side of it or
      spans it, and then `p` contains `c`. */
  lemma ContainsAcross(a: string, c: char, b: string, p: string)
    requires Contains(a + [c] + b, p)
    ensures Contains(a, p) || Contains(b, p) || c in p
  {
    var s := a + [c] + b;
    ContainsAt(s, p);
    var i :| OccursAt(s, p, i);
    if i + |p| <= |a| {
      assert a[i..i + |p|] == s[i..i + |p|];
      ContainsShift(a, p, i);
    } else if i > |a| {
      assert b[i - |a| - 1..i - |a| - 1 + |p|] == s[i..i + |p|];
      ContainsShift(b, p, i - |a| - 1);
    } else {
      assert s[|a|] == c;
      assert p[|a| - i] == s[i..i + |p|][|a| - i];
      assert c in p;
    }
  }

  /** A text missing one of the pattern's characters does not contain it. */
  lemma NotContainsChar(s: string, p: string, c: char)
    requires c in p && c !in s
    ensures !Contains(s, p)
  {
    ContainsAt(s, p);
  }

  /** A text shorter than the pattern does not contain it. */
  lemma ShortNotContains(s: string, p: string)
    requires |s| < |p|
    ensures !Contains(s, p)
  {
    ContainsAt(s, p);
  }

  /** A pattern missing from both sides of a separator it does not contain
      is missing from the whole. */
  lemma NotAcross(a: string, c: char, b: string, p: string)
    requires !Contains(a, p) && !Contains(b, p) && c !in p
    ensures !Contains(a + [c] + b, p)
  {
    if Contains(a + [c] + b, p) {
      ContainsAcross(a, c, b, p);
    }
  }

  /** A pattern lacking the character at `k`, shorter than the text before
      it and missing from the text after it, is missing from the whole. */
  lemma NotContainsCut(s: string, k: nat, p: string)
    requires k < |s| && k < |p| && s[k] !in p && !Contains(s[k + 1..], p)
    ensures !Contains(s, p)
  {
    var a, c, b := s[..k], s[k], s[k + 1..];
    ShortNotContains(a, p);
    NotAcross(a, c, b, p);
    assert a + [c] + b == s;
  }

  /** A pattern missing from `h` is missing from `x + h + y` when the last
      character of `x` and the first of `y` are characters it lacks and it
      does not occur in what lies beyond them. */
  lemma NotContainsAround(x: string, h: string, y: string, p: string)
    requires x != [] && x[|x| - 1] !in p && !Contains(x[..|x| - 1], p)
    requires !Contains(h, p)
    requires y == [] || (y[0] !in p && !Contains(y[1..], p))
    ensures !Contains(x + h + y, p)
  {
    var a := x[..|x| - 1];
    NotAcross(a, x[|x| - 1], h, p);
    assert x + h == a + [x[|x| - 1]] + h;
    if y == [] {
      assert x + h + y == x + h;
    } else {
      NotAcross(x + h, y[0], y[1..], p);
      assert x + h + y == (x + h) + [y[0]] + y[1..];
    }
  }

  /** `NotContainsAround` with the two outer texts shown free of `p` by a
      character of `p` each lacks. */
  lemma LacksAround(x: string, h: string, y: string, p: string, cx: char, cy: char)
    requires x != [] && x[|x| - 1] !in p && cx in p && cx !in x[..|x| - 1]
    requires y != [] && y[0] !in p && cy in p && cy !in y[1..]
    requires !Contains(h, p)
    ensures !Contains(x + h + y, p)
  {
    NotContainsChar(x[..|x| - 1], p, cx);
    NotContainsChar(y[1..], p, cy);
    NotContainsAround(x, h, y, p);
  }

  /** A pattern found in a part is found in the whole. */
  lemma ContainsMiddle(x: string, h: string, y: string, p: string)
    requires Contains(h, p)
    ensures Contains(x + h + y, p)
  {
    ContainsInPart(x, h, y, p);
  }

  /** A pattern found in the leading text is found in the whole. */
  lemma ContainsLeading(x: string, h: string, y: string, p: string)
    requires Contains(x, p)
    ensures Contains(x + h + y, p)
  {
    ContainsInPart([], x, h + y, p);
    assert [] + x + (h + y) == x + h + y;
  }

  /** A pattern found in the trailing text is found in the whole. */
  lemma ContainsTrailing(x: string, h: string, y: string, p: string)
    requires Contains(y, p)
    ensures Contains(x + h + y, p)
  {
    ContainsInPart(x + h, y, [], p);
    assert x + h + y + [] == x + h + y;
  }

  /** The characters `String.prototype.trim` removes: ECMAScript WhiteSpace
      (TAB, VT, FF, SP, NBSP, ZWNBSP and the Zs category) and LineTerminator. */
  predicate IsWhitespace(c: char) {
    c == '\t' || c == '\U{000B}' || c == '\U{000C}' || c == ' ' || c == '\U{00A0}'
    || c == '\U{FEFF}' || c == '\U{1680}' || ('\U{2000}' <= c <= '\U{200A}')
    || c == '\U{202F}' || c == '\U{205F}' || c == '\U{3000}'
    || c == '\n' || c == '\r' || c == '\U{2028}' || c == '\U{2029}'
  }

  predicate AllWhitespace(s: string) {
    forall i :: 0 <= i < |s| ==> IsWhitespace(s[i])
  }

  function TrimStart(s: string): (r: string)
    ensures IsSuffix(r, s)
    ensures AllWhitespace(s[..|s| - |r|])
    ensures r == [] || !IsWhitespace(r[0])
    decreases |s|
  {
    if |s| > 0 && IsWhitespace(s[0]) then TrimStart(s[1..]) else s
  }

  function TrimEnd(s: string): (r: string)
    ensures IsPrefix(r, s)
    ensures AllWhitespace(s[|r|..])
    ensures r == [] || !IsWhitespace(r[|r| - 1])
    decreases |s|
  {
    if |s| > 0 && IsWhitespace(s[|s| - 1]) then
      var r := TrimEnd(s[..|s| - 1]);
      assert s[|r|..] == s[..|s| - 1][|r|..] + [s[|s| - 1]];
      r
    else s
  }

  /** `s.trim()`. */
  function Trim(s: string): string {
    TrimEnd(TrimStart(s))
  }

  /** A trimmed string is a slice of the input with only whitespace cut off
      either end, and begins and ends with a non-whitespace character. */
  lemma TrimSlice(s: string)
    ensures exists i :: OccursAt(s, Trim(s), i)
                        && AllWhitespace(s[..i]) && AllWhitespace(s[i + |Trim(s)|..])
    ensures Trim(s) == [] || (!IsWhitespace(Trim(s)[0]) && !IsWhitespace(Trim(s)[|Trim(s)| - 1]))
  {
    var t := TrimStart(s);
    var i := |s| - |t|;
    assert s[i..] == t;
    assert OccursAt(s, Trim(s), i);
    assert s[i + |Trim(s)|..] == t[|Trim(s)|..];
  }

  /** `trim()` yields the empty string exactly for whitespace-only input. */
  lemma {:induction false} TrimEmptyIff(s: string)
    ensures Trim(s) == [] <==> AllWhitespace(s)
  {
    var t := TrimStart(s);
    if Trim(s) == [] {
      assert t == [];
      assert s == s[..|s| - |t|];
    } else {
      TrimSlice(s);
    }
  }

  /** A string with non-whitespace at both ends is its own trim. */
  lemma TrimOfTrimmed(s: string)
    requires s == [] || (!IsWhitespace(s[0]) && !IsWhitespace(s[|s| - 1]))
    ensures Trim(s) == s
  {
  }

  /** `trim()` is idempotent. */
  lemma TrimIdempotent(s: string)
    ensures Trim(Trim(s)) == Trim(s)
  {
    TrimSlice(s);
    TrimOfTrimmed(Trim(s));
  }

  /** ASCII case folding: upper-case Latin letters map to lower case, every
      other character is unchanged. */
  function LowerChar(c: char): (d: char)
    ensures 'A' <= c <= 'Z' ==> d as int == c as int + 32
    ensures !('A' <= c <= 'Z') ==> d == c
  {
    if 'A' <= c <= 'Z' then (c as int + 32) as char else c
  }

  /** `s.toLowerCase()` restricted to ASCII letters. */
  function Lower(s: string): (r: string)
    ensures |r| == |s|
    ensures forall i :: 0 <= i < |s| ==> r[i] == LowerChar(s[i])
  {
    seq(|s|, i requires 0 <= i < |s| => LowerChar(s[i]))
  }

  /** A string without upper-case ASCII letters is its own lower case. */
  lemma LowerOfLower(s: string)
    requires forall i :: 0 <= i < |s| ==> !('A' <= s[i] <= 'Z')
    ensures Lower(s) == s
  {
  }

  /** Lowering is idempotent: no character of a lowered string is upper case. */
  lemma LowerIdempotent(s: string)
    ensures Lower(Lower(s)) == Lower(s)
  {
  }

  /** Case-insensitive equality in the sense of a regular expression's `i` flag
      without `u`: only ASCII letters fold. */
  predicate EqualsIgnoreCase(a: string, b: string) {
    Lower(a) == Lower(b)
  }
}
