/** String primitives of JavaScript that the router relies on: the white-space
    class shared by `\s` and `String.prototype.trim`, `toLowerCase`,
    `includes`, and `trim`. Strings are sequences of characters. */
module Text {

  /** The characters JavaScript treats as white space in `\s` and in `trim`:
      WhiteSpace (TAB, VT, FF, SP, NBSP, ZWNBSP and the Zs category) and
      LineTerminator (LF, CR, LS, PS). */
  predicate IsJsSpace(c: char) {
    c == '\t' || c == '\n' || c == '\U{000B}' || c == '\U{000C}' || c == '\r' || c == ' '
    || c == '\U{00A0}' || c == '\U{1680}' || ('\U{2000}' <= c <= '\U{200A}')
    || c == '\U{2028}' || c == '\U{2029}' || c == '\U{202F}' || c == '\U{205F}'
    || c == '\U{3000}' || c == '\U{FEFF}'
  }

  /** `toLowerCase` on one character, for the Basic Latin and Latin-1 letters
      (A-Z and À-Þ except ×); every other character is left as it is. */
  function Lower(c: char): (r: char)
    ensures 'A' <= c <= 'Z' ==> 'a' <= r <= 'z'
    ensures !('A' <= c <= 'Z') && !('À' <= c <= 'Þ') ==> r == c
  {
    if 'A' <= c <= 'Z' || ('À' <= c <= 'Þ' && c != '×') then
      (c as int + 32) as char
    else
      c
  }

  function LowerStr(s: string): (r: string)
    ensures |r| == |s|
    ensures forall k :: 0 <= k < |s| ==> r[k] == Lower(s[k])
  {
    if s == [] then [] else [Lower(s[0])] + LowerStr(s[1..])
  }

  /** `s.includes(sub)`: `sub` occurs somewhere in `s` as a block. */
  predicate Contains(s: string, sub: string)
  {
    sub <= s || (s != [] && Contains(s[1..], sub))
  }

  lemma {:induction false} ContainsAt(s: string, sub: string, i: nat)
    requires i + |sub| <= |s| && s[i..i + |sub|] == sub
    ensures Contains(s, sub)
  {
    if i == 0 {
      assert sub <= s;
    } else {
      assert s[1..][i - 1..i - 1 + |sub|] == s[i..i + |sub|];
      ContainsAt(s[1..], sub, i - 1);
    }
  }

  lemma {:induction false} ContainsWitness(s: string, sub: string) returns (i: nat)
    requires Contains(s, sub)
    ensures i + |sub| <= |s| && s[i..i + |sub|] == sub
  {
    if sub <= s {
      i := 0;
    } else {
      var j := ContainsWitness(s[1..], sub);
      assert s[1..][j..j + |sub|] == s[j + 1..j + 1 + |sub|];
      i := j + 1;
    }
  }

  /** A string contains its own suffix. */
  lemma ContainsSuffix(x: string, m: string)
    ensures Contains(x + m, m)
  {
    assert (x + m)[|x|..|x| + |m|] == m;
    ContainsAt(x + m, m, |x|);
  }

  /** Appending text keeps an occurrence. */
  lemma ContainsExtend(s: string, t: string, m: string)
    requires Contains(s, m)
    ensures Contains(s + t, m)
  {
    var i := ContainsWitness(s, m);
    assert (s + t)[i..i + |m|] == s[i..i + |m|];
    ContainsAt(s + t, m, i);
  }

  /** Prepending text keeps an occurrence. */
  lemma ContainsPrepend(t: string, s: string, m: string)
    requires Contains(s, m)
    ensures Contains(t + s, m)
  {
    var i := ContainsWitness(s, m);
    assert (t + s)[|t| + i..|t| + i + |m|] == s[i..i + |m|];
    ContainsAt(t + s, m, |t| + i);
  }

  /** `trimStart`: drop the leading white space. */
  function TrimStart(s: string): (r: string)
    ensures r == [] || !IsJsSpace(r[0])
    ensures |r| <= |s|
  {
    if s != [] && IsJsSpace(s[0]) then TrimStart(s[1..]) else s
  }

  /** `trimEnd`: drop the trailing white space. */
  function TrimEnd(s: string): (r: string)
    ensures r == [] || !IsJsSpace(r[|r| - 1])
    ensures |r| <= |s| && (r == [] || r[0] == s[0])
  {
    if s != [] && IsJsSpace(s[|s| - 1]) then TrimEnd(s[..|s| - 1]) else s
  }

  /** `String.prototype.trim`: `trimStart` then `trimEnd`, so the result
      neither starts nor ends with white space. */
  function Trim(s: string): (r: string)
    ensures r == [] || (!IsJsSpace(r[0]) && !IsJsSpace(r[|r| - 1]))
  {
    TrimEnd(TrimStart(s))
  }

  /** `trimStart` keeps a suffix and drops only white space. */
  lemma {:induction false} TrimStartIsSuffix(s: string)
    ensures TrimStart(s) == s[|s| - |TrimStart(s)|..]
    ensures forall k :: 0 <= k < |s| - |TrimStart(s)| ==> IsJsSpace(s[k])
  {
    if s != [] && IsJsSpace(s[0]) {
      TrimStartIsSuffix(s[1..]);
      assert s[1..][|s| - 1 - |TrimStart(s)|..] == s[|s| - |TrimStart(s)|..];
      forall k | 1 <= k < |s| - |TrimStart(s)| ensures IsJsSpace(s[k]) {
        assert s[1..][k - 1] == s[k];
      }
    }
  }

  /** `trimEnd` keeps a prefix and drops only white space. */
  lemma {:induction false} TrimEndIsPrefix(s: string)
    ensures TrimEnd(s) == s[..|TrimEnd(s)|]
    ensures forall k :: |TrimEnd(s)| <= k < |s| ==> IsJsSpace(s[k])
  {
    if s != [] && IsJsSpace(s[|s| - 1]) {
      TrimEndIsPrefix(s[..|s| - 1]);
      assert s[..|s| - 1][..|TrimEnd(s)|] == s[..|TrimEnd(s)|];
      forall k | |TrimEnd(s)| <= k < |s| - 1 ensures IsJsSpace(s[k]) {
        assert s[..|s| - 1][k] == s[k];
      }
    }
  }

  /** `s[a..b]` is what is left of `s` once white space is dropped before
      `a` and after `b`. */
  predicate IsTrimSlice(s: string, a: int, b: int) {
    && 0 <= a <= b <= |s|
    && (forall k :: 0 <= k < a ==> IsJsSpace(s[k]))
    && (forall k :: b <= k < |s| ==> IsJsSpace(s[k]))
  }

  /** The trimmed string is a slice `s[a..b]` of the input with only white
      space before `a` and after `b`: `trim` removes white space at the two
      ends and nothing else. */
  lemma TrimIsSlice(s: string)
    ensures exists a, b :: IsTrimSlice(s, a, b) && Trim(s) == s[a..b]
  {
    var t := TrimStart(s);
    var a := |s| - |t|;
    var r := TrimEnd(t);
    var b := a + |r|;
    TrimStartIsSuffix(s);
    TrimEndIsPrefix(t);
    assert r == s[a..b];
    forall k | b <= k < |s| ensures IsJsSpace(s[k]) {
      assert s[k] == t[k - a];
    }
    assert IsTrimSlice(s, a, b);
  }

  /** Every character of the trimmed string comes from the original, so a
      character absent from `s` is absent from `Trim(s)`. */
  lemma TrimKeepsCharacters(s: string, c: char)
    requires c !in s
    ensures c !in Trim(s)
  {
    TrimStartKeeps(s, c);
    TrimEndKeeps(TrimStart(s), c);
  }

  lemma {:induction false} TrimStartKeeps(s: string, c: char)
    requires c !in s
    ensures c !in TrimStart(s)
  {
    if s != [] && IsJsSpace(s[0]) {
      assert c !in s[1..] by {
        forall k | 0 <= k < |s| - 1 ensures s[1..][k] != c {
          assert s[1..][k] == s[k + 1];
        }
      }
      TrimStartKeeps(s[1..], c);
    }
  }

  lemma {:induction false} TrimEndKeeps(s: string, c: char)
    requires c !in s
    ensures c !in TrimEnd(s)
  {
    if s != [] && IsJsSpace(s[|s| - 1]) {
      var p := s[..|s| - 1];
      assert c !in p by {
        forall k | 0 <= k < |p| ensures p[k] != c {
          assert p[k] == s[k];
        }
      }
      TrimEndKeeps(p, c);
    }
  }

  /** Leading white space does not change the trimmed result. */
  lemma {:induction false} TrimSkipsLeadingSpace(w: string, t: string)
    requires forall k :: 0 <= k < |w| ==> IsJsSpace(w[k])
    ensures TrimStart(w + t) == TrimStart(t)
    ensures Trim(w + t) == Trim(t)
  {
    if w != [] {
      assert (w + t)[0] == w[0];
      assert (w + t)[1..] == w[1..] + t;
      TrimSkipsLeadingSpace(w[1..], t);
    } else {
      assert w + t == t;
    }
  }

  /** The same, for a white-space stretch `s[a..b]` in front of `s[b..q]`. */
  lemma {:induction false} TrimSkipsSpaceSlice(s: string, a: nat, b: nat, q: nat)
    requires a <= b <= q <= |s|
    requires forall k :: a <= k < b ==> IsJsSpace(s[k])
    ensures TrimStart(s[a..q]) == TrimStart(s[b..q])
    ensures Trim(s[a..q]) == Trim(s[b..q])
    decreases b - a
  {
    if a < b {
      assert s[a..q][0] == s[a];
      assert s[a..q][1..] == s[a + 1..q];
      TrimSkipsSpaceSlice(s, a + 1, b, q);
    }
  }

  /** A string made only of white space trims to the empty string. */
  lemma {:induction false} TrimOfSpaceIsEmpty(w: string)
    requires forall k :: 0 <= k < |w| ==> IsJsSpace(w[k])
    ensures Trim(w) == []
  {
    TrimSkipsLeadingSpace(w, []);
    assert w + [] == w;
  }

  /** Trimming twice is trimming once. */
  lemma TrimIdempotent(s: string)
    ensures Trim(Trim(s)) == Trim(s)
  {
    var r := Trim(s);
    assert r == [] || !IsJsSpace(r[0]);
    assert TrimStart(r) == r;
    assert r == [] || !IsJsSpace(r[|r| - 1]);
  }
}
