/** String primitives the service relies on, stated the way Python's `str`
    methods behave on them: `isspace`, `lower`, `in`, `strip`, `split`,
    `count` and the code-point ordering of `<`. */
module Text {

  /** Python's `str.isspace()`, which is also what `\s` matches in a `re`
      pattern over `str`. */
  predicate IsSpace(c: char) {
    var n := c as int;
    (9 <= n <= 13) || (28 <= n <= 32) || n == 0x85 || n == 0xA0 || n == 0x1680
    || (0x2000 <= n <= 0x200A) || n == 0x2028 || n == 0x2029 || n == 0x202F
    || n == 0x205F || n == 0x3000
  }

  predicate IsAsciiDigit(c: char) {
    '0' <= c <= '9'
  }

  function LowerChar(c: char): (r: char)
    ensures 'A' <= c <= 'Z' ==> r as int == c as int + 32
    ensures !('A' <= c <= 'Z') ==> r == c
  {
    if 'A' <= c <= 'Z' then (c as int + 32) as char else c
  }

  /** Lower-casing never turns a space into a non-space or back. */
  lemma LowerCharSpace(c: char)
    ensures IsSpace(LowerChar(c)) <==> IsSpace(c)
  {
  }

  /** `str.lower()` restricted to the ASCII letters. */
  function Lower(s: string): (r: string)
    ensures |r| == |s|
    ensures forall i :: 0 <= i < |s| ==> r[i] == LowerChar(s[i])
  {
    seq(|s|, i requires 0 <= i < |s| => LowerChar(s[i]))
  }

  predicate IsPrefix(p: string, s: string) {
    |p| <= |s| && s[..|p|] == p
  }

  /** Python's `needle in haystack` on strings. */
  predicate Contains(haystack: string, needle: string)
    decreases |haystack|
  {
    IsPrefix(needle, haystack) || (haystack != [] && Contains(haystack[1..], needle))
  }

  /** `needle` occurs in `haystack` starting at index `i`. */
  predicate OccursAt(haystack: string, needle: string, i: int) {
    0 <= i <= |haystack| - |needle| && haystack[i..i + |needle|] == needle
  }

  /** An occurrence starts with the needle's first character and ends with
      its last. */
  lemma OccursAtEnds(haystack: string, needle: string, i: int)
    requires needle != [] && OccursAt(haystack, needle, i)
    ensures haystack[i] == needle[0] && haystack[i + |needle| - 1] == needle[|needle| - 1]
  {
    var w := haystack[i..i + |needle|];
    assert w[0] == haystack[i];
    assert w[|needle| - 1] == haystack[i + |needle| - 1];
  }

  /** `Contains` says exactly that `needle` occurs at some position. */
  lemma {:induction false} ContainsAt(haystack: string, needle: string)
    ensures Contains(haystack, needle) <==> exists i :: OccursAt(haystack, needle, i)
    decreases |haystack|
  {
    if IsPrefix(needle, haystack) {
      assert OccursAt(haystack, needle, 0);
    }
    if haystack != [] {
      ContainsAt(haystack[1..], needle);
      if Contains(haystack[1..], needle) {
        var i :| OccursAt(haystack[1..], needle, i);
        assert haystack[i + 1..i + 1 + |needle|] == haystack[1..][i..i + |needle|];
        assert OccursAt(haystack, needle, i + 1);
      }
      if exists i :: OccursAt(haystack, needle, i) {
        var i :| OccursAt(haystack, needle, i);
        if i > 0 {
          assert haystack[1..][i - 1..i - 1 + |needle|] == haystack[i..i + |needle|];
          assert OccursAt(haystack[1..], needle, i - 1);
        }
      }
    } else {
      if exists i :: OccursAt(haystack, needle, i) {
        var i :| OccursAt(haystack, needle, i);
        assert IsPrefix(needle, haystack);
      }
    }
  }

  /** A string contains every one of its own slices. */
  lemma ContainsSlice(s: string, i: nat, j: nat)
    requires i <= j <= |s|
    ensures Contains(s, s[i..j])
  {
    assert OccursAt(s, s[i..j], i);
    ContainsAt(s, s[i..j]);
  }

  /** A needle is never longer than a haystack that contains it, and one
      as long as the haystack is the haystack itself. */
  lemma ContainsLength(haystack: string, needle: string)
    ensures Contains(haystack, needle) ==> |needle| <= |haystack|
    ensures Contains(haystack, needle) && |needle| == |haystack| ==> needle == haystack
  {
    ContainsAt(haystack, needle);
  }

  /** Python's `any(w in s for w in words)`. */
  predicate ContainsAny(s: string, words: seq<string>) {
    exists i :: 0 <= i < |words| && Contains(s, words[i])
  }

  /** Python's `s.count(c)` for a one-character `c`. */
  function CountChar(s: string, c: char): (n: nat)
    ensures n <= |s|
    ensures n == 0 <==> c !in s
  {
    if s == [] then 0 else (if s[0] == c then 1 else 0) + CountChar(s[1..], c)
  }

  /** `str.lstrip()`: drop the leading whitespace. */
  function LStrip(s: string): (r: string)
    ensures |r| <= |s|
    ensures r == s[|s| - |r|..]
    ensures r != [] ==> !IsSpace(r[0])
    ensures forall i :: 0 <= i < |s| - |r| ==> IsSpace(s[i])
  {
    if s != [] && IsSpace(s[0]) then LStrip(s[1..]) else s
  }

  /** `str.rstrip()`: drop the trailing whitespace. */
  function RStrip(s: string): (r: string)
    ensures |r| <= |s|
    ensures r == s[..|r|]
    ensures r != [] ==> !IsSpace(r[|r| - 1])
    ensures forall i :: |r| <= i < |s| ==> IsSpace(s[i])
  {
    if s != [] && IsSpace(s[|s| - 1]) then RStrip(s[..|s| - 1]) else s
  }

  /** `str.strip()`. */
  function Strip(s: string): (r: string)
    ensures |r| <= |s|
    ensures r != [] ==> !IsSpace(r[0]) && !IsSpace(r[|r| - 1])
    ensures r == [] <==> forall i :: 0 <= i < |s| ==> IsSpace(s[i])
    ensures |r| <= |LStrip(s)|
    ensures r == s[|s| - |LStrip(s)|..|s| - |LStrip(s)| + |r|]
  {
    var l := LStrip(s);
    var r := RStrip(l);
    assert r == [] ==> l == [];
    r
  }

  /** The characters before the first whitespace. */
  function TakeWord(s: string): (w: string)
    ensures IsPrefix(w, s)
    ensures forall i :: 0 <= i < |w| ==> !IsSpace(w[i])
    ensures |w| < |s| ==> IsSpace(s[|w|])
  {
    if s == [] || IsSpace(s[0]) then [] else [s[0]] + TakeWord(s[1..])
  }

  /** `str.split()` with no separator: the maximal runs of non-whitespace. */
  function Split(s: string): (words: seq<string>)
    ensures forall i :: 0 <= i < |words| ==> words[i] != []
    decreases |s|
  {
    var t := LStrip(s);
    if t == [] then [] else
      var w := TakeWord(t);
      [w] + Split(t[|w|..])
  }

  /** A string splits into no words exactly when it is all whitespace. */
  lemma SplitEmpty(s: string)
    ensures Split(s) == [] <==> forall i :: 0 <= i < |s| ==> IsSpace(s[i])
  {
    var t := LStrip(s);
    if t != [] {
      assert !IsSpace(s[|s| - |t|]);
    }
  }

  function IndexOf(s: string, c: char): (i: nat)
    requires c in s
    ensures i < |s| && s[i] == c && c !in s[..i]
  {
    if s[0] == c then 0 else 1 + IndexOf(s[1..], c)
  }

  /** `s.split(sep)` for a one-character separator: keeps the empty pieces. */
  function SplitOn(s: string, sep: char): (pieces: seq<string>)
    ensures |pieces| >= 1
    ensures forall i :: 0 <= i < |pieces| ==> sep !in pieces[i]
    decreases |s|
  {
    if sep !in s then [s] else
      var i := IndexOf(s, sep);
      [s[..i]] + SplitOn(s[i + 1..], sep)
  }

  /** Python's `a < b` on strings: code-point lexicographic order. */
  predicate LexLess(a: string, b: string)
    decreases |a|
  {
    if a == [] then b != []
    else if b == [] then false
    else if a[0] != b[0] then a[0] < b[0]
    else LexLess(a[1..], b[1..])
  }

  /** Python's `a <= b` on strings. */
  predicate LexLessEq(a: string, b: string) {
    a == b || LexLess(a, b)
  }

  lemma {:induction false} LexLessIrreflexive(a: string)
    ensures !LexLess(a, a)
    decreases |a|
  {
    if a != [] {
      LexLessIrreflexive(a[1..]);
    }
  }

  lemma {:induction false} LexLessTransitive(a: string, b: string, c: string)
    requires LexLess(a, b) && LexLess(b, c)
    ensures LexLess(a, c)
    decreases |a|
  {
    if a != [] && b != [] && c != [] && a[0] == b[0] && b[0] == c[0] {
      LexLessTransitive(a[1..], b[1..], c[1..]);
    }
  }

  lemma {:induction false} LexLessTotal(a: string, b: string)
    requires a != b
    ensures LexLess(a, b) || LexLess(b, a)
    decreases |a|
  {
    if a != [] && b != [] && a[0] == b[0] {
      assert a == [a[0]] + a[1..] && b == [b[0]] + b[1..];
      LexLessTotal(a[1..], b[1..]);
    }
  }

  lemma LexLessAsymmetric(a: string, b: string)
    requires LexLess(a, b)
    ensures !LexLess(b, a)
  {
    if LexLess(b, a) {
      LexLessTransitive(a, b, a);
      LexLessIrreflexive(a);
    }
  }

  /** Stripping the ends never hides a needle that starts and ends with a
      non-space character. */
  lemma StripKeepsNeedle(s: string, needle: string)
    requires Contains(s, needle)
    requires needle != [] && !IsSpace(needle[0]) && !IsSpace(needle[|needle| - 1])
    ensures Contains(Strip(s), needle)
  {
    ContainsOccurs(s, needle);
    var i :| OccursAt(s, needle, i);
    StripKeepsOccurrence(s, needle, i);
    OccursContains(Strip(s), needle, i - (|s| - |LStrip(s)|));
  }

  lemma OccursContains(haystack: string, needle: string, i: int)
    requires OccursAt(haystack, needle, i)
    ensures Contains(haystack, needle)
  {
    ContainsAt(haystack, needle);
  }

  lemma ContainsOccurs(haystack: string, needle: string)
    requires Contains(haystack, needle)
    ensures exists i :: OccursAt(haystack, needle, i)
  {
    ContainsAt(haystack, needle);
  }

  lemma StripKeepsOccurrence(s: string, needle: string, i: int)
    requires OccursAt(s, needle, i)
    requires needle != [] && !IsSpace(needle[0]) && !IsSpace(needle[|needle| - 1])
    ensures OccursAt(Strip(s), needle, i - (|s| - |LStrip(s)|))
  {
    var l := LStrip(s);
    LStripKeepsOccurrence(s, needle, i);
    RStripKeepsOccurrence(l, needle, i - (|s| - |l|));
    assert Strip(s) == RStrip(l);
  }

  lemma LStripKeepsOccurrence(s: string, needle: string, i: int)
    requires OccursAt(s, needle, i) && needle != [] && !IsSpace(needle[0])
    ensures OccursAt(LStrip(s), needle, i - (|s| - |LStrip(s)|))
  {
    var r := LStrip(s);
    OccursAtEnds(s, needle, i);
    assert !IsSpace(s[i]);
    assert |s| - |r| <= i;
    OccursInSuffix(s, needle, i, r);
  }

  /** An occurrence at or after the start of a suffix is one in the
      suffix. */
  lemma OccursInSuffix(s: string, needle: string, i: int, r: string)
    requires OccursAt(s, needle, i)
    requires |r| <= |s| && r == s[|s| - |r|..] && |s| - |r| <= i
    ensures OccursAt(r, needle, i - (|s| - |r|))
  {
    var a := |s| - |r|;
    OccursInSlice(s, needle, i, a, |s|);
    assert s[a..|s|] == r;
  }

  lemma RStripKeepsOccurrence(s: string, needle: string, i: int)
    requires OccursAt(s, needle, i) && needle != [] && !IsSpace(needle[|needle| - 1])
    ensures OccursAt(RStrip(s), needle, i)
  {
    var b := |RStrip(s)|;
    assert s[i + |needle| - 1] == s[i..i + |needle|][|needle| - 1];
    assert i + |needle| <= b;
    OccursInSlice(s, needle, i, 0, b);
  }

  lemma OccursInSlice(s: string, needle: string, i: int, a: nat, b: nat)
    requires OccursAt(s, needle, i)
    requires a <= i && i + |needle| <= b <= |s|
    ensures OccursAt(s[a..b], needle, i - a)
  {
    var t := s[a..b];
    forall k | 0 <= k < |needle| ensures t[i - a + k] == needle[k] {
      assert t[i - a + k] == s[i + k];
      assert s[i..i + |needle|][k] == s[i + k];
    }
    assert t[i - a..i - a + |needle|] == needle;
  }

  /** Lower-casing a slice is slicing the lower-cased string. */
  lemma LowerSlice(s: string, a: nat, b: nat)
    requires a <= b <= |s|
    ensures Lower(s[a..b]) == Lower(s)[a..b]
  {
  }

  /** Lower-casing and stripping commute, as lower-casing never turns a
      space into a non-space or back. */
  lemma LowerStrip(s: string)
    ensures Lower(Strip(s)) == Strip(Lower(s))
  {
    LowerLStrip(s);
    LowerRStrip(LStrip(s));
  }

  lemma {:induction false} LowerLStrip(s: string)
    ensures Lower(LStrip(s)) == LStrip(Lower(s))
    decreases |s|
  {
    if s != [] {
      LowerEnds(s);
      LowerCharSpace(s[0]);
      if IsSpace(s[0]) {
        LowerLStrip(s[1..]);
      }
    }
  }

  lemma {:induction false} LowerRStrip(s: string)
    ensures Lower(RStrip(s)) == RStrip(Lower(s))
    decreases |s|
  {
    if s != [] {
      LowerEnds(s);
      LowerCharSpace(s[|s| - 1]);
      if IsSpace(s[|s| - 1]) {
        LowerRStrip(s[..|s| - 1]);
      }
    }
  }

  /** Lower-casing a non-empty string lower-cases its first and last
      characters and the rest around them. */
  lemma LowerEnds(s: string)
    requires s != []
    ensures Lower(s)[0] == LowerChar(s[0]) && Lower(s)[1..] == Lower(s[1..])
    ensures Lower(s)[|s| - 1] == LowerChar(s[|s| - 1]) && Lower(s)[..|s| - 1] == Lower(s[..|s| - 1])
  {
    LowerSlice(s, 1, |s|);
    LowerSlice(s, 0, |s| - 1);
    assert s[1..|s|] == s[1..] && Lower(s)[1..|s|] == Lower(s)[1..];
    assert s[0..|s| - 1] == s[..|s| - 1] && Lower(s)[0..|s| - 1] == Lower(s)[..|s| - 1];
  }
}
