/** The sanitiser applied to every question that passes the injection
    detector, before retrieval and analysis see it. */
module Sanitizer {
  import opened Text

  const MaxLength := 2000

  /** Kept by the first step: printable characters, tab and newline. */
  predicate Keep(c: char) {
    c as int >= 32 || c == '\n' || c == '\t'
  }

  /** Step 1: drop the control characters other than tab and newline. */
  function RemoveControl(s: string): (r: string)
    ensures |r| <= |s|
    ensures forall c :: c in r ==> Keep(c) && c in s
    ensures forall c :: c in s && Keep(c) ==> c in r
  {
    if s == [] then []
    else (if Keep(s[0]) then [s[0]] else []) + RemoveControl(s[1..])
  }

  /** No `<` is followed, anywhere later, by a `>`. */
  predicate NoTag(s: string) {
    s == [] || ((s[0] == '<' ==> '>' !in s[1..]) && NoTag(s[1..]))
  }

  /** No two whitespace characters stand next to each other. */
  predicate NoDoubleSpace(s: string) {
    forall i :: 0 <= i < |s| - 1 ==> !(IsSpace(s[i]) && IsSpace(s[i + 1]))
  }

  /** Step 3: `re.sub(r'<[^>]*>', '', s)`. Scanning from the left, a `<`
      with a `>` somewhere after it starts a match that runs to the first
      such `>`; the match is removed and the scan resumes after it. */
  function StripTags(s: string): (r: string)
    ensures |r| <= |s|
    decreases |s|
  {
    if s == [] then []
    else if s[0] == '<' && '>' in s[1..] then StripTags(s[1..][IndexOf(s[1..], '>') + 1..])
    else [s[0]] + StripTags(s[1..])
  }

  /** Step 4, first half: `re.sub(r'\s+', ' ', s)`. */
  function CollapseRuns(s: string): (r: string)
    ensures |r| <= |s|
    decreases |s|
  {
    if s == [] then []
    else if IsSpace(s[0]) then [' '] + CollapseRuns(LStrip(s[1..]))
    else [s[0]] + CollapseRuns(s[1..])
  }

  /** The sanitiser: control characters out, at most 2000 characters, tags
      out, whitespace runs collapsed to one space and the ends stripped. */
  function Sanitize(text: string): string {
    var kept := RemoveControl(text);
    var cut := if |kept| <= MaxLength then kept else kept[..MaxLength];
    Strip(CollapseRuns(StripTags(cut)))
  }

  /** The non-whitespace characters of `s`, in order. */
  function NonSpace(s: string): (r: string)
    ensures |r| <= |s|
    ensures forall c :: c in r ==> c in s && !IsSpace(c)
  {
    if s == [] then []
    else (if IsSpace(s[0]) then [] else [s[0]]) + NonSpace(s[1..])
  }

  lemma NonSpaceCons(c: char, t: string)
    ensures NonSpace([c] + t) == (if IsSpace(c) then [] else [c]) + NonSpace(t)
  {
    assert ([c] + t)[1..] == t;
  }

  /** Leading whitespace holds no non-whitespace character. */
  lemma {:induction false} NonSpaceLStrip(s: string)
    ensures NonSpace(LStrip(s)) == NonSpace(s)
  {
    if s != [] && IsSpace(s[0]) {
      NonSpaceLStrip(s[1..]);
    }
  }

  /** What the sanitiser guarantees about its output. */
  ghost predicate Sanitized(s: string) {
    && |s| <= MaxLength
    && (forall c :: c in s ==> c as int >= 32 && (IsSpace(c) ==> c == ' '))
    && NoTag(s)
    && NoDoubleSpace(s)
    && (s != [] ==> !IsSpace(s[0]) && !IsSpace(s[|s| - 1]))
  }

  lemma {:induction false} NoTagSuffix(s: string, k: nat)
    requires NoTag(s) && k <= |s|
    ensures NoTag(s[k..])
  {
    if k > 0 {
      assert s[1..][k - 1..] == s[k..];
      NoTagSuffix(s[1..], k - 1);
    }
  }

  lemma {:induction false} NoTagPrefix(s: string, k: nat)
    requires NoTag(s) && k <= |s|
    ensures NoTag(s[..k])
  {
    if k > 0 {
      assert s[..k][1..] == s[1..][..k - 1];
      NoTagPrefix(s[1..], k - 1);
      assert s[..k][1..] <= s[1..];
    }
  }

  lemma {:induction false} StripTagsProps(s: string)
    ensures forall c :: c in StripTags(s) ==> c in s
    ensures NoTag(StripTags(s))
    decreases |s|
  {
    if s == [] {
    } else if s[0] == '<' && '>' in s[1..] {
      var rest := s[1..][IndexOf(s[1..], '>') + 1..];
      StripTagsProps(rest);
      assert forall c :: c in rest ==> c in s;
    } else {
      StripTagsProps(s[1..]);
      var r := StripTags(s);
      assert r[1..] == StripTags(s[1..]);
    }
  }

  lemma {:induction false} CollapseRunsChars(s: string)
    ensures forall c :: c in CollapseRuns(s) ==> c == ' ' || (!IsSpace(c) && c in s)
    ensures CollapseRuns(s) != [] ==> (IsSpace(CollapseRuns(s)[0]) <==> IsSpace(s[0]))
    decreases |s|
  {
    if s == [] {
    } else if IsSpace(s[0]) {
      var rest := LStrip(s[1..]);
      CollapseRunsChars(rest);
      assert forall c :: c in rest ==> c in s;
    } else {
      CollapseRunsChars(s[1..]);
    }
  }

  /** Collapsing keeps every non-whitespace character, in order. */
  lemma {:induction false} CollapseRunsKeepsText(s: string)
    ensures NonSpace(CollapseRuns(s)) == NonSpace(s)
    decreases |s|
  {
    if s == [] {
    } else if IsSpace(s[0]) {
      var rest := LStrip(s[1..]);
      CollapseRunsKeepsText(rest);
      NonSpaceLStrip(s[1..]);
      NonSpaceCons(' ', CollapseRuns(rest));
    } else {
      CollapseRunsKeepsText(s[1..]);
      NonSpaceCons(s[0], CollapseRuns(s[1..]));
    }
  }

  lemma {:induction false} CollapseRunsSingle(s: string)
    ensures NoDoubleSpace(CollapseRuns(s))
    decreases |s|
  {
    if s == [] {
    } else if IsSpace(s[0]) {
      var rest := LStrip(s[1..]);
      CollapseRunsSingle(rest);
      CollapseRunsChars(rest);
      var r := CollapseRuns(s);
      assert r[1..] == CollapseRuns(rest);
      assert rest != [] ==> !IsSpace(rest[0]);
    } else {
      CollapseRunsSingle(s[1..]);
      CollapseRunsChars(s[1..]);
      var r := CollapseRuns(s);
      assert r[1..] == CollapseRuns(s[1..]);
    }
  }

  lemma {:induction false} CollapseRunsNoTag(s: string)
    requires NoTag(s)
    ensures NoTag(CollapseRuns(s))
    decreases |s|
  {
    if s == [] {
    } else if IsSpace(s[0]) {
      var rest := LStrip(s[1..]);
      NoTagSuffix(s[1..], |s[1..]| - |rest|);
      CollapseRunsNoTag(rest);
      var r := CollapseRuns(s);
      assert r[1..] == CollapseRuns(rest);
    } else {
      CollapseRunsNoTag(s[1..]);
      CollapseRunsChars(s[1..]);
      var r := CollapseRuns(s);
      assert r[1..] == CollapseRuns(s[1..]);
    }
  }

  /** A slice keeps the characters, the tag-freedom and the single
      spacing of the string it is cut from. */
  lemma SliceKeeps(x: string, a: nat, b: nat, y: string)
    requires a <= b <= |x| && y == x[a..b]
    ensures forall c :: c in y ==> c in x
    ensures NoTag(x) ==> NoTag(y)
    ensures NoDoubleSpace(x) ==> NoDoubleSpace(y)
  {
    if NoTag(x) {
      NoTagSuffix(x, a);
      NoTagPrefix(x[a..], b - a);
      assert x[a..][..b - a] == x[a..b];
    }
    if NoDoubleSpace(x) {
      forall i | 0 <= i < |y| - 1 ensures !(IsSpace(y[i]) && IsSpace(y[i + 1])) {
        assert y[i] == x[a + i] && y[i + 1] == x[a + i + 1];
      }
    }
  }

  /** `Strip` is a slice, so it keeps what `SliceKeeps` keeps. */
  lemma StripKeeps(x: string)
    ensures forall c :: c in Strip(x) ==> c in x
    ensures NoTag(x) ==> NoTag(Strip(x))
    ensures NoDoubleSpace(x) ==> NoDoubleSpace(Strip(x))
  {
    var r := Strip(x);
    var a := |x| - |LStrip(x)|;
    SliceKeeps(x, a, a + |r|, r);
  }

  /** After the tags are gone and the runs collapsed, every character is a
      plain space or a non-space character of the input. */
  lemma CleanedChars(cut: string)
    requires forall c :: c in cut ==> Keep(c)
    ensures forall c :: c in Strip(CollapseRuns(StripTags(cut))) ==> c as int >= 32 && (IsSpace(c) ==> c == ' ')
  {
    var untagged := StripTags(cut);
    var collapsed := CollapseRuns(untagged);
    StripTagsProps(cut);
    CollapseRunsChars(untagged);
    StripKeeps(collapsed);
    forall c | c in Strip(collapsed) ensures c as int >= 32 && (IsSpace(c) ==> c == ' ') {
      assert c in collapsed;
      if c != ' ' {
        assert !IsSpace(c) && c in untagged;
        assert Keep(c);
        assert c != '\n' && c != '\t';
      }
    }
  }

  /** The four guarantees of the sanitiser: at most 2000 characters, no
      control character, no tag opener followed by a closer, and whitespace
      reduced to single inner spaces. */
  lemma SanitizeClean(text: string)
    ensures Sanitized(Sanitize(text))
  {
    var kept := RemoveControl(text);
    var cut := if |kept| <= MaxLength then kept else kept[..MaxLength];
    assert forall c :: c in cut ==> Keep(c);
    CleanedChars(cut);
    StripTagsProps(cut);
    CollapseRunsSingle(StripTags(cut));
    CollapseRunsNoTag(StripTags(cut));
    StripKeeps(CollapseRuns(StripTags(cut)));
  }

  lemma {:induction false} RemoveControlKeepsKept(s: string)
    requires forall c :: c in s ==> Keep(c)
    ensures RemoveControl(s) == s
  {
    if s != [] {
      RemoveControlKeepsKept(s[1..]);
    }
  }

  lemma {:induction false} StripTagsKeepsUntagged(s: string)
    requires NoTag(s)
    ensures StripTags(s) == s
    decreases |s|
  {
    if s != [] {
      StripTagsKeepsUntagged(s[1..]);
    }
  }

  lemma {:induction false} CollapseRunsKeepsCollapsed(s: string)
    requires forall c :: c in s ==> IsSpace(c) ==> c == ' '
    requires NoDoubleSpace(s)
    ensures CollapseRuns(s) == s
    decreases |s|
  {
    if s != [] {
      var t := s[1..];
      CollapsedTail(s);
      CollapseRunsKeepsCollapsed(t);
      if IsSpace(s[0]) {
        assert CollapseRuns(s) == [' '] + CollapseRuns(t);
      } else {
        assert CollapseRuns(s) == [s[0]] + CollapseRuns(t);
      }
      assert s == [s[0]] + t;
    }
  }

  /** The tail of a collapsed string is collapsed, and after a leading
      space it starts with no whitespace. */
  lemma CollapsedTail(s: string)
    requires s != []
    requires forall c :: c in s ==> IsSpace(c) ==> c == ' '
    requires NoDoubleSpace(s)
    ensures forall c :: c in s[1..] ==> IsSpace(c) ==> c == ' '
    ensures NoDoubleSpace(s[1..])
    ensures IsSpace(s[0]) ==> s[0] == ' ' && LStrip(s[1..]) == s[1..]
  {
    var t := s[1..];
    assert forall c :: c in t ==> c in s;
    forall i | 0 <= i < |t| - 1 ensures !(IsSpace(t[i]) && IsSpace(t[i + 1])) {
      assert t[i] == s[i + 1] && t[i + 1] == s[i + 2];
    }
    if IsSpace(s[0]) && t != [] {
      assert !IsSpace(t[0]);
    }
  }

  /** A string that already meets the sanitiser's guarantees comes out
      unchanged. */
  lemma CleanIsFixed(s: string)
    requires Sanitized(s)
    ensures Sanitize(s) == s
  {
    RemoveControlKeepsKept(s);
    StripTagsKeepsUntagged(s);
    CollapseRunsKeepsCollapsed(s);
    assert LStrip(s) == s;
    assert RStrip(s) == s;
  }

  /** Sanitising a sanitised question changes nothing. */
  lemma SanitizeIdempotent(text: string)
    ensures Sanitize(Sanitize(text)) == Sanitize(text)
  {
    SanitizeClean(text);
    CleanIsFixed(Sanitize(text));
  }
}
