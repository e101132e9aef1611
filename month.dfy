/** The month extractor: finds the billing month a question is about, as a
    `YYYY-MM` string. */
module Month {
  import opened Common
  import opened Text

  /** The month names the extractor knows, in the order it tries them,
      each with its two-digit month number. */
  const MonthNames: seq<(string, string)> := [
    ("january", "01"), ("jan", "01"), ("february", "02"), ("feb", "02"),
    ("march", "03"), ("mar", "03"), ("april", "04"), ("apr", "04"),
    ("may", "05"), ("june", "06"), ("jun", "06"), ("july", "07"),
    ("jul", "07"), ("august", "08"), ("aug", "08"), ("september", "09"),
    ("sep", "09"), ("sept", "09"), ("october", "10"), ("oct", "10"),
    ("november", "11"), ("nov", "11"), ("december", "12"), ("dec", "12")
  ]

  const DefaultYear := "2024"

  /** The two regular expressions the extractor searches for. */
  datatype Pattern = Year | YearMonth

  /** The regular expression `20\d{2}` matches at `i`. */
  predicate YearAt(s: string, i: nat) {
    i + 4 <= |s| && s[i] == '2' && s[i + 1] == '0' && IsAsciiDigit(s[i + 2]) && IsAsciiDigit(s[i + 3])
  }

  /** `p` matches at `i`: `20\d{2}`, or `20\d{2}-\d{2}`. */
  predicate MatchesAt(p: Pattern, s: string, i: nat) {
    match p
    case Year => YearAt(s, i)
    case YearMonth => i + 7 <= |s| && YearAt(s, i) && s[i + 4] == '-' && IsAsciiDigit(s[i + 5]) && IsAsciiDigit(s[i + 6])
  }

  /** `re.search`: the leftmost position at or after `from` where `p`
      matches. */
  function Search(p: Pattern, s: string, from: nat): (r: Option<nat>)
    ensures r.Some? ==> from <= r.value && MatchesAt(p, s, r.value)
    ensures r.Some? ==> forall j :: from <= j < r.value ==> !MatchesAt(p, s, j)
    ensures r.None? ==> forall j :: from <= j ==> !MatchesAt(p, s, j)
    decreases |s| - from
  {
    if from + 4 > |s| then None
    else if MatchesAt(p, s, from) then Some(from)
    else Search(p, s, from + 1)
  }

  /** The index of the first month name, in the list's order, that occurs
      in `lowered`, or `|names|`. */
  function FirstMonthName(lowered: string, names: seq<(string, string)>): (r: nat)
    ensures r <= |names|
    ensures r < |names| ==> Contains(lowered, names[r].0)
    ensures forall j :: 0 <= j < r ==> !Contains(lowered, names[j].0)
  {
    if names == [] then 0
    else if Contains(lowered, names[0].0) then 0
    else 1 + FirstMonthName(lowered, names[1..])
  }

  /** The year for a month named in words: the first `20\d{2}` in the
      question, or 2024. */
  function YearOf(query: string): (y: string)
    ensures |y| == 4 && y[0] == '2' && y[1] == '0' && IsAsciiDigit(y[2]) && IsAsciiDigit(y[3])
  {
    match Search(Year, query, 0)
    case Some(i) => query[i..i + 4]
    case None => DefaultYear
  }

  /** `_extract_month_from_query`. */
  function ExtractMonth(query: string): Option<string> {
    match Search(YearMonth, query, 0)
    case Some(i) => Some(query[i..i + 7])
    case None =>
      var m := FirstMonthName(Lower(query), MonthNames);
      if m < |MonthNames| then Some(YearOf(query) + "-" + MonthNames[m].1) else None
  }

  /** Every month number in the list is two ASCII digits. */
  lemma MonthNumbersAreDigits()
    ensures forall m :: 0 <= m < |MonthNames| ==>
      |MonthNames[m].1| == 2 && IsAsciiDigit(MonthNames[m].1[0]) && IsAsciiDigit(MonthNames[m].1[1])
  {
  }

  /** Whatever the extractor returns has the form `20YY-MM`. */
  lemma ExtractMonthShape(query: string)
    requires ExtractMonth(query).Some?
    ensures var r := ExtractMonth(query).value;
      MatchesAt(YearMonth, r, 0) && |r| == 7
  {
    if Search(YearMonth, query, 0).None? {
      MonthNumbersAreDigits();
      var m := FirstMonthName(Lower(query), MonthNames);
      var r := YearOf(query) + "-" + MonthNames[m].1;
      assert r[4] == '-' && r[5] == MonthNames[m].1[0] && r[6] == MonthNames[m].1[1];
    } else {
      var i := Search(YearMonth, query, 0).value;
      var r := query[i..i + 7];
      assert r[0] == query[i] && r[1] == query[i + 1] && r[2] == query[i + 2] && r[3] == query[i + 3];
      assert r[4] == query[i + 4] && r[5] == query[i + 5] && r[6] == query[i + 6];
    }
  }

  /** A numeric `YYYY-MM` wins over any month name: the leftmost one is
      returned as written. */
  lemma NumericMonthFirst(query: string, i: nat)
    requires MatchesAt(YearMonth, query, i)
    requires forall j :: 0 <= j < i ==> !MatchesAt(YearMonth, query, j)
    ensures ExtractMonth(query) == Some(query[i..i + 7])
  {
  }

  /** Without a numeric `YYYY-MM`, the first month name in the list's order
      (not in the question's) decides the month, and the first `20YY` in
      the question, or 2024, the year. */
  lemma NamedMonth(query: string, m: nat)
    requires forall j :: 0 <= j ==> !MatchesAt(YearMonth, query, j)
    requires m < |MonthNames| && Contains(Lower(query), MonthNames[m].0)
    requires forall j :: 0 <= j < m ==> !Contains(Lower(query), MonthNames[j].0)
    ensures ExtractMonth(query) == Some(YearOf(query) + "-" + MonthNames[m].1)
    ensures (forall j :: 0 <= j ==> !MatchesAt(Year, query, j)) ==> YearOf(query) == DefaultYear
  {
  }

  /** The extractor gives up exactly when there is neither a numeric
      `YYYY-MM` nor any month name. */
  lemma NoMonth(query: string)
    ensures ExtractMonth(query).None? <==>
      (forall j :: 0 <= j ==> !MatchesAt(YearMonth, query, j)) &&
      (forall m :: 0 <= m < |MonthNames| ==> !Contains(Lower(query), MonthNames[m].0))
  {
    var r := Search(YearMonth, query, 0);
    if r.Some? {
      assert MatchesAt(YearMonth, query, r.value);
    }
  }
}
