/** The service's input defences: the prompt-injection detector, which
    decides whether a question is refused, and the sanitiser, which cleans
    a question that was let through. */
module SecurityGate {
  import opened Text

  /** The blocked phrases, matched case-insensitively, in the order they
      are tried. */
  const SecurityPatterns: seq<string> := [
    "ignore all previous instructions", "disregard system prompt",
    "act as if you are", "pretend you are", "roleplay as", "system:",
    "assistant:", "user:", "### instruction", "### system",
    "override security", "bypass security", "jailbreak", "<script>",
    "javascript:", "data:", "DROP TABLE", "DELETE FROM", "INSERT INTO",
    "UPDATE SET"
  ]

  /** Tokens that look like code, tried after the structural checks. */
  const ScriptIndicators: seq<string> := ["function(", "eval(", "exec(", "import ", "require("]

  const MaxInputLength := 2000
  const MaxLineBreaks := 10

  datatype Reason =
    | SecurityPattern(pattern: string)
    | ExcessiveLineBreaks
    | TooLong
    | ScriptLike(indicator: string)

  datatype Verdict = Clean | Blocked(reason: Reason)

  /** The message the detector reports with a refusal. */
  function Message(r: Reason): string {
    match r
    case SecurityPattern(p) => "Detected potential security risk: " + p
    case ExcessiveLineBreaks => "Input contains excessive line breaks"
    case TooLong => "Input exceeds maximum length"
    case ScriptLike(ind) => "Input contains script-like content: " + ind
  }

  /** The index of the first pattern whose lower-cased form occurs in
      `text`, or `|patterns|`. */
  function FirstPatternHit(text: string, patterns: seq<string>): (r: nat)
    ensures r <= |patterns|
    ensures r < |patterns| ==> Contains(text, Lower(patterns[r]))
    ensures forall j :: 0 <= j < r ==> !Contains(text, Lower(patterns[j]))
  {
    if patterns == [] then 0
    else if Contains(text, Lower(patterns[0])) then 0
    else 1 + FirstPatternHit(text, patterns[1..])
  }

  /** The index of the first needle that occurs in `text`, or `|needles|`. */
  function FirstHit(text: string, needles: seq<string>): (r: nat)
    ensures r <= |needles|
    ensures r < |needles| ==> Contains(text, needles[r])
    ensures forall j :: 0 <= j < r ==> !Contains(text, needles[j])
  {
    if needles == [] then 0
    else if Contains(text, needles[0]) then 0
    else 1 + FirstHit(text, needles[1..])
  }

  /** The lower-cased, stripped input contains one of the patterns,
      itself lower-cased. */
  predicate HasBlockedPhrase(text: string, patterns: seq<string>) {
    exists i :: 0 <= i < |patterns| && Contains(Strip(Lower(text)), Lower(patterns[i]))
  }

  /** The lower-cased, stripped input contains one of the indicators. */
  predicate HasScriptToken(text: string, indicators: seq<string>) {
    exists i :: 0 <= i < |indicators| && Contains(Strip(Lower(text)), indicators[i])
  }

  /** What the detector decides about `text` for the service's pattern list
      and script indicators: the first of the four tests that fires, in the
      order pattern, line breaks, length, script token. */
  function InjectionVerdict(text: string, patterns: seq<string>, indicators: seq<string>): (v: Verdict)
  {
    var lowered := Strip(Lower(text));
    var p := FirstPatternHit(lowered, patterns);
    if p < |patterns| then Blocked(SecurityPattern(patterns[p]))
    else if CountChar(text, '\n') > MaxLineBreaks then Blocked(ExcessiveLineBreaks)
    else if |text| > MaxInputLength then Blocked(TooLong)
    else
      var s := FirstHit(lowered, indicators);
      if s < |indicators| then Blocked(ScriptLike(indicators[s])) else Clean
  }

  /** The detector refuses exactly the inputs that fail one of its four
      tests. */
  lemma VerdictBlocks(text: string, patterns: seq<string>, indicators: seq<string>)
    ensures InjectionVerdict(text, patterns, indicators).Blocked? <==>
      HasBlockedPhrase(text, patterns) || CountChar(text, '\n') > MaxLineBreaks
      || |text| > MaxInputLength || HasScriptToken(text, indicators)
  {
    var lowered := Strip(Lower(text));
    var p := FirstPatternHit(lowered, patterns);
    var s := FirstHit(lowered, indicators);
    assert p < |patterns| <==> HasBlockedPhrase(text, patterns);
    assert s < |indicators| <==> HasScriptToken(text, indicators);
  }

  /** The pattern loop: the first pattern whose lower-cased form occurs
      in `lowered`. */
  method ScanPatterns(lowered: string, patterns: seq<string>) returns (i: nat)
    ensures i == FirstPatternHit(lowered, patterns)
  {
    i := 0;
    while i < |patterns|
      invariant i <= FirstPatternHit(lowered, patterns)
    {
      if Contains(lowered, Lower(patterns[i])) {
        return;
      }
      i := i + 1;
    }
  }

  /** The script-token loop: the first indicator that occurs in `lowered`. */
  method ScanIndicators(lowered: string, indicators: seq<string>) returns (k: nat)
    ensures k == FirstHit(lowered, indicators)
  {
    k := 0;
    while k < |indicators|
      invariant k <= FirstHit(lowered, indicators)
    {
      if Contains(lowered, indicators[k]) {
        return;
      }
      k := k + 1;
    }
  }

  /** The detector as the service runs it over its `patterns`: the two
      scans and two structural tests, each returning early. Its answer is
      the verdict above, with the refusal's message. */
  method DetectPromptInjection(text: string, patterns: seq<string>) returns (blocked: bool, message: string)
    ensures blocked == InjectionVerdict(text, patterns, ScriptIndicators).Blocked?
    ensures message == if blocked then Message(InjectionVerdict(text, patterns, ScriptIndicators).reason) else ""
  {
    var lowered := Strip(Lower(text));
    var i := ScanPatterns(lowered, patterns);
    if i < |patterns| {
      return true, Message(SecurityPattern(patterns[i]));
    }
    if CountChar(text, '\n') > MaxLineBreaks {
      return true, Message(ExcessiveLineBreaks);
    }
    if |text| > MaxInputLength {
      return true, Message(TooLong);
    }
    var k := ScanIndicators(lowered, ScriptIndicators);
    if k < |ScriptIndicators| {
      return true, Message(ScriptLike(ScriptIndicators[k]));
    }
    return false, "";
  }

  /** Neither end of `s` is whitespace. */
  predicate Trimmed(s: string) {
    s != [] && !IsSpace(s[0]) && !IsSpace(s[|s| - 1])
  }

  /** Any pattern whose lower-cased form has no whitespace at its ends is
      refused in any mix of upper and lower case, wherever it stands. */
  lemma BlockedPhraseIsRefused(text: string, patterns: seq<string>, indicators: seq<string>, i: nat)
    requires i < |patterns| && Trimmed(Lower(patterns[i]))
    requires Contains(Lower(text), Lower(patterns[i]))
    ensures InjectionVerdict(text, patterns, indicators).Blocked?
    ensures InjectionVerdict(text, patterns, indicators).reason.SecurityPattern?
  {
    StripKeepsNeedle(Lower(text), Lower(patterns[i]));
    assert FirstPatternHit(Strip(Lower(text)), patterns) <= i;
  }

  /** Every one of the service's patterns meets the condition above. */
  lemma SecurityPatternsTrimmed()
    ensures forall i :: 0 <= i < |SecurityPatterns| ==> Trimmed(Lower(SecurityPatterns[i]))
  {
    assert forall i :: 0 <= i < |SecurityPatterns| ==> Trimmed(SecurityPatterns[i]);
    forall i | 0 <= i < |SecurityPatterns| ensures Trimmed(Lower(SecurityPatterns[i])) {
      LowerKeepsTrimmed(SecurityPatterns[i]);
    }
  }

  lemma LowerKeepsTrimmed(p: string)
    requires Trimmed(p)
    ensures Trimmed(Lower(p))
  {
    assert Lower(p)[0] == LowerChar(p[0]);
    assert Lower(p)[|p| - 1] == LowerChar(p[|p| - 1]);
  }

  /** The tests are tried in a fixed order: a blocked phrase is reported
      even when the input is also too long or has too many line breaks. */
  lemma PatternTakesPrecedence(text: string, patterns: seq<string>, indicators: seq<string>, i: nat)
    requires i < |patterns|
    requires Contains(Strip(Lower(text)), Lower(patterns[i]))
    requires forall j :: 0 <= j < i ==> !Contains(Strip(Lower(text)), Lower(patterns[j]))
    ensures InjectionVerdict(text, patterns, indicators) == Blocked(SecurityPattern(patterns[i]))
  {
    assert FirstPatternHit(Strip(Lower(text)), patterns) == i;
  }
}
