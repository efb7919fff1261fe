/**
 * Model of the keyword classifiers of `AIAnalysis` (src/ai_analysis.js) that
 * turn the analyst's free text into a sentiment, a trend and a confidence.
 * Strings are sequences of characters.
 */
module AIAnalysis {
  import opened Options

  datatype Sentiment = Bullish | Bearish | Neutral

  datatype Trend = Up | Down | Sideways

  /** What `parseAnalysis` returns: the three classifications and the raw text. */
  datatype Analysis = Analysis(sentiment: Sentiment, trend: Trend, confidence: real, raw: string)

  // ---------------------------------------------------------------- text helpers

  /** Lower-cases an ASCII capital letter and leaves every other character alone. */
  function LowerChar(c: char): char
  {
    if 'A' <= c <= 'Z' then (c as int + 32) as char else c
  }

  /** Upper-cases an ASCII small letter and leaves every other character alone. */
  function UpperChar(c: char): char
  {
    if 'a' <= c <= 'z' then (c as int - 32) as char else c
  }

  function ToLower(s: string): (t: string)
    ensures |t| == |s| && forall i :: 0 <= i < |s| ==> t[i] == LowerChar(s[i])
  {
    seq(|s|, i requires 0 <= i < |s| => LowerChar(s[i]))
  }

  function ToUpper(s: string): (t: string)
    ensures |t| == |s| && forall i :: 0 <= i < |s| ==> t[i] == UpperChar(s[i])
  {
    seq(|s|, i requires 0 <= i < |s| => UpperChar(s[i]))
  }

  /** `word` occurs in `text` starting at index `i`. */
  predicate OccursAt(text: string, word: string, i: nat)
  {
    i + |word| <= |text| && text[i..i + |word|] == word
  }

  /** `text.includes(word)`. */
  predicate Contains(text: string, word: string)
  {
    exists i: nat :: i <= |text| && OccursAt(text, word, i)
  }

  // ---------------------------------------------------------------- sentiment and trend

  /** `keyword` (lower-case) is written at index `i` of `s` in some ASCII letter case. */
  predicate SaysAt(s: string, keyword: string, i: nat)
  {
    i + |keyword| <= |s| && ToLower(s[i..i + |keyword|]) == keyword
  }

  /**
   * `keyword` is written somewhere in `s`: a reference reading of the
   * classifiers that never lower-cases the whole text.
   */
  predicate Says(s: string, keyword: string)
  {
    exists i: nat :: i <= |s| && SaysAt(s, keyword, i)
  }

  /** Searching the lower-cased text finds exactly the keywords the text says in some case. */
  lemma SaysIff(s: string, keyword: string)
    ensures Says(s, keyword) <==> Contains(ToLower(s), keyword)
  {
    forall i: nat | i <= |s|
      ensures SaysAt(s, keyword, i) <==> OccursAt(ToLower(s), keyword, i)
    {
      if i + |keyword| <= |s| {
        assert ToLower(s)[i..i + |keyword|] == ToLower(s[i..i + |keyword|]);
      }
    }
  }

  /** `'bullish'` wins over `'bearish'`; neither keyword gives `'neutral'`. */
  function ExtractSentiment(analysis: string): (r: Sentiment)
    ensures r == Bullish <==> Says(analysis, "bullish")
    ensures r == Bearish <==> !Says(analysis, "bullish") && Says(analysis, "bearish")
    ensures r == Neutral <==> !Says(analysis, "bullish") && !Says(analysis, "bearish")
  {
    SaysIff(analysis, "bullish");
    SaysIff(analysis, "bearish");
    var text := ToLower(analysis);
    if Contains(text, "bullish") then Bullish
    else if Contains(text, "bearish") then Bearish
    else Neutral
  }

  /** Upward phrasing is checked first, then downward phrasing; otherwise sideways. */
  function ExtractTrend(analysis: string): (r: Trend)
    ensures r == Up <==> Says(analysis, "upward") || Says(analysis, "up trend")
    ensures r == Down <==>
              !Says(analysis, "upward") && !Says(analysis, "up trend")
              && (Says(analysis, "downward") || Says(analysis, "down trend"))
    ensures r == Sideways <==>
              !Says(analysis, "upward") && !Says(analysis, "up trend")
              && !Says(analysis, "downward") && !Says(analysis, "down trend")
  {
    SaysIff(analysis, "upward");
    SaysIff(analysis, "up trend");
    SaysIff(analysis, "downward");
    SaysIff(analysis, "down trend");
    var text := ToLower(analysis);
    if Contains(text, "upward") || Contains(text, "up trend") then Up
    else if Contains(text, "downward") || Contains(text, "down trend") then Down
    else Sideways
  }

  // ---------------------------------------------------------------- confidence

  /**
   * The characters `\s` matches in a JavaScript regular expression, by code
   * point: tab, line feed, vertical tab, form feed, carriage return, space,
   * no-break space, ogham space mark, the spaces U+2000..U+200A, line and
   * paragraph separators, narrow no-break space, medium mathematical space,
   * ideographic space and the byte-order mark.
   */
  predicate IsRegexSpace(c: char)
  {
    var n := c as int;
    || (0x09 <= n <= 0x0D) || n == 0x20 || n == 0xA0 || n == 0x1680
    || (0x2000 <= n <= 0x200A) || n == 0x2028 || n == 0x2029 || n == 0x202F
    || n == 0x205F || n == 0x3000 || n == 0xFEFF
  }

  predicate IsDigit(c: char)
  {
    '0' <= c <= '9'
  }

  /** End of the longest run of `\s` characters starting at `j` (the greedy `\s*`). */
  function SkipSpaces(s: string, j: nat): (k: nat)
    requires j <= |s|
    ensures j <= k <= |s|
    ensures forall i :: j <= i < k ==> IsRegexSpace(s[i])
    ensures k == |s| || !IsRegexSpace(s[k])
    decreases |s| - j
  {
    if j < |s| && IsRegexSpace(s[j]) then SkipSpaces(s, j + 1) else j
  }

  /** End of the longest run of decimal digits starting at `j` (the greedy `\d+`). */
  function DigitRun(s: string, j: nat): (k: nat)
    requires j <= |s|
    ensures j <= k <= |s|
    ensures forall i :: j <= i < k ==> IsDigit(s[i])
    ensures k == |s| || !IsDigit(s[k])
    decreases |s| - j
  {
    if j < |s| && IsDigit(s[j]) then DigitRun(s, j + 1) else j
  }

  const Label: string := "confidence:"

  /**
   * The regular expression `/confidence:\s*(0\.\d+)/i` tried at index `i`:
   * the digits after `0.` in the captured group, if the match succeeds there.
   * Case folding only affects the ASCII letters of the label.
   */
  function MatchAt(s: string, i: nat): (r: Option<string>)
    ensures r.Some? ==> |r.value| > 0 && forall k :: 0 <= k < |r.value| ==> IsDigit(r.value[k])
  {
    if i + |Label| <= |s| && ToLower(s[i..i + |Label|]) == Label then
      var k := SkipSpaces(s, i + |Label|);
      if k + 2 < |s| && s[k] == '0' && s[k + 1] == '.' && IsDigit(s[k + 2]) then
        Some(s[k + 2..DigitRun(s, k + 2)])
      else None
    else None
  }

  /** The leftmost match at or after index `i`, as `String.prototype.match` reports it. */
  function FirstMatch(s: string, i: nat): (r: Option<string>)
    ensures r.None? <==> forall j :: i <= j <= |s| ==> MatchAt(s, j).None?
    ensures r.Some? ==>
              exists j :: i <= j <= |s| && MatchAt(s, j) == r && forall k :: i <= k < j ==> MatchAt(s, k).None?
    decreases |s| + 1 - i
  {
    if i > |s| then None
    else if MatchAt(s, i).Some? then MatchAt(s, i)
    else FirstMatch(s, i + 1)
  }

  /** The value of a decimal digit. */
  function DigitValue(c: char): real
    requires IsDigit(c)
  {
    match c
    case '0' => 0.0 case '1' => 1.0 case '2' => 2.0 case '3' => 3.0 case '4' => 4.0
    case '5' => 5.0 case '6' => 6.0 case '7' => 7.0 case '8' => 8.0 case _ => 9.0
  }

  /** `parseFloat("0." + digits)` over exact reals. */
  function FractionValue(digits: string): (v: real)
    requires forall k :: 0 <= k < |digits| ==> IsDigit(digits[k])
    ensures 0.0 <= v < 1.0
  {
    if |digits| == 0 then 0.0
    else (DigitValue(digits[0]) + FractionValue(digits[1..])) / 10.0
  }

  /** No `confidence: 0.<digits>` occurs anywhere in the text. */
  predicate NoConfidenceGiven(s: string)
  {
    forall j :: 0 <= j <= |s| ==> MatchAt(s, j).None?
  }

  /** The first stated `confidence: 0.<digits>` as a number in [0, 1); 0.5 when none is stated. */
  function ExtractConfidence(analysis: string): (c: real)
    ensures NoConfidenceGiven(analysis) ==> c == 0.5
    ensures !NoConfidenceGiven(analysis) ==> 0.0 <= c < 1.0
  {
    match FirstMatch(analysis, 0)
    case Some(digits) => FractionValue(digits)
    case None => 0.5
  }

  /** `parseAnalysis`: the three classifications of the same text, with the text kept as `raw`. */
  function ParseAnalysis(analysis: string): (a: Analysis)
    ensures a.sentiment == ExtractSentiment(analysis)
    ensures a.trend == ExtractTrend(analysis)
    ensures a.confidence == ExtractConfidence(analysis)
    ensures a.raw == analysis
    ensures 0.0 <= a.confidence < 1.0
  {
    Analysis(ExtractSentiment(analysis), ExtractTrend(analysis), ExtractConfidence(analysis), analysis)
  }

  // ---------------------------------------------------------------- properties

  lemma LowerConcat(a: string, b: string)
    ensures ToLower(a + b) == ToLower(a) + ToLower(b)
  {
  }

  /** Lower-casing after upper-casing is the same as lower-casing, so ASCII case changes are invisible to the classifiers. */
  lemma LowerAfterUpper(s: string)
    ensures ToLower(ToUpper(s)) == ToLower(s)
    ensures ToLower(ToLower(s)) == ToLower(s)
  {
    assert forall i :: 0 <= i < |s| ==> LowerChar(UpperChar(s[i])) == LowerChar(s[i]);
  }

  /** Sentiment and trend do not depend on ASCII letter case. */
  lemma ClassifiersIgnoreCase(s: string)
    ensures ExtractSentiment(ToUpper(s)) == ExtractSentiment(s)
    ensures ExtractTrend(ToUpper(s)) == ExtractTrend(s)
    ensures ExtractSentiment(ToLower(s)) == ExtractSentiment(s)
    ensures ExtractTrend(ToLower(s)) == ExtractTrend(s)
  {
    LowerAfterUpper(s);
  }

  /** A keyword written in any letter case inside any text is found by the lower-cased search. */
  lemma KeywordFound(before: string, word: string, after: string, keyword: string)
    requires ToLower(word) == keyword
    ensures Contains(ToLower(before + word + after), keyword)
  {
    LowerConcat(before + word, after);
    LowerConcat(before, word);
    var text := ToLower(before + word + after);
    assert text == ToLower(before) + keyword + ToLower(after);
    assert text[|before|..|before| + |keyword|] == keyword;
    assert OccursAt(text, keyword, |before|);
  }

  /** "bullish" anywhere, in any case, makes the sentiment bullish, whatever else the text says. */
  lemma BullishWins(before: string, word: string, after: string)
    requires ToLower(word) == "bullish"
    ensures ExtractSentiment(before + word + after) == Bullish
  {
    KeywordFound(before, word, after, "bullish");
  }

  /** "bearish" in a text that never says "bullish" makes the sentiment bearish. */
  lemma BearishWithoutBullish(before: string, word: string, after: string)
    requires ToLower(word) == "bearish"
    requires !Contains(ToLower(before + word + after), "bullish")
    ensures ExtractSentiment(before + word + after) == Bearish
  {
    KeywordFound(before, word, after, "bearish");
  }

  /** "upward" or "up trend" anywhere, in any case, makes the trend up, even next to downward phrasing. */
  lemma UpwardWins(before: string, word: string, after: string)
    requires ToLower(word) == "upward" || ToLower(word) == "up trend"
    ensures ExtractTrend(before + word + after) == Up
  {
    KeywordFound(before, word, after, ToLower(word));
  }

  /** "downward" or "down trend" in a text without upward phrasing makes the trend down. */
  lemma DownwardWithoutUpward(before: string, word: string, after: string)
    requires ToLower(word) == "downward" || ToLower(word) == "down trend"
    requires !Contains(ToLower(before + word + after), "upward")
    requires !Contains(ToLower(before + word + after), "up trend")
    ensures ExtractTrend(before + word + after) == Down
  {
    KeywordFound(before, word, after, ToLower(word));
  }

  /**
   * The first stated confidence is read back exactly: in a text where the
   * label appears in any letter case, followed by any regex white space,
   * `0.` and a run of digits that the next character (if any) does not
   * continue, and where the pattern matches nowhere before the label, the
   * confidence is those digits as a fraction.
   */
  lemma ConfidenceRoundTrip(before: string, heading: string, spaces: string, digits: string, after: string)
    requires ToLower(heading) == Label
    requires forall k :: 0 <= k < |spaces| ==> IsRegexSpace(spaces[k])
    requires |digits| > 0 && forall k :: 0 <= k < |digits| ==> IsDigit(digits[k])
    requires |after| == 0 || !IsDigit(after[0])
    requires forall j :: 0 <= j < |before| ==>
               MatchAt(before + heading + spaces + "0." + digits + after, j).None?
    ensures ExtractConfidence(before + heading + spaces + "0." + digits + after) == FractionValue(digits)
  {
    var s := before + heading + spaces + "0." + digits + after;
    var b := |before|;
    var n := b + |heading|;
    var z := n + |spaces|;
    var e := z + 2 + |digits|;
    Layout(s, b, n, z, e, before, heading, spaces, digits, after);
    ReadBack(s, b, n, z, e, heading, spaces, digits, after);
  }

  /**
   * The confidence read from `s` when the label sits at `b .. n`, white space
   * at `n .. z`, `0.` at `z`, the digits at `z + 2 .. e` and a tail that does
   * not continue them from `e`, and the pattern matches nowhere before `b`.
   */
  lemma ReadBack(s: string, b: nat, n: nat, z: nat, e: nat,
                 heading: string, spaces: string, digits: string, after: string)
    requires ToLower(heading) == Label
    requires forall k :: 0 <= k < |spaces| ==> IsRegexSpace(spaces[k])
    requires |digits| > 0 && forall k :: 0 <= k < |digits| ==> IsDigit(digits[k])
    requires |after| == 0 || !IsDigit(after[0])
    requires b <= n <= z && z + 2 <= e <= |s|
    requires s[b..n] == heading && s[n..z] == spaces && s[z..z + 2] == "0."
    requires s[z + 2..e] == digits && s[e..] == after
    requires forall j :: 0 <= j < b ==> MatchAt(s, j).None?
    ensures ExtractConfidence(s) == FractionValue(digits)
  {
    assert n == b + |Label|;
    assert forall i :: n <= i < z ==> s[i] == spaces[i - n];
    assert forall i :: z + 2 <= i < e ==> s[i] == digits[i - (z + 2)];
    assert s[z] == "0."[0] && s[z + 1] == "0."[1];
    assert e < |s| ==> s[e] == after[0];
    SkipSpacesTo(s, n, z);
    DigitRunTo(s, z + 2, e);
    MatchAtLabel(s, b, z, e);
    LeftmostMatch(s, 0, b);
  }

  /** The pattern matches at `b` when the label, the white space, `0.` and a maximal digit run line up. */
  lemma MatchAtLabel(s: string, b: nat, z: nat, e: nat)
    requires b + |Label| <= z && z + 2 < e <= |s|
    requires ToLower(s[b..b + |Label|]) == Label
    requires SkipSpaces(s, b + |Label|) == z
    requires s[z] == '0' && s[z + 1] == '.' && IsDigit(s[z + 2])
    requires DigitRun(s, z + 2) == e
    ensures MatchAt(s, b) == Some(s[z + 2..e])
  {
  }

  /** Where the pieces of `before + heading + spaces + "0." + digits + after` sit. */
  lemma Layout(s: string, b: nat, n: nat, z: nat, e: nat,
               before: string, heading: string, spaces: string, digits: string, after: string)
    requires s == before + heading + spaces + "0." + digits + after
    requires b == |before| && n == b + |heading| && z == n + |spaces| && e == z + 2 + |digits|
    ensures b <= n <= z && z + 2 <= e <= |s|
    ensures s[b..n] == heading && s[n..z] == spaces && s[z..z + 2] == "0."
    ensures s[z + 2..e] == digits && s[e..] == after
  {
  }

  /** The greedy `\s*` from `j` stops at `k` when only white space lies between and `s[k]` is not white space.
      A direct consequence of the contract of `SkipSpaces`; the induction spells out the run. */
  lemma {:induction false} SkipSpacesTo(s: string, j: nat, k: nat)
    requires j <= k < |s|
    requires forall i :: j <= i < k ==> IsRegexSpace(s[i])
    requires !IsRegexSpace(s[k])
    ensures SkipSpaces(s, j) == k
    decreases k - j
  {
    if j < k {
      SkipSpacesTo(s, j + 1, k);
    }
  }

  /** The greedy `\d+` from `j` stops at `k` when only digits lie between and nothing continues the run.
      A direct consequence of the contract of `DigitRun`; the induction spells out the run. */
  lemma {:induction false} DigitRunTo(s: string, j: nat, k: nat)
    requires j <= k <= |s|
    requires forall i :: j <= i < k ==> IsDigit(s[i])
    requires k == |s| || !IsDigit(s[k])
    ensures DigitRun(s, j) == k
    decreases k - j
  {
    if j < k {
      DigitRunTo(s, j + 1, k);
    }
  }

  /** A match at `b` with no match between `i` and `b` is the one the search from `i` reports.
      A direct consequence of the leftmost clause of `FirstMatch`; the induction spells out the search. */
  lemma {:induction false} LeftmostMatch(s: string, i: nat, b: nat)
    requires i <= b <= |s| && MatchAt(s, b).Some?
    requires forall j :: i <= j < b ==> MatchAt(s, j).None?
    ensures FirstMatch(s, i) == MatchAt(s, b)
    decreases b - i
  {
    if i < b {
      assert MatchAt(s, i).None?;
      LeftmostMatch(s, i + 1, b);
    }
  }

  /** `10^n` as a real. */
  function Pow10(n: nat): (p: real)
    ensures p >= 1.0
  {
    if n == 0 then 1.0 else 10.0 * Pow10(n - 1)
  }

  /** The digits read as a whole number, most significant first. */
  function NumberValue(digits: string): (v: real)
    requires forall k :: 0 <= k < |digits| ==> IsDigit(digits[k])
  {
    if |digits| == 0 then 0.0
    else NumberValue(digits[..|digits| - 1]) * 10.0 + DigitValue(digits[|digits| - 1])
  }

  /** Splitting off the leading digit: it contributes its value times `10^(n-1)`. */
  lemma {:induction false} NumberValueLeading(digits: string)
    requires |digits| > 0 && forall k :: 0 <= k < |digits| ==> IsDigit(digits[k])
    ensures NumberValue(digits) == DigitValue(digits[0]) * Pow10(|digits| - 1) + NumberValue(digits[1..])
    decreases |digits|
  {
    if |digits| > 1 {
      var init := digits[..|digits| - 1];
      NumberValueLeading(init);
      assert init[1..] == digits[1..][..|digits| - 2];
      assert init[0] == digits[0];
    } else {
      assert digits[1..] == [];
    }
  }

  /** Moving the leading digit inside the scale: `(d + r / p) / 10 == (d * p + r) / (10 * p)`. */
  lemma ShiftDigit(d: real, r: real, p: real)
    requires p >= 1.0
    ensures (d + r / p) / 10.0 == (d * p + r) / (10.0 * p)
  {
    assert (d + r / p) * p == d * p + r;
  }

  /** `0.<digits>` is the whole number spelled by the digits over `10^|digits|`. */
  lemma {:induction false} FractionIsScaledNumber(digits: string)
    requires forall k :: 0 <= k < |digits| ==> IsDigit(digits[k])
    ensures FractionValue(digits) == NumberValue(digits) / Pow10(|digits|)
    decreases |digits|
  {
    if |digits| > 0 {
      var rest := digits[1..];
      FractionIsScaledNumber(rest);
      NumberValueLeading(digits);
      ShiftDigit(DigitValue(digits[0]), NumberValue(rest), Pow10(|rest|));
    }
  }
}
