/** The percentage scanner of the verification page: the leftmost match of
    the regular expression /(\d{1,3})\s?%/ under ECMAScript backtracking,
    the captured digits parsed in base 10, clamped to 0..100, and 50 when
    the text holds no match. */
module Percentage {

  datatype Option<+T> = None | Some(value: T)

  /** `\d` of a regular expression: the ASCII digits. */
  predicate IsDigit(c: char) {
    '0' <= c <= '9'
  }

  /** `\s`: the code points of ECMAScript's WhiteSpace and LineTerminator. */
  predicate IsWhitespace(c: char) {
    c == '\t' || c == '\n' || c == '\U{000B}' || c == '\U{000C}' || c == '\r'
    || c == ' ' || c == '\U{00A0}' || c == '\U{1680}' || ('\U{2000}' <= c <= '\U{200A}')
    || c == '\U{2028}' || c == '\U{2029}' || c == '\U{202F}' || c == '\U{205F}'
    || c == '\U{3000}' || c == '\U{FEFF}'
  }

  /** A successful match: the capture group is s[start..start + width], and
      `spaced` says whether `\s?` consumed a character before the `%`. */
  datatype Match = Match(start: nat, width: nat, spaced: bool)

  // ---------------------------------------------------------------------
  // What the pattern means
  // ---------------------------------------------------------------------

  /** s[i..i + k] lies inside s and consists of digits only. */
  predicate DigitsAt(s: string, i: nat, k: nat) {
    i + k <= |s| && forall j | i <= j < i + k :: IsDigit(s[j])
  }

  /** The pattern matches at position i, capturing k digits, with `\s?`
      taking one whitespace character exactly when `spaced` holds. */
  predicate MatchesAt(s: string, i: nat, k: nat, spaced: bool) {
    1 <= k <= 3 && DigitsAt(s, i, k) &&
    if spaced then i + k + 1 < |s| && IsWhitespace(s[i + k]) && s[i + k + 1] == '%'
    else i + k < |s| && s[i + k] == '%'
  }

  /** The order in which a backtracking engine tries the alternatives at one
      start position: the greedy `\d{1,3}` tries more digits first, and for
      each digit count the greedy `\s?` tries one whitespace before none. */
  predicate TriedBefore(k: nat, spaced: bool, k': nat, spaced': bool) {
    k > k' || (k == k' && spaced && !spaced')
  }

  /** No alternative of the pattern matches at any start in lo..hi-1. */
  ghost predicate NoMatchBetween(s: string, lo: nat, hi: nat) {
    forall j: nat, k: nat, sp: bool :: lo <= j < hi ==> !MatchesAt(s, j, k, sp)
  }

  /** The text holds no substring of the form: one to three digits, at most
      one whitespace character, `%`. */
  ghost predicate NoMatch(s: string) {
    NoMatchBetween(s, 0, |s|)
  }

  /** m is the match that String.prototype.match reports: it matches, no
      start further left matches, and no alternative at its start is tried
      before it. */
  ghost predicate IsFirstMatch(s: string, m: Match) {
    MatchesAt(s, m.start, m.width, m.spaced)
    && NoMatchBetween(s, 0, m.start)
    && forall k: nat, sp: bool :: MatchesAt(s, m.start, k, sp) ==> !TriedBefore(k, sp, m.width, m.spaced)
  }

  // ---------------------------------------------------------------------
  // The backtracking engine
  // ---------------------------------------------------------------------

  /** How many digits the greedy `\d{1,3}` consumes at i (at most `max`). */
  function GreedyDigits(s: string, i: nat, max: nat): (g: nat)
    requires i <= |s|
    ensures g <= max && DigitsAt(s, i, g)
    ensures g < max ==> i + g == |s| || !IsDigit(s[i + g])
    decreases max
  {
    if max == 0 || i == |s| || !IsDigit(s[i]) then 0
    else 1 + GreedyDigits(s, i + 1, max - 1)
  }

  /** Backtracking at start i with k digits consumed: try `\s?` as one
      whitespace, then as nothing, and then give one digit back. */
  function TryWidth(s: string, i: nat, k: nat): (r: Option<Match>)
    requires k <= 3 && DigitsAt(s, i, k)
    ensures r.Some? ==> r.value.start == i && r.value.width <= k
                        && MatchesAt(s, i, r.value.width, r.value.spaced)
    ensures r.Some? ==> forall k': nat, sp: bool :: k' <= k && MatchesAt(s, i, k', sp)
                          ==> !TriedBefore(k', sp, r.value.width, r.value.spaced)
    ensures r.None? ==> forall k': nat, sp: bool :: k' <= k ==> !MatchesAt(s, i, k', sp)
    decreases k
  {
    if k == 0 then None
    else if i + k + 1 < |s| && IsWhitespace(s[i + k]) && s[i + k + 1] == '%' then Some(Match(i, k, true))
    else if i + k < |s| && s[i + k] == '%' then Some(Match(i, k, false))
    else TryWidth(s, i, k - 1)
  }

  /** The outcome of the attempt at one start position. */
  function TryAt(s: string, i: nat): (r: Option<Match>)
    requires i <= |s|
    ensures r.Some? ==> r.value.start == i && MatchesAt(s, i, r.value.width, r.value.spaced)
    ensures r.Some? ==> forall k: nat, sp: bool :: MatchesAt(s, i, k, sp)
                          ==> !TriedBefore(k, sp, r.value.width, r.value.spaced)
    ensures r.None? ==> forall k: nat, sp: bool :: !MatchesAt(s, i, k, sp)
  {
    TryWidth(s, i, GreedyDigits(s, i, 3))
  }

  /** Start positions tried left to right from i. */
  function Scan(s: string, i: nat): (r: Option<Match>)
    requires i <= |s|
    ensures r.Some? ==> i <= r.value.start && MatchesAt(s, r.value.start, r.value.width, r.value.spaced)
                        && NoMatchBetween(s, i, r.value.start)
    ensures r.Some? ==> forall k: nat, sp: bool :: MatchesAt(s, r.value.start, k, sp)
                          ==> !TriedBefore(k, sp, r.value.width, r.value.spaced)
    ensures r.None? ==> NoMatchBetween(s, i, |s|)
    decreases |s| - i
  {
    if i == |s| then None
    else
      match TryAt(s, i)
      case Some(m) => Some(m)
      case None => Scan(s, i + 1)
  }

  /** `text.match(/(\d{1,3})\s?%/)`: the leftmost match, or none. */
  function FirstMatch(s: string): (r: Option<Match>)
    ensures r.Some? ==> IsFirstMatch(s, r.value)
    ensures r.None? <==> NoMatch(s)
  {
    Scan(s, 0)
  }

  // ---------------------------------------------------------------------
  // parseInt, clamping and the extraction itself
  // ---------------------------------------------------------------------

  function Pow10(n: nat): (p: nat)
    ensures p >= 1
  {
    if n == 0 then 1 else 10 * Pow10(n - 1)
  }

  predicate AllDigits(d: string) {
    forall j | 0 <= j < |d| :: IsDigit(d[j])
  }

  /** `parseInt(d, 10)` on a string of digits. */
  function ParseDecimal(d: string): (n: nat)
    requires AllDigits(d)
    ensures n < Pow10(|d|)
  {
    if d == [] then 0
    else 10 * ParseDecimal(d[..|d| - 1]) + (d[|d| - 1] as int - '0' as int)
  }

  /** The digits a match captures. */
  function Captured(s: string, m: Match): (d: string)
    requires MatchesAt(s, m.start, m.width, m.spaced)
    ensures 1 <= |d| <= 3 && AllDigits(d)
  {
    s[m.start..m.start + m.width]
  }

  /** Lines 24-25: first raise a negative value to 0, then lower a value
      above 100 to 100. */
  function Clamp(pct: int): (r: int)
    ensures 0 <= r <= 100
    ensures 0 <= pct <= 100 ==> r == pct
    ensures pct < 0 ==> r == 0
    ensures pct > 100 ==> r == 100
  {
    var raised := if pct < 0 then 0 else pct;
    if raised > 100 then 100 else raised
  }

  /** extractPercentage. */
  function ExtractPercentage(text: string): (pct: int)
    ensures 0 <= pct <= 100
    ensures NoMatch(text) ==> pct == 50
  {
    match FirstMatch(text)
    case Some(m) => Clamp(ParseDecimal(Captured(text, m)))
    case None => 50
  }

  // ---------------------------------------------------------------------
  // Properties of the extraction
  // ---------------------------------------------------------------------

  /** The leftmost, greedy match is unique, so IsFirstMatch describes
      exactly one result of the engine. */
  lemma FirstMatchUnique(s: string, m1: Match, m2: Match)
    requires IsFirstMatch(s, m1) && IsFirstMatch(s, m2)
    ensures m1 == m2
  {
  }

  /** The engine returns the leftmost, greedy match whenever there is one. */
  lemma FirstMatchIs(s: string, m: Match)
    requires IsFirstMatch(s, m)
    ensures FirstMatch(s) == Some(m)
  {
    if FirstMatch(s).Some? {
      FirstMatchUnique(s, FirstMatch(s).value, m);
    }
  }

  /** A capture of one to three digits is worth at most 999. */
  lemma CapturedBelowThousand(s: string, m: Match)
    requires MatchesAt(s, m.start, m.width, m.spaced)
    ensures ParseDecimal(Captured(s, m)) <= 999
  {
    var d := Captured(s, m);
    assert Pow10(|d|) <= 1000 by {
      assert Pow10(3) == 1000;
      if |d| < 3 {
        assert Pow10(2) == 100;
        assert Pow10(1) == 10;
      }
    }
  }

  /** A leftmost match worth at most 100 is returned unchanged. */
  lemma ExtractKeepsValue(s: string, m: Match)
    requires IsFirstMatch(s, m) && ParseDecimal(Captured(s, m)) <= 100
    ensures ExtractPercentage(s) == ParseDecimal(Captured(s, m))
  {
    FirstMatchIs(s, m);
  }

  /** A leftmost match worth 101..999 saturates at 100. */
  lemma ExtractSaturates(s: string, m: Match)
    requires IsFirstMatch(s, m) && ParseDecimal(Captured(s, m)) > 100
    ensures ParseDecimal(Captured(s, m)) <= 999
    ensures ExtractPercentage(s) == 100
  {
    FirstMatchIs(s, m);
    CapturedBelowThousand(s, m);
  }

  /** Whether the pattern matches at j depends only on the characters the
      attempt reads, so text appended after them does not change it. */
  lemma MatchesAtAppend(s: string, t: string, j: nat, k: nat, sp: bool)
    requires j + k + (if sp then 1 else 0) < |s|
    ensures MatchesAt(s + t, j, k, sp) <==> MatchesAt(s, j, k, sp)
  {
    var u := s + t;
    assert forall x | 0 <= x < |s| :: u[x] == s[x];
  }

  /** Appending text keeps the leftmost match: a later percentage never
      replaces an earlier one. */
  lemma {:induction false} FirstMatchAppend(s: string, t: string, m: Match)
    requires IsFirstMatch(s, m)
    ensures IsFirstMatch(s + t, m)
  {
    var u := s + t;
    var p := m.start + m.width;
    assert p < |s| && !IsDigit(s[p]);
    assert u[p] == s[p];
    MatchesAtAppend(s, t, m.start, m.width, m.spaced);
    forall j: nat, k: nat, sp: bool | 0 <= j < m.start
      ensures !MatchesAt(u, j, k, sp)
    {
      if MatchesAt(u, j, k, sp) && j + k <= p {
        if sp && j + k == p {
          assert IsWhitespace(s[p]);
          assert m.spaced;
        }
        MatchesAtAppend(s, t, j, k, sp);
      }
    }
  }

  /** Only the leftmost match counts: once the text holds a match, whatever
      follows it has no effect on the extracted percentage. */
  lemma ExtractIgnoresAppended(s: string, t: string)
    requires !NoMatch(s)
    ensures ExtractPercentage(s + t) == ExtractPercentage(s)
  {
    var m := FirstMatch(s).value;
    FirstMatchAppend(s, t, m);
    FirstMatchIs(s + t, m);
    assert Captured(s + t, m) == Captured(s, m);
  }

  /** Behind a prefix p without digits, the pattern matches at j exactly
      when j lies past p and the pattern matches at j - |p| in the rest. */
  lemma MatchesAtShift(p: string, s: string, j: nat, k: nat, sp: bool)
    requires AllNonDigits(p)
    ensures MatchesAt(p + s, j, k, sp) <==> j >= |p| && MatchesAt(s, j - |p|, k, sp)
  {
    var u := p + s;
    if j < |p| {
      assert !IsDigit(u[j]);
    } else {
      assert forall x | 0 <= x < |s| :: u[|p| + x] == s[x];
    }
  }

  predicate AllNonDigits(p: string) {
    forall j | 0 <= j < |p| :: !IsDigit(p[j])
  }

  /** A prefix without digits adds no match to a text that has none. */
  lemma NoMatchShift(p: string, s: string)
    requires AllNonDigits(p) && NoMatch(s)
    ensures NoMatch(p + s)
  {
    forall j: nat, k: nat, sp: bool | 0 <= j < |p + s|
      ensures !MatchesAt(p + s, j, k, sp)
    {
      MatchesAtShift(p, s, j, k, sp);
    }
  }

  /** Behind a prefix p without digits, the leftmost match is the leftmost
      match of the rest, moved |p| positions to the right. */
  lemma FirstMatchShift(p: string, s: string, m: Match)
    requires AllNonDigits(p) && IsFirstMatch(s, m)
    ensures IsFirstMatch(p + s, Match(m.start + |p|, m.width, m.spaced))
  {
    var u, n := p + s, |p|;
    MatchesAtShift(p, s, m.start + n, m.width, m.spaced);
    forall k: nat, sp: bool | MatchesAt(u, m.start + n, k, sp)
      ensures !TriedBefore(k, sp, m.width, m.spaced)
    {
      MatchesAtShift(p, s, m.start + n, k, sp);
    }
    forall j: nat, k: nat, sp: bool | 0 <= j < m.start + n
      ensures !MatchesAt(u, j, k, sp)
    {
      MatchesAtShift(p, s, j, k, sp);
    }
  }

  /** A prefix without digits, such as a minus sign, is ignored: the scanner
      only ever captures digits, so "-10%" reads as 10. */
  lemma ExtractIgnoresNonDigitPrefix(p: string, s: string)
    requires AllNonDigits(p)
    ensures ExtractPercentage(p + s) == ExtractPercentage(s)
  {
    match FirstMatch(s)
    case None =>
      NoMatchShift(p, s);
    case Some(m) =>
      var m' := Match(m.start + |p|, m.width, m.spaced);
      FirstMatchShift(p, s, m);
      FirstMatchIs(p + s, m');
      assert (p + s)[m'.start..m'.start + m'.width] == s[m.start..m.start + m.width] by {
        assert forall j | m'.start <= j < m'.start + m'.width :: (p + s)[j] == s[j - |p|];
      }
  }

  // ---------------------------------------------------------------------
  // Worked cases
  // ---------------------------------------------------------------------

  // Texts longer than a few characters are written as a concatenation of
  // two literals. The text is the same; the split only keeps the verifier
  // from evaluating the scanner over the whole literal at once.

  lemma PlainPercentage()
    ensures ExtractPercentage("Veracidad: " + "85%") == 85
  {
    ExtractIgnoresNonDigitPrefix("Veracidad: ", "85%");
    assert ExtractPercentage("85%") == 85;
  }

  lemma SpacedPercentage()
    ensures ExtractPercentage("3 %") == 3
  {
  }

  lemma AboveHundredSaturates()
    ensures ExtractPercentage("probabilidad " + "150%") == 100
  {
    var s, m := "150%", Match(0, 3, false);
    assert IsFirstMatch(s, m);
    assert Captured(s, m) == "150";
    assert ParseDecimal("150") == 150;
    ExtractSaturates(s, m);
    ExtractIgnoresNonDigitPrefix("probabilidad ", s);
  }

  lemma FirstPercentageWins()
    ensures ExtractPercentage("45%" + " verdadero, 20% exagerado") == 45
  {
    var s, t := "45%", " verdadero, 20% exagerado";
    var m := Match(0, 2, false);
    assert IsFirstMatch(s, m);
    FirstMatchAppend(s, t, m);
    assert Captured(s + t, m) == "45";
    assert ParseDecimal("45") == 45;
    ExtractKeepsValue(s + t, m);
  }

  lemma MinusSignIgnored()
    ensures ExtractPercentage("riesgo -" + "10%") == 10
  {
    ExtractIgnoresNonDigitPrefix("riesgo -", "10%");
    assert ExtractPercentage("10%") == 10;
  }

  lemma NoNumberGivesDefault()
    ensures ExtractPercentage("sin datos " + "numericos") == 50
  {
    var text := "sin datos " + "numericos";
    assert AllNonDigits(text);
    NoMatchShift(text, "");
    assert text + "" == text;
  }

  lemma FourDigitsBacktrack()
    ensures ExtractPercentage("1234%") == 100
  {
    var s, m := "1234%", Match(1, 3, false);
    assert IsFirstMatch(s, m);
    assert Captured(s, m) == "234";
    assert ParseDecimal("234") == 234;
    ExtractSaturates(s, m);
  }

  /** A percentage inside a sentence, as the service phrases it. */
  lemma EstimateInNarrative()
    ensures ExtractPercentage("Veracidad estimada: " + "3%" + ". Esta afirmación es falsa.") == 3
  {
    var p, s, t := "Veracidad estimada: ", "3%", ". Esta afirmación es falsa.";
    var m := Match(0, 1, false);
    assert IsFirstMatch(s, m);
    assert Captured(s, m) == "3";
    ExtractIgnoresNonDigitPrefix(p, s + t);
    FirstMatchAppend(s, t, m);
    ExtractKeepsValue(s + t, m);
    assert p + s + t == p + (s + t);
  }
}
