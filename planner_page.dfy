/**
 * The planner page's form: the fields a trip request is typed or spoken into, the extractor that
 * fills them from a Chinese voice transcript, the preference toggle and the checks made before a
 * request is sent.
 *
 * Each of the extractor's three regular expressions is modelled twice: by the position where the
 * search succeeds, computed by scanning (what the regex engine returns), and by a declarative
 * predicate saying when the pattern fits at a position with a given capture, in any of the ways
 * the engine could try. Lemmas show that the fit is unique, so backtracking and laziness cannot
 * change the capture.
 */
module PlannerPage {
  import opened Basics
  import opened Text

  // ---------------------------------------------------------------- leftmost search

  /** The three patterns the extractor searches the transcript for. */
  datatype Pattern = DestinationPattern | BudgetPattern | TravelersPattern

  /** The search for `pattern` succeeds at position `p` of `s`. */
  predicate MatchesAt(pattern: Pattern, s: string, p: nat)
  {
    match pattern
    case DestinationPattern => DestinationAt(s, p)
    case BudgetPattern => BudgetAt(s, p)
    case TravelersPattern => TravelersAt(s, p)
  }

  /** The least position from `from` on where the search succeeds: where `text.match` reports its match. */
  function Leftmost(pattern: Pattern, s: string, from: nat): (r: Option<nat>)
    ensures r.None? <==> forall p: nat :: from <= p < |s| ==> !MatchesAt(pattern, s, p)
    ensures r.Some? ==> from <= r.value < |s| && MatchesAt(pattern, s, r.value)
    ensures r.Some? ==> forall q: nat :: from <= q < r.value ==> !MatchesAt(pattern, s, q)
    decreases |s| - from
  {
    if from >= |s| then None
    else if MatchesAt(pattern, s, from) then Some(from)
    else Leftmost(pattern, s, from + 1)
  }

  /** The end of the run of ASCII digits starting at `i`. */
  function DigitRunEnd(s: string, i: nat): (j: nat)
    requires i <= |s|
    ensures i <= j <= |s| && (j == |s| || !IsDigit(s[j]))
    ensures AllDigits(s[i..j])
    decreases |s| - i
  {
    if i == |s| || !IsDigit(s[i]) then i else DigitRunEnd(s, i + 1)
  }

  /** A run of digits from `i` ends no later than `DigitRunEnd`, and exactly there when a non-digit or the end follows it. */
  lemma {:induction false} DigitRunIsMaximal(s: string, i: nat, e: nat)
    requires i <= e <= |s| && AllDigits(s[i..e])
    ensures e <= DigitRunEnd(s, i)
    ensures e == |s| || !IsDigit(s[e]) ==> DigitRunEnd(s, i) == e
    decreases e - i
  {
    if i < e {
      assert s[i..e][0] == s[i];
      assert s[i + 1..e] == s[i..e][1..];
      DigitRunIsMaximal(s, i + 1, e);
    }
  }

  // ---------------------------------------------------------------- destination: /去([^，,。、]+?)(?:[，,。、]|$)/

  /** The characters that end a spoken destination: full-width and ASCII comma, full stop, enumeration comma. */
  predicate IsSeparator(c: char)
  {
    c == '，' || c == ',' || c == '。' || c == '、'
  }

  /** No character of `t` is a separator. */
  predicate NoSeparator(t: string)
  {
    forall k :: 0 <= k < |t| ==> !IsSeparator(t[k])
  }

  /** The end of the run of non-separators starting at `i`: the next separator or the end of the text. */
  function SeparatorFrom(s: string, i: nat): (j: nat)
    requires i <= |s|
    ensures i <= j <= |s| && (j == |s| || IsSeparator(s[j]))
    ensures NoSeparator(s[i..j])
    decreases |s| - i
  {
    if i == |s| || IsSeparator(s[i]) then i else SeparatorFrom(s, i + 1)
  }

  /** The pattern fits at `p` with its group spanning `[p + 1, e)`. */
  predicate DestinationFits(s: string, p: nat, e: nat)
  {
    && p + 1 < e <= |s| && s[p] == '去'
    && NoSeparator(s[p + 1..e])
    && (e == |s| || IsSeparator(s[e]))
  }

  /** A `去` followed by a non-separator: the search succeeds at `p`. */
  predicate DestinationAt(s: string, p: nat)
  {
    p + 1 < |s| && s[p] == '去' && !IsSeparator(s[p + 1])
  }

  /** The pattern fits at `p` exactly when `DestinationAt` holds, and then only with the group ending at the next separator. */
  lemma DestinationFitIsUnique(s: string, p: nat, e: nat)
    ensures DestinationAt(s, p) ==> DestinationFits(s, p, SeparatorFrom(s, p + 1))
    ensures DestinationFits(s, p, e) ==> DestinationAt(s, p) && e == SeparatorFrom(s, p + 1)
  {
    if DestinationFits(s, p, e) {
      assert s[p + 1..e][0] == s[p + 1];
      SeparatorRunIsMaximal(s, p + 1, e);
    }
  }

  /** A separator-free stretch from `i` ends no later than `SeparatorFrom(s, i)`, and exactly there when a separator or the end follows it. */
  lemma {:induction false} SeparatorRunIsMaximal(s: string, i: nat, e: nat)
    requires i <= e <= |s| && NoSeparator(s[i..e])
    ensures e <= SeparatorFrom(s, i)
    ensures e == |s| || IsSeparator(s[e]) ==> SeparatorFrom(s, i) == e
    decreases e - i
  {
    if i < e {
      assert s[i..e][0] == s[i];
      assert s[i + 1..e] == s[i..e][1..];
      SeparatorRunIsMaximal(s, i + 1, e);
    }
  }

  /** Where `text.match` finds the destination pattern: the first `去` followed by a non-separator. */
  function DestinationMatch(s: string): (r: Option<nat>)
    ensures r.None? <==> forall p: nat :: p < |s| ==> !DestinationAt(s, p)
    ensures r.Some? ==> DestinationAt(s, r.value) && forall q: nat :: q < r.value ==> !DestinationAt(s, q)
  {
    assert forall p: nat :: MatchesAt(DestinationPattern, s, p) == DestinationAt(s, p);
    Leftmost(DestinationPattern, s, 0)
  }

  /** `destMatch[1]`: the whole run of non-separators after the first `去` that has one. */
  function DestinationGroup(s: string): Option<string>
  {
    match DestinationMatch(s)
    case None => None
    case Some(p) => Some(s[p + 1..SeparatorFrom(s, p + 1)])
  }

  /**
   * The destination is captured exactly when the search succeeds, and the capture is the one way
   * the pattern fits at the match: a non-empty run of non-separators up to a separator or the end.
   */
  lemma DestinationGroupIsCapture(s: string)
    ensures DestinationGroup(s).Some? <==> DestinationMatch(s).Some?
    ensures DestinationGroup(s).Some? ==>
      var p, g := DestinationMatch(s).value, DestinationGroup(s).value;
      DestinationFits(s, p, p + 1 + |g|) && g == s[p + 1..p + 1 + |g|]
  {
    if DestinationMatch(s).Some? {
      DestinationFitIsUnique(s, DestinationMatch(s).value, 0);
    }
  }

  // ---------------------------------------------------------------- budget: /预算[：:]?(\d+)[万千百]?[元块]/

  predicate IsColon(c: char) { c == '：' || c == ':' }

  predicate IsMagnitude(c: char) { c == '万' || c == '千' || c == '百' }

  predicate IsCurrency(c: char) { c == '元' || c == '块' }

  /** At `e` stands `元` or `块`, possibly after one of `万`, `千`, `百`. */
  predicate AmountEndsAt(s: string, e: nat)
  {
    (e < |s| && IsCurrency(s[e])) || (e + 1 < |s| && IsMagnitude(s[e]) && IsCurrency(s[e + 1]))
  }

  /** The pattern fits at `p` with its digit group spanning `[d, e)`. */
  predicate BudgetFits(s: string, p: nat, d: nat, e: nat)
  {
    && p + 2 <= d < e <= |s| && s[p] == '预' && s[p + 1] == '算'
    && (d == p + 2 || (d == p + 3 && IsColon(s[p + 2])))
    && AllDigits(s[d..e])
    && AmountEndsAt(s, e)
  }

  /** Where the digits start: after the colon when one follows `预算`. */
  function BudgetDigitsStart(s: string, p: nat): nat
    requires p + 2 <= |s|
  {
    if p + 2 < |s| && IsColon(s[p + 2]) then p + 3 else p + 2
  }

  /** `预算`, an optional colon, a non-empty digit run and a currency word: the search succeeds at `p`. */
  predicate BudgetAt(s: string, p: nat)
  {
    && p + 2 <= |s| && s[p] == '预' && s[p + 1] == '算'
    && var d := BudgetDigitsStart(s, p);
       d <= |s| && d < DigitRunEnd(s, d) && AmountEndsAt(s, DigitRunEnd(s, d))
  }

  /** The pattern fits at `p` exactly when `BudgetAt` holds, and then only with the maximal digit run as its group. */
  lemma BudgetFitIsUnique(s: string, p: nat, d: nat, e: nat)
    ensures BudgetAt(s, p) ==>
      var d0 := BudgetDigitsStart(s, p);
      BudgetFits(s, p, d0, DigitRunEnd(s, d0))
    ensures BudgetFits(s, p, d, e) ==>
      BudgetAt(s, p) && d == BudgetDigitsStart(s, p) && e == DigitRunEnd(s, d)
  {
    if BudgetFits(s, p, d, e) {
      assert IsDigit(s[d]);
      assert d == BudgetDigitsStart(s, p);
      DigitRunIsMaximal(s, d, e);
    }
  }

  /** Where `text.match` finds the budget pattern. */
  function BudgetMatch(s: string): (r: Option<nat>)
    ensures r.None? <==> forall p: nat :: p < |s| ==> !BudgetAt(s, p)
    ensures r.Some? ==> BudgetAt(s, r.value) && forall q: nat :: q < r.value ==> !BudgetAt(s, q)
  {
    assert forall p: nat :: MatchesAt(BudgetPattern, s, p) == BudgetAt(s, p);
    Leftmost(BudgetPattern, s, 0)
  }

  /** `budgetMatch[1]`: the digits of the first budget phrase. */
  function BudgetGroup(s: string): (r: Option<string>)
    ensures r.Some? ==> |r.value| >= 1 && AllDigits(r.value)
  {
    match BudgetMatch(s)
    case None => None
    case Some(p) =>
      var d := BudgetDigitsStart(s, p);
      Some(s[d..DigitRunEnd(s, d)])
  }

  /**
   * The budget digits are captured exactly when the search succeeds, and the capture is the one
   * way the pattern fits at the match: the maximal digit run after `预算` and its optional colon.
   */
  lemma BudgetGroupIsCapture(s: string)
    ensures BudgetGroup(s).Some? <==> BudgetMatch(s).Some?
    ensures BudgetGroup(s).Some? ==>
      var p, g := BudgetMatch(s).value, BudgetGroup(s).value;
      var d := BudgetDigitsStart(s, p);
      BudgetFits(s, p, d, d + |g|) && g == s[d..d + |g|]
  {
    if BudgetMatch(s).Some? {
      BudgetFitIsUnique(s, BudgetMatch(s).value, 0, 0);
    }
  }

  /**
   * The factor the spoken amount is scaled by. It is chosen by which of `万`, `千`, `百` occur
   * anywhere in the text, not by the word after the digits.
   */
  function Magnitude(s: string): nat
  {
    if Contains(s, "万") then 10000
    else if Contains(s, "千") then 1000
    else if Contains(s, "百") then 100
    else 1
  }

  /** The magnitude is one of 1, 100, 1000, 10000: the largest unit the text mentions, or 1 when it mentions none. */
  lemma MagnitudeIsLargestUnit(s: string)
    ensures var m := Magnitude(s);
      && (m == 1 || m == 100 || m == 1000 || m == 10000)
      && (m == 10000 <==> Contains(s, "万"))
      && (m >= 1000 <==> Contains(s, "万") || Contains(s, "千"))
      && (m >= 100 <==> Contains(s, "万") || Contains(s, "千") || Contains(s, "百"))
  {
  }

  /** The magnitude comes from anywhere in the text: the `千` of a place name turns a budget of 8 元 into 8000. */
  lemma MagnitudeFromWholeText()
    ensures SpokenBudget("预算8元去千岛湖") == Some("8000")
  {
    var s := "预算8元去千岛湖";
    assert DigitRunEnd(s, 2) == 3 by {
      assert DigitRunEnd(s, 3) == 3;
    }
    assert BudgetAt(s, 0);
    assert BudgetGroup(s) == Some("8") by {
      assert s[2..3] == "8";
    }
    ContainsChar(s, '万');
    ContainsChar(s, '千');
    assert Magnitude(s) == 1000;
    assert ParseDigits("8") == 8 by {
      assert "8"[..0] == [];
    }
    EightThousandText();
  }

  /** Eight thousand is written `8000`. */
  lemma EightThousandText()
    ensures NatToString(8000) == "8000"
  {
    assert NatToString(8) == "8";
    assert NatToString(80) == "80";
    assert NatToString(800) == "800";
  }

  /**
   * The destination field after a transcript: found exactly when some `去` is followed by a
   * non-separator, and then the group the pattern fits with at the first such `去`, trimmed.
   */
  function SpokenDestination(text: string): (r: Option<string>)
    ensures r.Some? <==> exists p: nat :: p < |text| && DestinationAt(text, p)
    ensures r.Some? ==> exists p: nat, e: nat ::
      && DestinationFits(text, p, e)
      && (forall q: nat :: q < p ==> !DestinationAt(text, q))
      && r.value == Trim(text[p + 1..e])
  {
    DestinationGroupIsCapture(text);
    match DestinationGroup(text)
    case Some(g) =>
      var p := DestinationMatch(text).value;
      assert DestinationFits(text, p, p + 1 + |g|);
      Some(Trim(g))
    case None => None
  }

  /** The destination block of `parseVoiceInput`: the captured name with surrounding whitespace trimmed. */
  method ExtractDestination(text: string) returns (found: Option<string>)
    ensures found == SpokenDestination(text)
  {
    found := None;
    var destMatch := DestinationGroup(text);
    if destMatch.Some? {
      found := Some(Trim(destMatch.value));
    }
  }

  /**
   * The budget field after a transcript: found exactly when the budget phrase occurs, and then the
   * decimal text, without leading zeros, of the digits the pattern fits with at the first phrase
   * times the magnitude.
   */
  function SpokenBudget(text: string): (r: Option<string>)
    ensures r.Some? <==> exists p: nat :: p < |text| && BudgetAt(text, p)
    ensures r.Some? ==> |r.value| >= 1 && AllDigits(r.value) && (r.value[0] == '0' ==> ParseDigits(r.value) == 0)
    ensures r.Some? ==> exists p: nat, d: nat, e: nat ::
      && BudgetFits(text, p, d, e)
      && (forall q: nat :: q < p ==> !BudgetAt(text, q))
      && r.value == NatToString(ParseDigits(text[d..e]) * Magnitude(text))
  {
    match BudgetGroup(text)
    case Some(digits) =>
      var amount := NatToString(ParseDigits(digits) * Magnitude(text));
      BudgetOfCapture(text, digits);
      Some(amount)
    case None =>
      BudgetGroupIsCapture(text);
      None
  }

  /** The spoken amount is that of the digits the pattern fits with at the first budget phrase. */
  lemma BudgetOfCapture(text: string, digits: string)
    requires BudgetGroup(text) == Some(digits)
    ensures exists p: nat :: p < |text| && BudgetAt(text, p)
    ensures exists p: nat, d: nat, e: nat ::
      && BudgetFits(text, p, d, e)
      && (forall q: nat :: q < p ==> !BudgetAt(text, q))
      && NatToString(ParseDigits(digits) * Magnitude(text)) == NatToString(ParseDigits(text[d..e]) * Magnitude(text))
  {
    BudgetGroupIsCapture(text);
    var p := BudgetMatch(text).value;
    var d := BudgetDigitsStart(text, p);
    var e := d + |digits|;
    assert digits == text[d..e];
    assert BudgetFits(text, p, d, e);
  }

  /**
   * The budget block of `parseVoiceInput`: the spoken digits, scaled step by step by the
   * magnitude the whole text names, written back in decimal.
   */
  method ExtractBudget(text: string) returns (found: Option<string>)
    ensures found == SpokenBudget(text)
  {
    found := None;
    var budgetMatch := BudgetGroup(text);
    if budgetMatch.Some? {
      var amount := ParseDigits(budgetMatch.value);
      if Contains(text, "万") {
        amount := amount * 10000;
      } else if Contains(text, "千") {
        amount := amount * 1000;
      } else if Contains(text, "百") {
        amount := amount * 100;
      }
      found := Some(NatToString(amount));
    }
  }

  // ---------------------------------------------------------------- travelers: /(\d+)[人个]/

  predicate IsCountWord(c: char) { c == '人' || c == '个' }

  /** The pattern fits at `p` with its group spanning `[p, e)`. */
  predicate TravelersFits(s: string, p: nat, e: nat)
  {
    p < e < |s| && AllDigits(s[p..e]) && IsCountWord(s[e])
  }

  /** A digit run starting at `p` and followed by `人` or `个`: the search succeeds at `p`. */
  predicate TravelersAt(s: string, p: nat)
  {
    p < |s| && IsDigit(s[p]) && DigitRunEnd(s, p) < |s| && IsCountWord(s[DigitRunEnd(s, p)])
  }

  /** The pattern fits at `p` exactly when `TravelersAt` holds, and then only with the digit run up to the count word. */
  lemma TravelersFitIsUnique(s: string, p: nat, e: nat)
    ensures TravelersAt(s, p) ==> TravelersFits(s, p, DigitRunEnd(s, p))
    ensures TravelersFits(s, p, e) ==> TravelersAt(s, p) && e == DigitRunEnd(s, p)
  {
    if TravelersFits(s, p, e) {
      assert s[p..e][0] == s[p];
      DigitRunIsMaximal(s, p, e);
    }
  }

  /** Where `text.match` finds the travelers pattern. */
  function TravelersMatch(s: string): (r: Option<nat>)
    ensures r.None? <==> forall p: nat :: p < |s| ==> !TravelersAt(s, p)
    ensures r.Some? ==> TravelersAt(s, r.value) && forall q: nat :: q < r.value ==> !TravelersAt(s, q)
  {
    assert forall p: nat :: MatchesAt(TravelersPattern, s, p) == TravelersAt(s, p);
    Leftmost(TravelersPattern, s, 0)
  }

  /**
   * `travelersMatch[1]`: a whole digit run, not the tail of a longer one, followed by `人` or `个`;
   * every earlier whole digit run is followed by something else.
   */
  function TravelersGroup(s: string): Option<string>
  {
    match TravelersMatch(s)
    case None => None
    case Some(p) => Some(s[p..DigitRunEnd(s, p)])
  }

  /**
   * The traveler count is captured exactly when the search succeeds. The capture is a whole digit
   * run, not the tail of a longer one, followed by `人` or `个`, and every earlier whole digit run
   * is followed by something else.
   */
  lemma TravelersGroupIsCapture(s: string)
    ensures TravelersGroup(s).Some? <==> TravelersMatch(s).Some?
    ensures TravelersGroup(s).Some? ==>
      var p, g := TravelersMatch(s).value, TravelersGroup(s).value;
      && TravelersFits(s, p, p + |g|) && g == s[p..p + |g|]
      && |g| >= 1 && AllDigits(g)
      && (p == 0 || !IsDigit(s[p - 1]))
  {
    if TravelersMatch(s).Some? {
      var p := TravelersMatch(s).value;
      TravelersFitIsUnique(s, p, 0);
      if p > 0 && IsDigit(s[p - 1]) {
        TravelersAtRunStart(s, p);
      }
    }
  }

  /** A match inside a digit run extends one position back to the same run end. */
  lemma TravelersAtRunStart(s: string, p: nat)
    requires TravelersAt(s, p) && 0 < p && IsDigit(s[p - 1])
    ensures TravelersAt(s, p - 1)
  {
    assert DigitRunEnd(s, p - 1) == DigitRunEnd(s, p);
  }

  // ---------------------------------------------------------------- preference tags

  /** A tag and the words whose presence in the transcript adds it. */
  type Trigger = (string, seq<string>)

  /** The tags the extractor can add, in the order it adds them, with their trigger words. */
  const PreferenceTriggers: seq<Trigger> := [
    ("美食", ["美食"]),
    ("历史文化", ["历史", "文化"]),
    ("自然风光", ["自然", "风景"]),
    ("购物", ["购物"]),
    ("动漫", ["动漫", "二次元"]),
    ("亲子", ["孩子", "亲子"])
  ]

  /** Some word of `words` occurs in `text`. */
  predicate Mentions(text: string, words: seq<string>)
  {
    exists k :: 0 <= k < |words| && Contains(text, words[k])
  }

  /** The tags of a trigger table, in order. */
  function Tags(table: seq<Trigger>): seq<string>
  {
    seq(|table|, k requires 0 <= k < |table| => table[k].0)
  }

  /** `a` is `b` with some elements removed, the rest kept in order. */
  predicate IsSubsequence<T(==)>(a: seq<T>, b: seq<T>)
    decreases |b|
  {
    || a == []
    || (&& b != []
        && ((a[|a| - 1] == b[|b| - 1] && IsSubsequence(a[..|a| - 1], b[..|b| - 1]))
            || IsSubsequence(a, b[..|b| - 1])))
  }

  /** `if (found) prefs.push(tag)`, as a value. */
  function PushedIf(prefs: seq<string>, found: bool, tag: string): seq<string>
  {
    if found then prefs + [tag] else prefs
  }

  /** The tags whose trigger words occur in `text`, in table order. */
  function TagsMentioned(text: string, table: seq<Trigger>): seq<string>
  {
    if table == [] then []
    else
      var last := table[|table| - 1];
      PushedIf(TagsMentioned(text, table[..|table| - 1]), Mentions(text, last.1), last.0)
  }

  /** A tag is present exactly when one of its trigger words occurs in `text`. */
  lemma {:induction false} TagsMentionedMembers(text: string, table: seq<Trigger>)
    ensures forall t :: t in TagsMentioned(text, table) <==>
      exists k :: 0 <= k < |table| && table[k].0 == t && Mentions(text, table[k].1)
  {
    if table != [] {
      var front := table[..|table| - 1];
      TagsMentionedMembers(text, front);
      assert forall k :: 0 <= k < |front| ==> front[k] == table[k];
    }
  }

  /** The tags found keep the table's order. */
  lemma {:induction false} TagsMentionedOrder(text: string, table: seq<Trigger>)
    ensures IsSubsequence(TagsMentioned(text, table), Tags(table))
  {
    if table != [] {
      var front := table[..|table| - 1];
      var last := table[|table| - 1];
      TagsMentionedOrder(text, front);
      assert Tags(table)[..|table| - 1] == Tags(front);
      var r := TagsMentioned(text, table);
      if Mentions(text, last.1) {
        assert r[..|r| - 1] == TagsMentioned(text, front);
      } else {
        assert r == TagsMentioned(text, front);
      }
    }
  }

  /** A table with distinct tags yields distinct tags. */
  lemma {:induction false} TagsMentionedDistinct(text: string, table: seq<Trigger>)
    requires Distinct(Tags(table))
    ensures Distinct(TagsMentioned(text, table))
  {
    if table != [] {
      var front := table[..|table| - 1];
      assert Tags(front) == Tags(table)[..|table| - 1];
      TagsMentionedDistinct(text, front);
      TagsMentionedMembers(text, front);
      var last := table[|table| - 1];
      forall k | 0 <= k < |front|
        ensures front[k].0 != last.0
      {
        assert Tags(table)[k] == front[k].0;
        assert Tags(table)[|table| - 1] == last.0;
      }
      var prev := TagsMentioned(text, front);
      assert last.0 !in prev;
      assert TagsMentioned(text, table) == PushedIf(prev, Mentions(text, last.1), last.0);
    }
  }

  /** The preference tags a transcript yields. */
  function ExtractedPreferences(text: string): seq<string>
  {
    TagsMentioned(text, PreferenceTriggers)
  }

  /**
   * The extracted tags are a duplicate-free subsequence of 美食, 历史文化, 自然风光, 购物, 动漫,
   * 亲子, holding a tag exactly when one of its trigger words occurs in the transcript.
   */
  lemma ExtractedPreferencesShape(text: string)
    ensures Distinct(ExtractedPreferences(text))
    ensures IsSubsequence(ExtractedPreferences(text), ["美食", "历史文化", "自然风光", "购物", "动漫", "亲子"])
    ensures forall k :: 0 <= k < |PreferenceTriggers| ==>
      (PreferenceTriggers[k].0 in ExtractedPreferences(text) <==> Mentions(text, PreferenceTriggers[k].1))
  {
    var tags := Tags(PreferenceTriggers);
    assert tags == ["美食", "历史文化", "自然风光", "购物", "动漫", "亲子"];
    TagsMentionedDistinct(text, PreferenceTriggers);
    TagsMentionedMembers(text, PreferenceTriggers);
    TagsMentionedOrder(text, PreferenceTriggers);
  }

  /**
   * The preference part of `parseVoiceInput`: each tag is pushed, in table order, when one of its
   * trigger words occurs in the transcript.
   */
  method CollectPreferences(text: string) returns (prefs: seq<string>)
    ensures prefs == ExtractedPreferences(text)
  {
    PreferenceTriggersValues();
    prefs := [];
    ghost var before0 := prefs;
    if Contains(text, "美食") {
      prefs := prefs + ["美食"];
    }
    TriggerStepOne(text, 0, "美食", before0, prefs);
    ghost var before1 := prefs;
    if Contains(text, "历史") || Contains(text, "文化") {
      prefs := prefs + ["历史文化"];
    }
    TriggerStepTwo(text, 1, "历史文化", "历史", "文化", before1, prefs);
    ghost var before2 := prefs;
    if Contains(text, "自然") || Contains(text, "风景") {
      prefs := prefs + ["自然风光"];
    }
    TriggerStepTwo(text, 2, "自然风光", "自然", "风景", before2, prefs);
    ghost var before3 := prefs;
    if Contains(text, "购物") {
      prefs := prefs + ["购物"];
    }
    TriggerStepOne(text, 3, "购物", before3, prefs);
    ghost var before4 := prefs;
    if Contains(text, "动漫") || Contains(text, "二次元") {
      prefs := prefs + ["动漫"];
    }
    TriggerStepTwo(text, 4, "动漫", "动漫", "二次元", before4, prefs);
    ghost var before5 := prefs;
    if Contains(text, "孩子") || Contains(text, "亲子") {
      prefs := prefs + ["亲子"];
    }
    TriggerStepTwo(text, 5, "亲子", "孩子", "亲子", before5, prefs);
    assert PreferenceTriggers[..6] == PreferenceTriggers;
  }

  // ---------------------------------------------------------------- preference toggle

  /** `s.filter(p => p !== x)`: every `x` removed, everything else kept in order. */
  function Without(s: seq<string>, x: string): (r: seq<string>)
    ensures x !in r
    ensures forall y :: y != x ==> multiset(r)[y] == multiset(s)[y]
    ensures IsSubsequence(r, s)
  {
    if s == [] then []
    else
      var front := s[..|s| - 1];
      var last := s[|s| - 1];
      assert s == front + [last];
      if last == x then Without(front, x)
      else
        var r := Without(front, x) + [last];
        assert r[..|r| - 1] == Without(front, x);
        r
  }

  /** Removing a value that does not occur changes nothing. */
  lemma {:induction false} WithoutAbsent(s: seq<string>, x: string)
    requires x !in s
    ensures Without(s, x) == s
  {
    if s != [] {
      WithoutAbsent(s[..|s| - 1], x);
    }
  }

  /**
   * `togglePreference`: a selected tag is removed, every copy of it, and the other tags keep their
   * order; an unselected one is appended at the end. No other tag's count changes.
   */
  function Toggled(prev: seq<string>, pref: string): (r: seq<string>)
    ensures pref in r <==> pref !in prev
    ensures forall y :: y != pref ==> multiset(r)[y] == multiset(prev)[y]
    ensures pref in prev ==> IsSubsequence(r, prev)
    ensures pref !in prev ==> r == prev + [pref]
  {
    if pref in prev then Without(prev, pref) else prev + [pref]
  }

  /** Toggling an unselected tag twice restores the list. */
  lemma ToggleTwiceRestores(prev: seq<string>, pref: string)
    requires pref !in prev
    ensures Toggled(Toggled(prev, pref), pref) == prev
  {
    var once := prev + [pref];
    assert once[..|once| - 1] == prev;
    WithoutAbsent(prev, pref);
  }

  /** Toggling a selected tag twice moves it, as one copy, to the end. */
  lemma ToggleTwiceMovesToEnd(prev: seq<string>, pref: string)
    requires pref in prev
    ensures Toggled(Toggled(prev, pref), pref) == Without(prev, pref) + [pref]
  {
  }

  // ---------------------------------------------------------------- submission

  const MissingApiKeyMessage: string := "请先在设置页面配置阿里云 API Key"
  const MissingFieldsMessage: string := "请填写所有必填字段"

  /**
   * The request the form sends. Budget and travelers stay the field texts: their conversion by
   * `parseFloat` and `parseInt` is not part of this model.
   */
  datatype FormRequest = FormRequest(
    destination: string,
    startDate: string,
    endDate: string,
    budget: string,
    travelers: string,
    preferences: seq<string>,
    specialRequirements: string)

  /**
   * The checks of a submission. A missing API key is reported before missing fields; a request is
   * built exactly when the key and the four required fields are all non-empty, and it carries the
   * fields unchanged, with the transcript as its special requirements.
   */
  function CheckSubmission(
    apiKey: string, destination: string, startDate: string, endDate: string,
    budget: string, travelers: string, preferences: seq<string>, transcript: string): (r: Result<FormRequest, string>)
    ensures apiKey == "" ==> r == Failure(MissingApiKeyMessage)
    ensures apiKey != "" && (destination == "" || startDate == "" || endDate == "" || budget == "") ==>
      r == Failure(MissingFieldsMessage)
    ensures r.Success? <==> apiKey != "" && destination != "" && startDate != "" && endDate != "" && budget != ""
    ensures r.Success? ==>
      && r.value.destination == destination && r.value.startDate == startDate && r.value.endDate == endDate
      && r.value.budget == budget && r.value.travelers == travelers
      && r.value.preferences == preferences && r.value.specialRequirements == transcript
  {
    if apiKey == "" then Failure(MissingApiKeyMessage)
    else if destination == "" || startDate == "" || endDate == "" || budget == "" then Failure(MissingFieldsMessage)
    else Success(FormRequest(destination, startDate, endDate, budget, travelers, preferences, transcript))
  }

  /** A field's new text when the transcript yields one, otherwise its current text. */
  function Otherwise(found: Option<string>, current: string): string
  {
    if found.Some? then found.value else current
  }

  /**
   * The field updates of `parseVoiceInput`: each field takes what its pattern finds in the
   * transcript and otherwise keeps its current value; preferences are replaced only when some tag
   * was found.
   */
  method VoiceInputFields(text: string, destination: string, budget: string, travelers: string, preferences: seq<string>)
    returns (newDestination: string, newBudget: string, newTravelers: string, newPreferences: seq<string>)
    ensures newDestination == Otherwise(SpokenDestination(text), destination)
    ensures newBudget == Otherwise(SpokenBudget(text), budget)
    ensures newTravelers == Otherwise(TravelersGroup(text), travelers)
    ensures newPreferences == (if ExtractedPreferences(text) == [] then preferences else ExtractedPreferences(text))
  {
    newDestination, newBudget, newTravelers, newPreferences := destination, budget, travelers, preferences;

    var spokenDestination := ExtractDestination(text);
    if spokenDestination.Some? {
      newDestination := spokenDestination.value;
    }

    var spokenBudget := ExtractBudget(text);
    if spokenBudget.Some? {
      newBudget := spokenBudget.value;
    }

    var travelersMatch := TravelersGroup(text);
    if travelersMatch.Some? {
      newTravelers := travelersMatch.value;
    }

    var prefs := CollectPreferences(text);
    if |prefs| > 0 {
      newPreferences := prefs;
    }
  }

  // ---------------------------------------------------------------- the form

  /** The planner page's state: one field per input, the selected tags and the error line. */
  class PlannerForm {
    var transcript: string
    var destination: string
    var startDate: string
    var endDate: string
    var budget: string
    var travelers: string
    var preferences: seq<string>
    var error: string

    /** An empty form for one traveler. */
    constructor()
      ensures transcript == "" && destination == "" && startDate == "" && endDate == "" && budget == ""
      ensures travelers == "1" && preferences == [] && error == ""
    {
      transcript := "";
      destination := "";
      startDate := "";
      endDate := "";
      budget := "";
      travelers := "1";
      preferences := [];
      error := "";
    }

    /**
     * `parseVoiceInput`: keeps the transcript, then fills each field its pattern finds and leaves
     * the others as they were; preferences are replaced only when some tag was found.
     */
    method ParseVoiceInput(text: string)
      modifies this`transcript, this`destination, this`budget, this`travelers, this`preferences
      ensures transcript == text
      ensures destination == Otherwise(SpokenDestination(text), old(destination))
      ensures budget == Otherwise(SpokenBudget(text), old(budget))
      ensures travelers == Otherwise(TravelersGroup(text), old(travelers))
      ensures preferences == (if ExtractedPreferences(text) == [] then old(preferences) else ExtractedPreferences(text))
      ensures startDate == old(startDate) && endDate == old(endDate) && error == old(error)
    {
      var newDestination, newBudget, newTravelers, newPreferences :=
        VoiceInputFields(text, destination, budget, travelers, preferences);
      transcript, destination, budget, travelers, preferences := text, newDestination, newBudget, newTravelers, newPreferences;
    }

    /** `togglePreference`. */
    method TogglePreference(pref: string)
      modifies this`preferences
      ensures preferences == Toggled(old(preferences), pref)
    {
      preferences := Toggled(preferences, pref);
    }

    /**
     * The synchronous part of `handleSubmit`: clears the error, then either reports the first
     * failed check or yields the request to send.
     */
    method HandleSubmit(apiKey: string) returns (request: Option<FormRequest>)
      modifies this`error
      ensures var r := CheckSubmission(apiKey, destination, startDate, endDate, budget, travelers, preferences, transcript);
        && (r.Success? ==> request == Some(r.value) && error == "")
        && (r.Failure? ==> request == None && error == r.error)
    {
      error := "";
      if apiKey == "" {
        error := MissingApiKeyMessage;
        return None;
      }
      if destination == "" || startDate == "" || endDate == "" || budget == "" {
        error := MissingFieldsMessage;
        return None;
      }
      request := Some(FormRequest(destination, startDate, endDate, budget, travelers, preferences, transcript));
    }
  }

  /** The trigger table entry by entry. */
  lemma PreferenceTriggersValues()
    ensures |PreferenceTriggers| == 6
    ensures PreferenceTriggers[0] == ("美食", ["美食"])
    ensures PreferenceTriggers[1] == ("历史文化", ["历史", "文化"])
    ensures PreferenceTriggers[2] == ("自然风光", ["自然", "风景"])
    ensures PreferenceTriggers[3] == ("购物", ["购物"])
    ensures PreferenceTriggers[4] == ("动漫", ["动漫", "二次元"])
    ensures PreferenceTriggers[5] == ("亲子", ["孩子", "亲子"])
  {
  }

  /** One more table entry pushes its tag exactly when one of its words occurs. */
  lemma TriggerStep(text: string, k: nat)
    requires k < |PreferenceTriggers|
    ensures TagsMentioned(text, PreferenceTriggers[..k + 1]) ==
      PushedIf(TagsMentioned(text, PreferenceTriggers[..k]), Mentions(text, PreferenceTriggers[k].1), PreferenceTriggers[k].0)
  {
    assert PreferenceTriggers[..k + 1][..k] == PreferenceTriggers[..k];
  }

  lemma TriggerStepOne(text: string, k: nat, word: string, before: seq<string>, after: seq<string>)
    requires k < |PreferenceTriggers| && PreferenceTriggers[k] == (word, [word])
    requires before == TagsMentioned(text, PreferenceTriggers[..k])
    requires after == PushedIf(before, Contains(text, word), word)
    ensures after == TagsMentioned(text, PreferenceTriggers[..k + 1])
  {
    TriggerStep(text, k);
    MentionsOne(text, word);
  }

  lemma TriggerStepTwo(text: string, k: nat, tag: string, a: string, b: string, before: seq<string>, after: seq<string>)
    requires k < |PreferenceTriggers| && PreferenceTriggers[k] == (tag, [a, b])
    requires before == TagsMentioned(text, PreferenceTriggers[..k])
    requires after == PushedIf(before, Contains(text, a) || Contains(text, b), tag)
    ensures after == TagsMentioned(text, PreferenceTriggers[..k + 1])
  {
    TriggerStep(text, k);
    MentionsTwo(text, a, b);
  }

  /** A one-word trigger list is mentioned exactly when its word occurs. */
  lemma MentionsOne(text: string, a: string)
    ensures Mentions(text, [a]) <==> Contains(text, a)
  {
    assert [a][0] == a;
  }

  /** A two-word trigger list is mentioned exactly when either word occurs. */
  lemma MentionsTwo(text: string, a: string, b: string)
    ensures Mentions(text, [a, b]) <==> Contains(text, a) || Contains(text, b)
  {
    assert [a, b][0] == a && [a, b][1] == b;
  }
}
