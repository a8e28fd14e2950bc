/** The unit-size label of the detail view, `getSizeText`
    (components/TradingView.tsx:65-73): in pyeong mode a size option is shown
    as written; in square-metre mode one fixed option has a hand-written label
    and every other option that matches the pattern
    `(\d+)[A-Z]?평\((\d+)[A-Z]?\)` is shown as `<second>.<first>㎡ (<second>)`.
    The regular expression is modelled as a leftmost scan with a deterministic
    matcher: a greedy digit run can never give back a digit, because what
    follows it must be a capital letter, `평` or `)`. */
module SizeLabel {
  import opened Types

  /** `unitMode`: 'm2' or 'pyeong' (components/TradingView.tsx:24). */
  datatype UnitMode = SquareMetres | Pyeong

  /** The option with a hand-written square-metre label (components/TradingView.tsx:67). */
  const Special: string := "18B평(11B)"
  const SpecialText: string := "61.37A㎡ (39.1A)"

  /** The size options of the selector (components/TradingView.tsx:54-63). */
  const SizeOptions: seq<string> :=
    ["18B평(11B)", "25A평(59A)", "25B평(59B)", "33A평(84A)", "33B평(84B)", "38평(99)", "42평(110)", "50평(134)"]

  /** `\d` without the unicode flag: an ASCII digit. */
  predicate IsDigit(c: char) { '0' <= c <= '9' }

  predicate IsCapital(c: char) { 'A' <= c <= 'Z' }

  predicate AllDigits(s: string) { forall k :: 0 <= k < |s| ==> IsDigit(s[k]) }

  /** `[A-Z]?`: empty or one capital letter. */
  predicate OptCap(u: string) { |u| <= 1 && forall k :: 0 <= k < |u| ==> IsCapital(u[k]) }

  /** The two captured groups of a match. */
  datatype Groups = Groups(first: string, second: string)

  /** The text a match covers: the groups with their optional letters, `평(`
      and `)` around them. */
  function Shape(g: Groups, u1: string, u2: string): string
  {
    g.first + u1 + "평(" + g.second + u2 + ")"
  }

  /** w is the part of s starting at position i. */
  predicate TextAt(s: string, w: string, i: nat)
  {
    i + |w| <= |s| && s[i..i + |w|] == w
  }

  /** Length of the run of digits starting at i: what greedy `\d+` consumes. */
  function DigitRun(s: string, i: nat): (n: nat)
    requires i <= |s|
    ensures i + n <= |s|
    ensures forall j :: i <= j < i + n ==> IsDigit(s[j])
    ensures i + n == |s| || !IsDigit(s[i + n])
    decreases |s| - i
  {
    if i < |s| && IsDigit(s[i]) then 1 + DigitRun(s, i + 1) else 0
  }

  /** Where `[A-Z]?` followed by `mark` ends when it is matched at e, if it is. */
  function AfterMark(s: string, e: nat, mark: char): (r: Option<nat>)
    requires !IsCapital(mark)
    ensures r.Some? ==> e < r.value <= |s| && s[r.value - 1] == mark
    ensures r.Some? ==> r.value == e + 1 || (r.value == e + 2 && IsCapital(s[e]))
    ensures r.None? ==> !(e < |s| && s[e] == mark) && !(e + 1 < |s| && IsCapital(s[e]) && s[e + 1] == mark)
  {
    if e + 1 < |s| && IsCapital(s[e]) && s[e + 1] == mark then Some(e + 2)
    else if e < |s| && s[e] == mark then Some(e + 1)
    else None
  }

  /** The pattern matched at position i, with its two groups, if it matches there. */
  function MatchAt(s: string, i: nat): (r: Option<Groups>)
    requires i <= |s|
    ensures r.Some? ==>
      |r.value.first| > 0 && AllDigits(r.value.first) && i + |r.value.first| <= |s| &&
      s[i..i + |r.value.first|] == r.value.first &&
      |r.value.second| > 0 && AllDigits(r.value.second)
    ensures i < |s| && !IsDigit(s[i]) ==> r.None?
  {
    var n := DigitRun(s, i);
    if n == 0 then None
    else
      match AfterMark(s, i + n, '평')
      case None => None
      case Some(p) =>
        if p < |s| && s[p] == '(' then
          var m := DigitRun(s, p + 1);
          if m == 0 then None
          else
            match AfterMark(s, p + 1 + m, ')')
            case None => None
            case Some(_) => Some(Groups(s[i..i + n], s[p + 1..p + 1 + m]))
        else None
  }

  /** Adjacent slices join into one. */
  lemma SliceJoin(s: string, i: nat, j: nat, k: nat)
    requires i <= j <= k <= |s|
    ensures s[i..j] + s[j..k] == s[i..k]
  {
  }

  /** Six adjacent slices join into one. */
  lemma SixSlices(s: string, a: nat, b: nat, c: nat, d: nat, e: nat, f: nat, g: nat)
    requires a <= b <= c <= d <= e <= f <= g <= |s|
    ensures s[a..g] == s[a..b] + s[b..c] + s[c..d] + s[d..e] + s[e..f] + s[f..g]
  {
    SliceJoin(s, a, b, c);
    SliceJoin(s, a, c, d);
    SliceJoin(s, a, d, e);
    SliceJoin(s, a, e, f);
    SliceJoin(s, a, f, g);
  }

  /** Slices that spell out the pieces of a match make up its text. */
  lemma ShapeFromSlices(s: string, g: Groups, u1: string, u2: string,
                        a: nat, b: nat, c: nat, d: nat, e: nat, f: nat, h: nat)
    requires a <= b <= c <= d <= e <= f <= h <= |s|
    requires s[a..b] == g.first && s[b..c] == u1 && s[c..d] == "평("
    requires s[d..e] == g.second && s[e..f] == u2 && s[f..h] == ")"
    ensures TextAt(s, Shape(g, u1, u2), a)
  {
    SixSlices(s, a, b, c, d, e, f, h);
    assert s[a..h] == Shape(g, u1, u2);
  }

  /** Digits, `[A-Z]?평`, `(`, digits and `[A-Z]?)` found in a row from i make
      up the text of a match. */
  lemma PiecesMakeShape(s: string, i: nat, n: nat, p: nat, m: nat, q: nat)
    requires i + n <= |s| && AfterMark(s, i + n, '평') == Some(p)
    requires p < |s| && s[p] == '(' && p + 1 + m <= |s|
    requires AfterMark(s, p + 1 + m, ')') == Some(q)
    ensures exists u1, u2 ::
      OptCap(u1) && OptCap(u2) && TextAt(s, Shape(Groups(s[i..i + n], s[p + 1..p + 1 + m]), u1, u2), i)
  {
    var g := Groups(s[i..i + n], s[p + 1..p + 1 + m]);
    var u1, u2 := s[i + n..p - 1], s[p + 1 + m..q - 1];
    assert OptCap(u1) && OptCap(u2);
    assert s[p - 1..p + 1] == "평(";
    assert s[q - 1..q] == ")";
    ShapeFromSlices(s, g, u1, u2, i, i + n, p - 1, p + 1, p + 1 + m, q - 1, q);
  }

  /** A match is the pattern: its groups, with an optional capital after
      each, `평(` between them and `)` at the end, are the text of s from i. */
  lemma MatchSound(s: string, i: nat)
    requires i <= |s|
    ensures MatchAt(s, i).Some? ==>
      exists u1, u2 :: OptCap(u1) && OptCap(u2) && TextAt(s, Shape(MatchAt(s, i).value, u1, u2), i)
  {
    var r := MatchAt(s, i);
    if r.Some? {
      var n := DigitRun(s, i);
      var p := AfterMark(s, i + n, '평').value;
      var m := DigitRun(s, p + 1);
      var q := AfterMark(s, p + 1 + m, ')').value;
      assert r.value == Groups(s[i..i + n], s[p + 1..p + 1 + m]);
      PiecesMakeShape(s, i, n, p, m, q);
    }
  }

  /** `size.match(...)`: the leftmost match at or after `from`. */
  function FindMatch(s: string, from: nat): (r: Option<Groups>)
    requires from <= |s|
    ensures r.None? <==> forall i :: from <= i <= |s| ==> MatchAt(s, i).None?
    ensures r.Some? ==> exists i :: from <= i <= |s| && MatchAt(s, i) == r &&
                                    forall j :: from <= j < i ==> MatchAt(s, j).None?
    decreases |s| - from
  {
    var here := MatchAt(s, from);
    if here.Some? then
      here
    else if from == |s| then None
    else
      var r := FindMatch(s, from + 1);
      LeftmostStep(s, from, r);
      r
  }

  /** A leftmost match after a position that does not match is also the
      leftmost match from that position. */
  lemma LeftmostStep(s: string, from: nat, r: Option<Groups>)
    requires from < |s| && MatchAt(s, from).None?
    requires r.Some? ==> exists i :: from + 1 <= i <= |s| && MatchAt(s, i) == r &&
                                    forall j :: from + 1 <= j < i ==> MatchAt(s, j).None?
    ensures r.Some? ==> exists i :: from <= i <= |s| && MatchAt(s, i) == r &&
                                   forall j :: from <= j < i ==> MatchAt(s, j).None?
  {
    if r.Some? {
      var i :| from + 1 <= i <= |s| && MatchAt(s, i) == r &&
               forall j :: from + 1 <= j < i ==> MatchAt(s, j).None?;
      assert forall j :: from <= j < i ==> MatchAt(s, j).None?;
    }
  }

  /** The square-metre label built from a match. */
  function Metric(g: Groups): string
  {
    g.second + "." + g.first + "㎡ (" + g.second + ")"
  }

  /** `getSizeText` (components/TradingView.tsx:65-73). */
  function GetSizeText(mode: UnitMode, size: string): (r: string)
    ensures mode == Pyeong ==> r == size
    ensures mode == SquareMetres && size == Special ==> r == SpecialText
    ensures size != Special && (forall i :: 0 <= i <= |size| ==> MatchAt(size, i).None?) ==> r == size
  {
    if mode == Pyeong then size
    else if size == Special then SpecialText
    else match FindMatch(size, 0)
      case Some(g) => Metric(g)
      case None => size
  }

  /** A digit run whose extent is known has that length. */
  lemma {:induction false} DigitRunIs(s: string, i: nat, n: nat)
    requires i + n <= |s|
    requires forall j :: i <= j < i + n ==> IsDigit(s[j])
    requires i + n == |s| || !IsDigit(s[i + n])
    ensures DigitRun(s, i) == n
    decreases n
  {
    if n > 0 {
      DigitRunIs(s, i + 1, n - 1);
    }
  }

  /** A string with no ASCII digit never matches, so it is shown unchanged in
      either mode. */
  lemma NoDigitsUnchanged(mode: UnitMode, size: string)
    requires forall k :: 0 <= k < |size| ==> !IsDigit(size[k])
    ensures GetSizeText(mode, size) == size
  {
    assert IsDigit(Special[0]);
    forall i | 0 <= i <= |size| ensures MatchAt(size, i).None? {
      if i < |size| {
        assert !IsDigit(size[i]);
      }
    }
  }

  /** `[A-Z]?` then `mark`, written out at e, is matched there. */
  lemma AfterMarkIs(s: string, e: nat, unit: string, mark: char)
    requires !IsCapital(mark)
    requires |unit| <= 1 && (forall k :: 0 <= k < |unit| ==> IsCapital(unit[k]))
    requires e + |unit| < |s| && s[e..e + |unit|] == unit && s[e + |unit|] == mark
    ensures AfterMark(s, e, mark) == Some(e + |unit| + 1)
  {
    if |unit| == 1 {
      assert s[e] == unit[0];
    }
  }

  /** The pattern's pieces found at their positions make a match at i. */
  lemma MatchAtIs(s: string, i: nat, a: nat, p: nat, e: nat)
    requires i < a <= |s| && DigitRun(s, i) == a - i
    requires AfterMark(s, a, '평') == Some(p)
    requires p < |s| && s[p] == '(' && p + 1 < e <= |s| && DigitRun(s, p + 1) == e - (p + 1)
    requires AfterMark(s, e, ')').Some?
    ensures MatchAt(s, i) == Some(Groups(s[i..a], s[p + 1..e]))
  {
  }

  /** The string `<n>[X]평(<m>[Y])...`, n and m non-empty digit strings and X, Y
      optional capitals, matches at its start with groups n and m. */
  lemma PatternGroups(n: string, u1: string, m: string, u2: string, rest: string, size: string)
    requires |n| > 0 && AllDigits(n) && |m| > 0 && AllDigits(m)
    requires |u1| <= 1 && (forall k :: 0 <= k < |u1| ==> IsCapital(u1[k]))
    requires |u2| <= 1 && (forall k :: 0 <= k < |u2| ==> IsCapital(u2[k]))
    requires size == n + u1 + "평(" + m + u2 + ")" + rest
    ensures FindMatch(size, 0) == Some(Groups(n, m))
  {
    var head := n + u1 + "평(";
    assert size == head + m + u2 + ")" + rest;
    var a := |n|;
    var p := a + |u1| + 1;
    var e := p + 1 + |m|;
    assert |head| == p + 1;
    assert size[..a] == n;
    assert size[a..a + |u1|] == u1;
    assert size[a + |u1|] == '평' && size[p] == '(';
    DigitRunIs(size, 0, a);
    AfterMarkIs(size, a, u1, '평');
    assert size[p + 1..e] == m;
    assert forall k :: p + 1 <= k < e ==> size[k] == m[k - (p + 1)];
    assert size[e..e + |u2|] == u2;
    assert size[e + |u2|] == ')';
    assert e == |size| || !IsDigit(size[e]);
    DigitRunIs(size, p + 1, |m|);
    AfterMarkIs(size, e, u2, ')');
    MatchAtIs(size, 0, a, p, e);
  }

  /** Any such option other than the hand-written one is shown in
      square-metre mode as `<m>.<n>㎡ (<m>)`. */
  lemma OptionLabel(n: string, u1: string, m: string, u2: string, rest: string, size: string)
    requires |n| > 0 && AllDigits(n) && |m| > 0 && AllDigits(m)
    requires |u1| <= 1 && (forall k :: 0 <= k < |u1| ==> IsCapital(u1[k]))
    requires |u2| <= 1 && (forall k :: 0 <= k < |u2| ==> IsCapital(u2[k]))
    requires size == n + u1 + "평(" + m + u2 + ")" + rest && size != Special
    ensures GetSizeText(SquareMetres, size) == m + "." + n + "㎡ (" + m + ")"
  {
    PatternGroups(n, u1, m, u2, rest, size);
  }

  /** Each size option split into the pattern's pieces: the pyeong figure and
      its optional type letter, the square-metre figure and its letter. */
  datatype OptionParts = OptionParts(pyeong: string, pyeongUnit: string, metres: string, metresUnit: string)

  const Parts: seq<OptionParts> :=
    [OptionParts("18", "B", "11", "B"), OptionParts("25", "A", "59", "A"),
     OptionParts("25", "B", "59", "B"), OptionParts("33", "A", "84", "A"),
     OptionParts("33", "B", "84", "B"), OptionParts("38", "", "99", ""),
     OptionParts("42", "", "110", ""), OptionParts("50", "", "134", "")]

  function Compose(o: OptionParts): string
  {
    o.pyeong + o.pyeongUnit + "평(" + o.metres + o.metresUnit + ")"
  }

  predicate PartsShaped(o: OptionParts)
  {
    |o.pyeong| > 0 && AllDigits(o.pyeong) && |o.metres| > 0 && AllDigits(o.metres) &&
    |o.pyeongUnit| <= 1 && (forall k :: 0 <= k < |o.pyeongUnit| ==> IsCapital(o.pyeongUnit[k])) &&
    |o.metresUnit| <= 1 && (forall k :: 0 <= k < |o.metresUnit| ==> IsCapital(o.metresUnit[k]))
  }

  /** Every size option is an instance of the pattern, and only the first is
      the hand-written one. */
  lemma OptionsArePatterns()
    ensures |Parts| == |SizeOptions|
    ensures forall k :: 0 <= k < |SizeOptions| ==> Compose(Parts[k]) == SizeOptions[k] && PartsShaped(Parts[k])
    ensures forall k :: 1 <= k < |SizeOptions| ==> SizeOptions[k][0] != Special[0]
  {
    forall k | 0 <= k < |SizeOptions|
      ensures Compose(Parts[k]) == SizeOptions[k] && PartsShaped(Parts[k])
    {
      if k < 4 {
        LettedOptionComposes(k);
      } else {
        PlainOptionComposes(k);
      }
    }
  }

  /** Each of the first four options, the ones with type letters, is the
      composition of its parts. */
  lemma LettedOptionComposes(k: nat)
    requires k < 4
    ensures Compose(Parts[k]) == SizeOptions[k] && PartsShaped(Parts[k])
  {
    assert k == 0 || k == 1 || k == 2 || k == 3;
  }

  /** Each of the last four options is the composition of its parts. */
  lemma PlainOptionComposes(k: nat)
    requires 4 <= k < 8
    ensures Compose(Parts[k]) == SizeOptions[k] && PartsShaped(Parts[k])
  {
    assert k == 4 || k == 5 || k == 6 || k == 7;
  }

  /** Each selectable option after the default is shown in square-metre mode
      as `<metres>.<pyeong>㎡ (<metres>)`: '33A평(84A)' as '84.33㎡ (84)',
      '42평(110)' as '110.42㎡ (110)'. */
  lemma SizeOptionLabel(k: nat)
    requires 1 <= k < |SizeOptions|
    ensures GetSizeText(SquareMetres, SizeOptions[k]) == Parts[k].metres + "." + Parts[k].pyeong + "㎡ (" + Parts[k].metres + ")"
  {
    OptionsArePatterns();
    var o := Parts[k];
    OptionLabel(o.pyeong, o.pyeongUnit, o.metres, o.metresUnit, "", SizeOptions[k]);
  }

  /** The hand-written label wins over the pattern, which matches the
      default option with groups 18 and 11 and would have given '11.18㎡ (11)'. */
  lemma SpecialOverridesPattern(size: string)
    requires size == Special
    ensures FindMatch(size, 0) == Some(Groups("18", "11"))
    ensures GetSizeText(SquareMetres, size) == SpecialText
    ensures Metric(FindMatch(size, 0).value) != GetSizeText(SquareMetres, size)
  {
    assert size == "18" + "B" + "평(" + "11" + "B" + ")" + "";
    PatternGroups("18", "B", "11", "B", "", size);
    assert Metric(FindMatch(size, 0).value)[0] == '1';
  }
}
