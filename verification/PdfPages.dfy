/**
 Page ranges of a PDF document: what a request may say, and the continuation that the
 footer of each answer suggests.  Which characters are decimal digits, and what they are
 worth, is a parameter: the pattern and `int` both go by Unicode, not by ASCII.
 */
module PdfPages {
  import opened Basics

  const MAX_PAGES := 20

  datatype ConversionError = NoPages | NotARange | OutOfRange

  function Min(a: int, b: int): int {
    if a < b then a else b
  }

  // ---- Numerals -------------------------------------------------------------

  /** The value of a decimal digit, of whatever script. */
  type DigitClass = char -> Option<nat>

  predicate IsAscii(c: char) {
    '0' <= c <= '9'
  }

  ghost predicate Sound(d: DigitClass) {
    && (forall c :: IsAscii(c) ==> d(c) == Some(c as int - '0' as int))
    && (forall c :: d(c).Some? ==> d(c).value < 10)
    && d('-') == None
  }

  predicate Digits(d: DigitClass, s: string) {
    forall i | 0 <= i < |s| :: d(s[i]).Some?
  }

  predicate AsciiDigits(s: string) {
    forall i | 0 <= i < |s| :: IsAscii(s[i])
  }

  /** `[1-9]\d*`: only the first digit has to be an ASCII one. */
  predicate IsNumeral(d: DigitClass, s: string) {
    s != [] && Digits(d, s) && '1' <= s[0] <= '9'
  }

  function Value(d: DigitClass, s: string): nat
    requires Digits(d, s)
  {
    if s == [] then 0 else Value(d, s[..|s| - 1]) * 10 + d(s[|s| - 1]).value
  }

  function Digit(n: nat): char
    requires n < 10
  {
    ('0' as int + n) as char
  }

  function Show(n: nat): string {
    if n < 10 then [Digit(n)] else Show(n / 10) + [Digit(n % 10)]
  }

  lemma {:induction false} ShowIsNumeral(d: DigitClass, n: nat)
    requires Sound(d)
    ensures AsciiDigits(Show(n)) && Digits(d, Show(n)) && Value(d, Show(n)) == n && (n > 0 ==> IsNumeral(d, Show(n)))
    decreases n
  {
    var s := Show(n);
    if n < 10 {
      assert IsAscii(Digit(n));
      assert s[..0] == "";
    } else {
      ShowIsNumeral(d, n / 10);
      assert IsAscii(Digit(n % 10));
      assert s[..|s| - 1] == Show(n / 10);
    }
  }

  lemma ShowLast(v: nat, n: nat)
    requires v > 0 && n < 10
    ensures Show(v * 10 + n) == Show(v) + [Digit(n)]
  {
    var m := v * 10 + n;
    assert m / 10 == v && m % 10 == n;
  }

  lemma DigitOf(d: DigitClass, c: char)
    requires Sound(d) && IsAscii(c)
    ensures d(c).Some? && d(c).value < 10 && Digit(d(c).value) == c
  {
  }

  lemma {:induction false} NumeralIsPositive(d: DigitClass, s: string)
    requires Sound(d) && IsNumeral(d, s)
    ensures Value(d, s) > 0
    decreases |s|
  {
    var init, last := s[..|s| - 1], s[|s| - 1];
    if init == [] {
      assert IsAscii(last);
    } else {
      assert init[0] == s[0];
      NumeralIsPositive(d, init);
    }
  }

  /** A numeral is the one that its value shows as exactly when all its digits are ASCII. */
  lemma {:induction false} NumeralIsShown(d: DigitClass, s: string)
    requires Sound(d) && IsNumeral(d, s)
    ensures Show(Value(d, s)) == s <==> AsciiDigits(s)
    decreases |s|
  {
    ShowIsNumeral(d, Value(d, s));
    if AsciiDigits(s) {
      var init, last := s[..|s| - 1], s[|s| - 1];
      assert s == init + [last];
      DigitOf(d, last);
      if init == [] {
        assert Value(d, init) == 0;
      } else {
        assert init[0] == s[0];
        assert forall i | 0 <= i < |init| :: init[i] == s[i];
        NumeralIsShown(d, init);
        NumeralIsPositive(d, init);
        ShowLast(Value(d, init), d(last).value);
      }
    }
  }

  // ---- Parsing a request ----------------------------------------------------

  /** Where the first `-` is, or the length. */
  function Dash(s: string): (i: nat)
    ensures i <= |s| && '-' !in s[..i] && (i < |s| ==> s[i] == '-')
  {
    if s == [] || s[0] == '-' then 0
    else
      var i := Dash(s[1..]);
      assert s[..i + 1] == [s[0]] + s[1..][..i];
      i + 1
  }

  /** The pattern of `_parse_page_range`: a numeral, or two joined by a dash. */
  predicate IsRange(d: DigitClass, s: string) {
    var i := Dash(s);
    IsNumeral(d, s[..i]) && (i < |s| ==> IsNumeral(d, s[i + 1..]))
  }

  function ParsePageRange(d: DigitClass, value: Option<string>, total: int): Result<(int, int), ConversionError> {
    if total < 1 then Err(NoPages)
    else if value.None? then Ok((1, Min(MAX_PAGES, total)))
    else if !IsRange(d, value.value) then Err(NotARange)
    else
      var s := value.value;
      var i := Dash(s);
      var start := Value(d, s[..i]);
      var end := if i < |s| then Value(d, s[i + 1..]) else start;
      if end < start || end - start + 1 > MAX_PAGES || end > total then Err(OutOfRange) else Ok((start, end))
  }

  predicate Allowed(start: int, end: int, total: int) {
    1 <= start <= end <= total && end - start + 1 <= MAX_PAGES
  }

  function RangeText(start: nat, end: nat): string {
    Show(start) + "-" + Show(end)
  }

  lemma {:induction false} DashAfter(a: string, b: string)
    requires forall i | 0 <= i < |a| :: a[i] != '-'
    ensures Dash(a + "-" + b) == |a|
    decreases |a|
  {
    var s := a + "-" + b;
    if a != [] {
      assert s[0] == a[0];
      assert s[1..] == a[1..] + "-" + b;
      DashAfter(a[1..], b);
    }
  }

  /** A shown range is accepted exactly when it is allowed, and means what it says. */
  lemma ShownRangeParses(d: DigitClass, start: nat, end: nat, total: int)
    requires Sound(d) && start >= 1 && end >= 1 && total >= 1
    ensures ParsePageRange(d, Some(RangeText(start, end)), total) ==
            if Allowed(start, end, total) then Ok((start as int, end as int)) else Err(OutOfRange)
  {
    ShowIsNumeral(d, start);
    ShowIsNumeral(d, end);
    var s := RangeText(start, end);
    DashAfter(Show(start), Show(end));
    assert s[..|Show(start)|] == Show(start);
    assert s[|Show(start)| + 1..] == Show(end);
    hide Sound, Value, Show, Dash;
  }

  /** Whatever the script of its digits, only an allowed range is accepted. */
  lemma AcceptedRangeIsAllowed(d: DigitClass, value: string, total: int)
    requires Sound(d) && ParsePageRange(d, Some(value), total).Ok?
    ensures var (start, end) := ParsePageRange(d, Some(value), total).value; Allowed(start, end, total)
  {
    NumeralIsPositive(d, value[..Dash(value)]);
  }

  /** The spelling that a range is shown in, or for one page the page alone. */
  predicate Canonical(value: string, start: nat, end: nat) {
    value == RangeText(start, end) || (start == end && value == Show(start))
  }

  /** An accepted spelling is canonical exactly when its digits are all ASCII. */
  lemma CanonicalExactlyWhenAscii(d: DigitClass, value: string, total: int)
    requires Sound(d) && ParsePageRange(d, Some(value), total).Ok?
    ensures var (start, end) := ParsePageRange(d, Some(value), total).value;
            start >= 0 && end >= 0
            && (Canonical(value, start, end) <==> forall i | 0 <= i < |value| :: IsAscii(value[i]) || value[i] == '-')
  {
    hide Sound, Show, Value;
    var i := Dash(value);
    var first, rest := value[..i], if i < |value| then value[i + 1..] else "";
    var (start, end) := ParsePageRange(d, Some(value), total).value;
    NumeralIsShown(d, first);
    ShowIsNumeral(d, start);
    ShowIsNumeral(d, end);
    if i < |value| {
      NumeralIsShown(d, rest);
      assert value == first + "-" + rest;
      TwoNumerals(d, value, first, rest);
      OneSpelling(d, first, rest, start, end);
    } else {
      assert first == value;
      NoDashInDigits(d, value);
      LoneSpelling(value, start);
    }
    hide Canonical, IsRange, Dash;
  }

  lemma LoneSpelling(value: string, page: nat)
    requires forall i | 0 <= i < |value| :: value[i] != '-'
    ensures Canonical(value, page, page) <==> value == Show(page)
  {
    hide Show;
    var text := RangeText(page, page);
    assert value != text by { assert text[|Show(page)|] == '-'; }
  }

  lemma NoDashInDigits(d: DigitClass, s: string)
    requires Sound(d) && Digits(d, s)
    ensures forall i | 0 <= i < |s| :: s[i] != '-'
  {
  }

  lemma TwoNumerals(d: DigitClass, value: string, first: string, rest: string)
    requires Sound(d) && Digits(d, first) && Digits(d, rest) && value == first + "-" + rest
    ensures (forall i | 0 <= i < |value| :: IsAscii(value[i]) || value[i] == '-') <==>
            AsciiDigits(first) && AsciiDigits(rest)
  {
    NoDashInDigits(d, first);
    NoDashInDigits(d, rest);
    if forall i | 0 <= i < |value| :: IsAscii(value[i]) || value[i] == '-' {
      forall j | 0 <= j < |first| ensures IsAscii(first[j]) { assert value[j] == first[j]; }
      forall j | 0 <= j < |rest| ensures IsAscii(rest[j]) { assert value[|first| + 1 + j] == rest[j]; }
    }
  }

  /** Two numerals around a dash are the canonical spelling exactly when each is. */
  lemma OneSpelling(d: DigitClass, first: string, rest: string, start: nat, end: nat)
    requires Sound(d) && Digits(d, first) && AsciiDigits(Show(start)) && Digits(d, Show(start))
    ensures Canonical(first + "-" + rest, start, end) <==> first == Show(start) && rest == Show(end)
  {
    var value := first + "-" + rest;
    NoDashInDigits(d, first);
    NoDashInDigits(d, Show(start));
    DashAfter(first, rest);
    DashAfter(Show(start), Show(end));
    assert value != Show(start) by { assert value[|first|] == '-'; }
    if value == RangeText(start, end) {
      assert first == value[..|first|] == Show(start);
      assert rest == value[|first| + 1..] == Show(end);
    }
  }

  /** The pattern takes an Arabic-Indic zero after the first digit, and then the spelling is not canonical. */
  lemma ForeignDigitsAreAccepted(d: DigitClass)
    requires Sound(d) && d('\U{0660}') == Some(0)
    ensures ParsePageRange(d, Some("1\U{0660}"), 10) == Ok((10, 10))
    ensures !Canonical("1\U{0660}", 10, 10)
  {
    var value := "1\U{0660}";
    assert d('1') == Some(1) by { assert IsAscii('1'); }
    assert Dash(value) == 2 by { assert value[1..] == "\U{0660}" && value[1..][1..] == ""; }
    assert value[..2] == value && value[..1] == "1" && "1"[..0] == "";
    assert Value(d, "1") == 1;
    CanonicalExactlyWhenAscii(d, value, 10);
    assert value[1] == '\U{0660}';
  }

  // ---- Following the footers ------------------------------------------------

  /** The range that the footer of an answer suggests next. */
  function Suggestion(end: nat, total: nat): Option<string> {
    if end < total then Some(RangeText(end + 1, Min(total, end + MAX_PAGES))) else None
  }

  /** The ranges answered when each footer is followed, from one that was answered. */
  function Walk(d: DigitClass, start: int, end: nat, total: nat): seq<(int, int)>
    decreases total - end
  {
    [(start, end as int)] +
    if Suggestion(end, total).None? then []
    else match ParsePageRange(d, Suggestion(end, total), total)
      case Err(_) => []
      case Ok((s, e)) => if e > end then Walk(d, s, e, total) else []
  }

  function PagesOf(ranges: seq<(int, int)>): seq<int> {
    if ranges == [] then []
    else (if ranges[0].0 <= ranges[0].1 then Interval(ranges[0].0, ranges[0].1) else []) + PagesOf(ranges[1..])
  }

  function Interval(lo: int, hi: int): (s: seq<int>)
    requires lo <= hi + 1
    ensures |s| == hi + 1 - lo && forall i | 0 <= i < |s| :: s[i] == lo + i
    decreases hi + 1 - lo
  {
    if lo > hi then [] else [lo] + Interval(lo + 1, hi)
  }

  lemma {:induction false} WalkCovers(d: DigitClass, start: int, end: nat, total: nat)
    requires Sound(d) && Allowed(start, end, total) && (end < total ==> end - start + 1 == MAX_PAGES)
    ensures PagesOf(Walk(d, start, end, total)) == Interval(start, total)
    ensures |Walk(d, start, end, total)| == (total - start + MAX_PAGES) / MAX_PAGES
    ensures forall r | r in Walk(d, start, end, total) :: Allowed(r.0, r.1, total)
    decreases total - end
  {
    hide Walk, PagesOf, Interval;
    if end == total {
      OneRange(start, end);
      WalkIsDone(d, start, end);
    } else {
      var next := Min(total, end + MAX_PAGES);
      WalkGoesOn(d, start, end, total);
      WalkCovers(d, end + 1, next, total);
      OneMoreRange(start, end, total, Walk(d, end + 1, next, total));
      Rounding(start, end, total);
    }
  }

  lemma WalkIsDone(d: DigitClass, start: int, total: nat)
    ensures Walk(d, start, total, total) == [(start, total as int)]
  {
  }

  lemma WalkGoesOn(d: DigitClass, start: int, end: nat, total: nat)
    requires Sound(d) && end < total
    ensures Walk(d, start, end, total) == [(start, end as int)] + Walk(d, end + 1, Min(total, end + MAX_PAGES), total)
  {
    SuggestionsAreAccepted(d, end, total);
    hide ParsePageRange;
  }

  lemma OneRange(start: int, end: int)
    requires start <= end
    ensures PagesOf([(start, end)]) == Interval(start, end)
  {
    var one: seq<(int, int)> := [(start, end)];
    assert one[1..] == [];
  }

  lemma OneMoreRange(start: int, end: int, total: int, rest: seq<(int, int)>)
    requires start <= end <= total && PagesOf(rest) == Interval(end + 1, total)
    ensures PagesOf([(start, end)] + rest) == Interval(start, total)
  {
    assert ([(start, end)] + rest)[1..] == rest;
    assert Interval(start, end) + Interval(end + 1, total) == Interval(start, total);
  }

  lemma Rounding(start: int, end: int, total: int)
    requires end - start + 1 == MAX_PAGES && end < total
    ensures (total - (end + 1) + MAX_PAGES) / MAX_PAGES + 1 == (total - start + MAX_PAGES) / MAX_PAGES
  {
  }

  /**
   A reader who starts without a range and follows every footer is never refused, sees
   pages 1 to `total` in order, each exactly once, and is done after `total / 20` answers,
   rounded up.
   */
  lemma FootersVisitEveryPage(d: DigitClass, total: nat)
    requires Sound(d) && total >= 1
    ensures var first := ParsePageRange(d, None, total);
            && first.Ok? && first.value.1 >= 0
            && var ranges := Walk(d, first.value.0, first.value.1, total);
            && PagesOf(ranges) == Interval(1, total)
            && |ranges| == (total + MAX_PAGES - 1) / MAX_PAGES
            && forall r | r in ranges :: Allowed(r.0, r.1, total)
  {
    WalkCovers(d, 1, Min(MAX_PAGES, total), total);
  }

  /** Along the walk no suggestion is refused. */
  lemma SuggestionsAreAccepted(d: DigitClass, end: nat, total: nat)
    requires Sound(d) && end < total
    ensures ParsePageRange(d, Suggestion(end, total), total) == Ok((end + 1, Min(total, end + MAX_PAGES)))
  {
    ShownRangeParses(d, end + 1, Min(total, end + MAX_PAGES), total);
  }
}
