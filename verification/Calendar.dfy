/** Billing months: YYYY-MM text, skip months, due dates and month cursors.
    A month is counted by its index, 12 x year + month - 1. */
module Calendar {
  import opened Wrappers
  import opened Keys
  import opened Text
  import opened Money

  datatype Month = Month(year: int, month: int) {
    predicate Valid() {
      1 <= month <= 12
    }

    function Index(): int {
      12 * year + month - 1
    }
  }

  function OfIndex(i: int): (m: Month)
    ensures m.Valid() && m.Index() == i
  {
    Month(i / 12, i % 12 + 1)
  }

  datatype Date = Date(year: int, month: int, day: int) {
    /** Orders dates; the days of one month lie strictly between two months. */
    function Key(): int {
      32 * (12 * year + month - 1) + day
    }

    function FirstOfMonth(): Date {
      Date(year, month, 1)
    }
  }

  datatype Plan = Plan(
    season: string,
    annual: int,
    installmentCount: nat,
    firstMonth: nat,
    dueDay: nat,
    skipMonths: string,
    isActive: bool,
    cutoffDay: nat
  ) {
    function Skip(): set<int> {
      SkipMonths(skipMonths)
    }
  }

  // ---- skip months ----

  predicate IsSkipPart(part: string) {
    var p := Strip(part);
    p != [] && AllDigits(p) && 1 <= Value(p) <= 12
  }

  function SkipPart(part: string): int
    requires IsSkipPart(part)
  {
    Value(Strip(part))
  }

  /** The comma-separated skip list; parts that are no month number are ignored. */
  function SkipMonths(s: string): (skip: set<int>)
    ensures forall m :: m in skip ==> 1 <= m <= 12
  {
    set p | p in Split(s, ',') && IsSkipPart(p) :: SkipPart(p)
  }

  /** The month a single part of the list names, if it is a month number. */
  function PartMonth(part: string): set<int> {
    if IsSkipPart(part) then {SkipPart(part)} else {}
  }

  lemma SplitFirst(part: string, rest: string)
    requires ',' !in part
    ensures Split(part, ',') == [part]
    ensures Split(part + "," + rest, ',') == [part] + Split(rest, ',')
  {
    var text := part + "," + rest;
    assert Find(part, ',') == |part|;
    assert forall j :: 0 <= j < |part| ==> text[j] == part[j];
    assert text[|part|] == ',';
    assert Find(text, ',') == |part|;
    assert text[..|part|] == part && text[|part| + 1..] == rest;
  }

  /** Which months are skipped, part by part: the last part alone names its month, and
      each part before a comma adds its own to those of the rest. */
  lemma SkipMonthsPartByPart(part: string, rest: string)
    requires ',' !in part
    ensures SkipMonths(part) == PartMonth(part)
    ensures SkipMonths(part + "," + rest) == PartMonth(part) + SkipMonths(rest)
  {
    hide IsSkipPart, SkipPart, Split;
    SplitFirst(part, rest);
    SetExt(SkipMonths(part), PartMonth(part));
    forall m ensures m in SkipMonths(part + "," + rest) <==> m in PartMonth(part) + SkipMonths(rest) {
      assert forall p :: p in [part] + Split(rest, ',') <==> p == part || p in Split(rest, ',');
    }
    SetExt(SkipMonths(part + "," + rest), PartMonth(part) + SkipMonths(rest));
  }

  /** A month number with any spaces around it names that month. */
  lemma PartNamesItsMonth(part: string, m: nat)
    requires Strip(part) == Digits(m) && 1 <= m <= 12
    ensures PartMonth(part) == {m}
  {
    ValueDigits(m);
  }

  predicate AllSkipped(skip: set<int>) {
    forall m :: 1 <= m <= 12 ==> m in skip
  }

  predicate Open(skip: set<int>, i: int) {
    i % 12 + 1 !in skip
  }

  function Gap(skip: set<int>, i: int, k: nat): (g: nat)
    requires k <= 12
    ensures k <= g <= 12 && (g == 12 || Open(skip, i + g))
    ensures forall j :: i + k <= j < i + g ==> !Open(skip, j)
    decreases 12 - k
  {
    if k == 12 || Open(skip, i + k) then k else Gap(skip, i, k + 1)
  }

  /** The month number decides: the cursor loops test it instead of the index. */
  lemma OpenMonth(skip: set<int>, m: Month)
    requires m.Valid()
    ensures Open(skip, m.Index()) <==> m.month !in skip
    ensures OfIndex(m.Index()) == m
  {
  }

  lemma SomeOpen(skip: set<int>, i: int)
    requires Open(skip, i)
    ensures !AllSkipped(skip)
  {
    assert 1 <= i % 12 + 1 <= 12;
  }

  /** Twelve closed months in a row leave no billing month in any year. */
  lemma ConsecutiveSkips(skip: set<int>, i: int)
    requires forall j :: i <= j < i + 12 ==> !Open(skip, j)
    ensures AllSkipped(skip)
  {
    forall m | 1 <= m <= 12 ensures m in skip {
      var j := i + (m - 1 - i) % 12;
      assert j % 12 == (m - 1) % 12;
      assert !Open(skip, j);
    }
  }

  /** The earliest billing month not before `i`. */
  function FirstOpen(skip: set<int>, i: int): (f: int)
    ensures i <= f <= i + 12
    ensures forall j :: i <= j < f ==> !Open(skip, j)
    ensures !AllSkipped(skip) ==> Open(skip, f) && f < i + 12
  {
    var g := Gap(skip, i, 0);
    if g == 12 then ConsecutiveSkips(skip, i); i + g else i + g
  }

  /** The first `n` billing months not before `i`. */
  function BillingMonths(skip: set<int>, i: int, n: nat): (months: seq<int>)
    ensures |months| == n
    decreases n
  {
    if n == 0 then [] else
      var f := FirstOpen(skip, i);
      [f] + BillingMonths(skip, f + 1, n - 1)
  }

  lemma {:induction false} BillingMonthsStep(skip: set<int>, i: int, n: nat, k: nat)
    requires k < n
    ensures var months := BillingMonths(skip, i, n);
            months[k] == FirstOpen(skip, if k == 0 then i else months[k - 1] + 1)
    decreases n
  {
    hide FirstOpen;
    if k > 0 {
      BillingMonthsStep(skip, FirstOpen(skip, i) + 1, n - 1, k - 1);
    }
  }

  /** What a schedule's months must be: billing months from `i` on, one row a
      month and in order, with no billing month before the last row left out. */
  ghost predicate FirstBillingMonths(skip: set<int>, i: int, months: seq<int>) {
    && (forall k :: 0 <= k < |months| ==> i <= months[k] && Open(skip, months[k]))
    && (forall k, l :: 0 <= k < l < |months| ==> months[k] < months[l])
    && (forall j, k :: 0 <= k < |months| && i <= j <= months[k] && Open(skip, j) ==> j in months)
  }

  lemma {:induction false} BillingMonthsExact(skip: set<int>, i: int, n: nat)
    requires !AllSkipped(skip)
    ensures FirstBillingMonths(skip, i, BillingMonths(skip, i, n))
    decreases n
  {
    hide FirstBillingMonths, FirstOpen;
    hide Open, FirstOpen;
    if n == 0 {
      NoMonths(skip, i);
    } else {
      var f := FirstOpen(skip, i);
      var rest := BillingMonths(skip, f + 1, n - 1);
      BillingMonthsExact(skip, f + 1, n - 1);
      FirstBillingMonthsCons(skip, i, f, rest);
    }
  }

  lemma NoMonths(skip: set<int>, i: int)
    ensures FirstBillingMonths(skip, i, [])
  {
  }

  lemma FirstBillingMonthsCons(skip: set<int>, i: int, f: int, rest: seq<int>)
    requires i <= f && Open(skip, f) && (forall j :: i <= j < f ==> !Open(skip, j))
    requires FirstBillingMonths(skip, f + 1, rest)
    ensures FirstBillingMonths(skip, i, [f] + rest)
  {
    hide Open, FirstOpen;
    var months := [f] + rest;
    forall j, k | 0 <= k < |months| && i <= j <= months[k] && Open(skip, j) ensures j in months {
      if j > f {
        assert months[k] == rest[k - 1];
        assert j in rest;
      } else {
        assert months[0] == f;
      }
    }
  }

  /** The description fixes the months: two such lists of one length are equal. */
  lemma {:induction false} FirstBillingMonthsUnique(skip: set<int>, i: int, a: seq<int>, b: seq<int>)
    requires |a| == |b| && FirstBillingMonths(skip, i, a) && FirstBillingMonths(skip, i, b)
    ensures a == b
  {
    hide Open, FirstOpen;
    if a != [] {
      var n := |a| - 1;
      FirstBillingMonthsUnique(skip, i, a[..n], b[..n]) by {
        FirstBillingMonthsInit(skip, i, a);
        FirstBillingMonthsInit(skip, i, b);
      }
      assert forall k :: 0 <= k < n ==> a[k] == a[..n][k] == b[..n][k] == b[k];
      LastRowNotBefore(skip, i, a, b);
      LastRowNotBefore(skip, i, b, a);
    }
  }

  lemma LastRowNotBefore(skip: set<int>, i: int, a: seq<int>, b: seq<int>)
    requires |a| == |b| > 0 && FirstBillingMonths(skip, i, a) && FirstBillingMonths(skip, i, b)
    requires forall k :: 0 <= k < |a| - 1 ==> a[k] == b[k]
    ensures b[|b| - 1] <= a[|a| - 1]
  {
    hide Open, FirstOpen;
    var x, y := a[|a| - 1], b[|b| - 1];
    assert x < y ==> x in b;
  }

  lemma FirstBillingMonthsInit(skip: set<int>, i: int, a: seq<int>)
    requires a != [] && FirstBillingMonths(skip, i, a)
    ensures FirstBillingMonths(skip, i, a[..|a| - 1])
  {
    hide Open, FirstOpen;
    var init := a[..|a| - 1];
    forall j, k | 0 <= k < |init| && i <= j <= init[k] && Open(skip, j) ensures j in init {
      var l :| 0 <= l < |a| && a[l] == j;
      assert l <= k;
      assert init[l] == j;
    }
  }

  /** A shorter schedule is a prefix of a longer one. */
  lemma {:induction false} BillingMonthsPrefix(skip: set<int>, i: int, k: nat, n: nat)
    requires k <= n
    ensures BillingMonths(skip, i, k) == BillingMonths(skip, i, n)[..k]
    decreases k
  {
    hide Open, FirstOpen;
    if k > 0 {
      BillingMonthsPrefix(skip, FirstOpen(skip, i) + 1, k - 1, n - 1);
    }
  }

  /** At most twelve months are skipped before each row. */
  lemma {:induction false} BillingMonthWithin(skip: set<int>, i: int, n: nat, k: nat)
    requires k < n
    ensures i <= BillingMonths(skip, i, n)[k] <= i + 13 * k + 12
    decreases n
  {
    hide Open, FirstOpen;
    if k > 0 {
      BillingMonthWithin(skip, FirstOpen(skip, i) + 1, n - 1, k - 1);
    }
  }

  /** Starting at a month or at the first billing month from it is the same. */
  lemma FirstOpenAnchors(skip: set<int>, i: int, n: nat)
    requires !AllSkipped(skip)
    ensures FirstOpen(skip, FirstOpen(skip, i)) == FirstOpen(skip, i)
    ensures BillingMonths(skip, FirstOpen(skip, i), n) == BillingMonths(skip, i, n)
  {
    hide Open, FirstOpen;
    var f := FirstOpen(skip, i);
    assert Open(skip, f);
    assert FirstOpen(skip, f) == f;
  }

  /** How many billing months lie in [lo, hi). */
  function CountOpen(skip: set<int>, lo: int, hi: int): nat
    decreases hi - lo
  {
    if lo >= hi then 0 else (if Open(skip, lo) then 1 else 0) + CountOpen(skip, lo + 1, hi)
  }

  function CountBelow(months: seq<int>, hi: int): nat {
    if months == [] then 0
    else CountBelow(months[..|months| - 1], hi) + (if months[|months| - 1] < hi then 1 else 0)
  }

  lemma {:induction false} CountOpenSkips(skip: set<int>, lo: int, mid: int, hi: int)
    requires lo <= mid && forall j :: lo <= j < mid ==> !Open(skip, j)
    ensures CountOpen(skip, lo, hi) == CountOpen(skip, mid, hi)
    decreases mid - lo
  {
    hide Open, FirstOpen;
    if lo < mid {
      assert !Open(skip, lo);
      CountOpenSkips(skip, lo + 1, mid, hi);
    }
  }

  lemma {:induction false} CountBelowCons(first: int, rest: seq<int>, hi: int)
    ensures CountBelow([first] + rest, hi) == (if first < hi then 1 else 0) + CountBelow(rest, hi)
  {
    if rest == [] {
      assert [first] + rest == [first];
      assert CountBelow([first], hi) == CountBelow([first][..0], hi) + (if first < hi then 1 else 0);
    } else {
      CountBelowCons(first, rest[..|rest| - 1], hi);
      assert ([first] + rest)[..|rest|] == [first] + rest[..|rest| - 1];
    }
  }

  /** The schedule's months before `hi`: all of them, or every one there is. */
  lemma {:induction false} CountBelowClosedForm(skip: set<int>, i: int, n: nat, hi: int)
    requires !AllSkipped(skip)
    ensures CountBelow(BillingMonths(skip, i, n), hi) == Min(n, CountOpen(skip, i, hi))
    decreases n
  {
    hide Open, AllSkipped, FirstOpen, CountOpen, CountBelow;
    if n == 0 {
      NothingBelow(hi);
    } else {
      var f := FirstOpen(skip, i);
      CountOpenSkips(skip, i, f, hi);
      CountBelowClosedForm(skip, f + 1, n - 1, hi);
      CountBelowCons(f, BillingMonths(skip, f + 1, n - 1), hi);
      CountOpenStep(skip, f, hi);
    }
  }

  /** Row k lies before `hi` exactly when more than k billing months do. */
  lemma {:induction false} RowBefore(skip: set<int>, i: int, n: nat, hi: int, k: nat)
    requires !AllSkipped(skip) && k < n
    ensures BillingMonths(skip, i, n)[k] < hi <==> k < CountOpen(skip, i, hi)
    decreases n
  {
    hide Open, AllSkipped, FirstOpen, CountOpen;
    var f := FirstOpen(skip, i);
    CountOpenSkips(skip, i, f, hi);
    CountOpenStep(skip, f, hi);
    if k > 0 {
      RowBefore(skip, f + 1, n - 1, hi, k - 1);
    }
  }

  lemma NothingBelow(hi: int)
    ensures CountBelow([], hi) == 0
  {
  }

  lemma CountOpenStep(skip: set<int>, f: int, hi: int)
    requires Open(skip, f)
    ensures CountOpen(skip, f, hi) == if f < hi then 1 + CountOpen(skip, f + 1, hi) else 0
    ensures f >= hi ==> CountOpen(skip, f + 1, hi) == 0
  {
    hide Open, FirstOpen;
  }

  // ---- due dates ----

  predicate LeapYear(year: int) {
    year % 4 == 0 && (year % 100 != 0 || year % 400 == 0)
  }

  function MonthLength(year: int, month: int): int {
    if month == 2 then (if LeapYear(year) then 29 else 28)
    else if month in {4, 6, 9, 11} then 30
    else 31
  }

  /** The lengths that clamping relies on: February by the Gregorian rule; of the others
      the odd months up to July and the even ones after it have 31 days. */
  lemma MonthLengthsExactly(year: int, month: int)
    requires 1 <= month <= 12
    ensures month == 2 ==> (MonthLength(year, month) == 29 <==> year % 4 == 0 && (year % 100 == 0 ==> year % 400 == 0))
    ensures month == 2 ==> MonthLength(year, month) in {28, 29}
    ensures month != 2 ==> MonthLength(year, month) == 30 + (month + month / 8) % 2
  {
  }

  /** Valid dates compare by year, then month, then day. */
  lemma DatesCompare(d: Date, e: Date)
    requires ValidDate(d) && ValidDate(e)
    ensures d.Key() <= e.Key() <==>
              d.year < e.year || (d.year == e.year && (d.month < e.month || (d.month == e.month && d.day <= e.day)))
  {
  }

  predicate ValidDate(d: Date) {
    1 <= d.year <= 9999 && 1 <= d.month <= 12 && 1 <= d.day <= MonthLength(d.year, d.month)
  }

  /** The due day clamped to the month's length; no date outside years 1-9999. */
  function MakeDueDate(year: int, month: int, dueDay: nat): (r: Result<Date>)
    ensures r.Ok? <==> 1 <= year <= 9999 && 1 <= month <= 12 && dueDay >= 1
    ensures r.Ok? ==> ValidDate(r.value) && r.value.year == year && r.value.month == month
    ensures r.Ok? ==> r.value.day == Min(dueDay, MonthLength(year, month))
    ensures r.Err? ==> r.error == BadDate
  {
    if !(1 <= month <= 12) || !(1 <= year <= 9999) || dueDay < 1 then Err(BadDate)
    else Ok(Date(year, month, Min(dueDay, MonthLength(year, month))))
  }

  function DueDate(i: int, dueDay: nat): Date
    requires 12 <= i < 120000 && dueDay >= 1
  {
    MakeDueDate(OfIndex(i).year, OfIndex(i).month, dueDay).value
  }

  // ---- YYYY-MM ----

  function FormatMonth(m: Month): string
    requires m.year >= 0 && m.month >= 0
  {
    Pad(m.year, 4) + "-" + Pad(m.month, 2)
  }

  lemma {:induction false} StripKeepsOut(s: string, c: char)
    requires c !in s
    ensures c !in StripLeft(s) && c !in StripRight(s)
    decreases |s|
  {
    if s != [] {
      StripKeepsOut(s[1..], c);
      StripKeepsOut(s[..|s| - 1], c);
    }
  }

  lemma ParseIntNonNegative(s: string)
    requires '-' !in s
    ensures ParseInt(s).Some? ==> ParseInt(s).value >= 0
  {
    StripKeepsOut(s, '-');
    StripKeepsOut(StripLeft(s), '-');
  }

  /** Blank means "not given"; any other text must read as YYYY-MM. */
  function ParseMonth(value: string): (r: Result<Option<Month>>)
    ensures r.Ok? ==> (r.value.None? <==> value == "")
    ensures r.Ok? && r.value.Some? ==> r.value.value.Valid() && r.value.value.year >= 0
    ensures r.Err? ==> r.error == BadMonth
  {
    if value == "" then Ok(None) else
      var i := Find(value, '-');
      if i == |value| then Err(BadMonth) else
        var yearText, monthText := value[..i], value[i + 1..];
        var year, month := ParseInt(yearText), ParseInt(monthText);
        ParseIntNonNegative(yearText);
        if year.None? || month.None? then Err(BadMonth)
        else if |yearText| != 4 || |monthText| != 2 || !(1 <= month.value <= 12) then Err(BadMonth)
        else Ok(Some(Month(year.value, month.value)))
  }

  /** Which month a text denotes: exactly seven characters, a hyphen after the first
      four, and numbers that int() reads on either side of it. */
  lemma ParseMonthExactly(value: string, m: Month)
    ensures ParseMonth(value) == Ok(Some(m)) <==>
              && |value| == 7 && value[4] == '-' && '-' !in value[..4]
              && ParseInt(value[..4]) == Some(m.year) && ParseInt(value[5..]) == Some(m.month) && m.Valid()
  {
    hide ParseInt;
    var i := Find(value, '-');
    if |value| == 7 && value[4] == '-' && '-' !in value[..4] {
      assert forall j :: 0 <= j < 4 ==> value[j] == value[..4][j];
      assert i == 4;
    }
    if i == 4 && |value| == 7 {
      assert forall j :: 0 <= j < 4 ==> value[..4][j] != '-';
    }
  }

  lemma {:induction false} ParseDigitsBound(s: string)
    requires ParseDigits(s).Some?
    ensures ParseDigits(s).value < Pow10(|s|)
    decreases |s|
  {
    if |s| > 1 {
      var rest := s[..|s| - 1];
      var front := if rest[|rest| - 1] == '_' then rest[..|rest| - 1] else rest;
      ParseDigitsBound(front);
      Pow10Monotone(|front|, |s| - 1);
    }
  }

  lemma {:induction false} Pow10Monotone(j: nat, k: nat)
    requires j <= k
    ensures Pow10(j) <= Pow10(k)
  {
    if j < k {
      Pow10Monotone(j, k - 1);
    }
  }

  lemma {:induction false} StripShortens(s: string)
    ensures |StripLeft(s)| <= |s| && |StripRight(s)| <= |s|
    decreases |s|
  {
    if s != [] {
      StripShortens(s[1..]);
      StripShortens(s[..|s| - 1]);
    }
  }

  /** Four characters cannot name a year past 9999. */
  lemma ParsedYearBound(value: string)
    requires ParseMonth(value).Ok? && ParseMonth(value).value.Some?
    ensures ParseMonth(value).value.value.year <= 9999
  {
    hide ParseDigits, StripLeft, StripRight;
    var i := Find(value, '-');
    var text := value[..i];
    StripShortens(text);
    StripShortens(StripLeft(text));
    var t := Strip(text);
    assert Pow10(4) == 10000;
    var digits := if t != [] && t[0] == '+' then t[1..] else t;
    assert |t| <= 4;
    if ParseDigits(digits).Some? {
      ParseDigitsBound(digits);
      Pow10Monotone(|digits|, 4);
    }
  }

  lemma FormatLengths(m: Month)
    requires 0 <= m.year <= 9999 && m.Valid()
    ensures |Pad(m.year, 4)| == 4 && |Pad(m.month, 2)| == 2
  {
    assert Pow10(4) == 10000 && Pow10(2) == 100;
    PadLength(m.year, 4);
    PadLength(m.month, 2);
  }

  /** Parsing undoes formatting for every year a date can have. */
  lemma ParseFormat(m: Month)
    requires 0 <= m.year <= 9999 && m.Valid()
    ensures ParseMonth(FormatMonth(m)) == Ok(Some(m))
  {
    var y, n := Pad(m.year, 4), Pad(m.month, 2);
    FormatLengths(m);
    ParsePad(m.year, 4);
    ParsePad(m.month, 2);
    var text := FormatMonth(m);
    assert Find(text, '-') == 4 by {
      assert forall j :: 0 <= j < 4 ==> text[j] == y[j] && IsDigit(y[j]);
      assert text[4] == '-';
    }
    assert text[..4] == y && text[5..] == n;
  }

  /** Year 10000 cannot be read back: its text has five year digits. */
  lemma ParseFormatOverflow(m: Month)
    requires m.year >= 10000 && m.Valid()
    ensures ParseMonth(FormatMonth(m)) == Err(BadMonth)
  {
    var y, text := Pad(m.year, 4), FormatMonth(m);
    DigitsLengthAtLeast(m.year, 5);
    assert forall j :: 0 <= j < |y| ==> text[j] == y[j] && IsDigit(y[j]);
    assert text[|y|] == '-';
    assert Find(text, '-') == |y|;
    assert text[..|y|] == y;
  }

  lemma {:induction false} DigitsLengthAtLeast(n: nat, width: nat)
    requires width >= 1 && n >= Pow10(width - 1) && n >= 1
    ensures |Digits(n)| >= width
  {
    if width > 1 {
      assert n >= 10 by { assert Pow10(width - 1) == 10 * Pow10(width - 2); Pow10Positive(width - 2); }
      DigitsLengthAtLeast(n / 10, width - 1);
    }
  }

  lemma {:induction false} Pow10Positive(k: nat)
    ensures Pow10(k) >= 1
  {
    if k > 0 { Pow10Positive(k - 1); }
  }

  /** Up to year 9999, comparing the texts compares the months. */
  lemma FormatOrder(a: Month, b: Month)
    requires 0 <= a.year <= 9999 && a.Valid() && 0 <= b.year <= 9999 && b.Valid()
    ensures StrLess(FormatMonth(a), FormatMonth(b)) <==> a.Index() < b.Index()
    ensures FormatMonth(a) == FormatMonth(b) <==> a == b
  {
    var ya, ma, yb, mb := Pad(a.year, 4), Pad(a.month, 2), Pad(b.year, 4), Pad(b.month, 2);
    FormatLengths(a);
    FormatLengths(b);
    LessConcat(ya + "-", ma, yb + "-", mb);
    LessConcat(ya, "-", yb, "-");
    LessValue(ya, yb);
    LessValue(ma, mb);
    ValuePad(a.year, 4);
    ValuePad(a.month, 2);
    ValuePad(b.year, 4);
    ValuePad(b.month, 2);
    ParseFormat(a);
    ParseFormat(b);
    assert ya + "-" == yb + "-" <==> ya == yb by {
      assert (ya + "-")[..4] == ya && (yb + "-")[..4] == yb;
    }
    assert !StrLess("-", "-");
  }

  // ---- seasons ----

  /** int(season.split("/")[0]) */
  function SeasonYear(season: string): Option<int> {
    ParseInt(season[..Find(season, '/')])
  }

  /** The year before the slash, whatever follows it. */
  lemma SeasonYearReads(y: nat, rest: string)
    ensures SeasonYear(Pad(y, 4) + "/" + rest) == Some(y)
  {
    hide ParseInt;
    var text, season := Pad(y, 4), Pad(y, 4) + "/" + rest;
    assert forall j :: 0 <= j < |text| ==> season[j] == text[j] && IsDigit(text[j]);
    assert season[|text|] == '/';
    assert Find(season, '/') == |text|;
    assert season[..|text|] == text;
    ParsePad(y, 4);
  }

  /** The guarded read: a start year outside 1900-9999 is refused. */
  function SeasonStartYear(season: string): Result<int> {
    match SeasonYear(season)
    case None => Err(BadSeason)
    case Some(y) => if 1900 <= y <= 9999 then Ok(y) else Err(BadSeason)
  }

  /** The current month up to the cutoff day, the next one after it. */
  function DeriveFirstBillingMonth(plan: Plan, today: Date): (text: string)
    requires ValidDate(today)
  {
    var i := Month(today.year, today.month).Index() + (if today.day > plan.cutoffDay then 1 else 0);
    FormatMonth(OfIndex(i))
  }
}
