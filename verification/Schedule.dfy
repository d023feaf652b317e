/** The billing schedule: normalizing a first month past skip months, placing
    the installments and counting those of the starting calendar year. */
module Schedule {
  import opened Wrappers
  import opened Text
  import opened Money
  import opened Calendar

  datatype Entry = Entry(due: Date, amount: int)

  // ---- what the three computations mean ----

  /** The canonical text of the earliest billing month not before the given one. */
  function NormalizeMonth(plan: Plan, value: string): (r: Result<string>) {
    match ParseMonth(value)
    case Err(e) => Err(e)
    case Ok(None) => Err(BadMonth)
    case Ok(Some(m)) =>
      if AllSkipped(plan.Skip()) then Err(NoBillingMonths)
      else Ok(FormatMonth(OfIndex(FirstOpen(plan.Skip(), m.Index()))))
  }

  /** Where the rows start: the given month, else the plan's own first month. */
  function Anchor(plan: Plan, value: string): Result<Month> {
    match ParseMonth(value)
    case Err(e) => Err(e)
    case Ok(Some(m)) => Ok(m)
    case Ok(None) =>
      match SeasonYear(plan.season)
      case None => Err(BadSeason)
      case Some(y) => Ok(Month(y, plan.firstMonth))
  }

  function Rows(plan: Plan, cap: Option<int>): (n: nat)
    ensures n >= 1
  {
    RowCount(match cap case None => plan.installmentCount case Some(c) => c)
  }

  /** The calendar can hold every row: years 1 to 9999 and a real due day. */
  predicate Dated(months: seq<int>, dueDay: nat) {
    dueDay >= 1 && forall k :: 0 <= k < |months| ==> 12 <= months[k] < 120000
  }

  function BuildEntries(months: seq<int>, dueDay: nat, amounts: seq<int>): (entries: seq<Entry>)
    requires Dated(months, dueDay) && |months| == |amounts|
    ensures |entries| == |months|
  {
    seq(|months|, i requires 0 <= i < |months| => Entry(DueDate(months[i], dueDay), amounts[i]))
  }

  function InstallmentSchedule(plan: Plan, total: int, value: string, cap: Option<int>): Result<seq<Entry>> {
    match Anchor(plan, value)
    case Err(e) => Err(e)
    case Ok(a) =>
      var n := Rows(plan, cap);
      if !a.Valid() then Err(BadDate)
      else if AllSkipped(plan.Skip()) then Err(NoBillingMonths)
      else
        var months := BillingMonths(plan.Skip(), a.Index(), n);
        if Dated(months, plan.dueDay) then Ok(BuildEntries(months, plan.dueDay, Amounts(total, n)))
        else Err(BadDate)
  }

  /** The rows that fall in the starting calendar year. */
  function CalendarYearCount(plan: Plan, value: string): Result<nat> {
    match ParseMonth(value)
    case Err(e) => Err(e)
    case Ok(None) => Err(BadMonth)
    case Ok(Some(m)) =>
      match InstallmentSchedule(plan, 0, value, None)
      case Err(e) => Err(e)
      case Ok(_) =>
        Ok(Min(RowCount(plan.installmentCount), CountOpen(plan.Skip(), m.Index(), 12 * (m.year + 1))))
  }

  // ---- the computations, as the services loop through them ----

  /** The cursor loop both computations share: step to the next month while the
      current one is skipped, and give up after more than twelve steps. */
  method AdvancePastSkips(skip: set<int>, fromYear: int, fromMonth: int)
    returns (ok: bool, year: int, month: int)
    requires forall m :: m in skip ==> 1 <= m <= 12
    ensures !Month(fromYear, fromMonth).Valid() ==> ok && (year, month) == (fromYear, fromMonth)
    ensures Month(fromYear, fromMonth).Valid() ==>
              && (ok <==> !AllSkipped(skip))
              && (ok ==> Month(year, month) == OfIndex(FirstOpen(skip, Month(fromYear, fromMonth).Index())))
  {
    hide Open, OfIndex, AllSkipped;
    year, month := fromYear, fromMonth;
    var skipped := 0;
    ghost var start := Month(year, month).Index();
    while month in skip
      invariant 0 <= skipped <= 12 && Month(year, month).Index() == start + skipped
      invariant skipped == 0 ==> (year, month) == (fromYear, fromMonth)
      invariant skipped > 0 ==> Month(year, month).Valid() && Month(fromYear, fromMonth).Valid()
      invariant forall j :: start <= j < start + skipped ==> !Open(skip, j)
      decreases 13 - skipped
    {
      OpenMonth(skip, Month(year, month));
      month := month + 1;
      if month > 12 {
        month := 1;
        year := year + 1;
      }
      skipped := skipped + 1;
      if skipped > 12 {
        ConsecutiveSkips(skip, start);
        return false, year, month;
      }
    }
    if 1 <= month <= 12 {
      OpenMonth(skip, Month(year, month));
      OpenMonthFound(skip, start, start + skipped);
    }
    return true, year, month;
  }

  lemma OpenMonthFound(skip: set<int>, start: int, found: int)
    requires start <= found && Open(skip, found) && forall j :: start <= j < found ==> !Open(skip, j)
    ensures !AllSkipped(skip) && FirstOpen(skip, start) == found
  {
    hide Open, FirstOpen, AllSkipped;
    SomeOpen(skip, found);
  }

  method NormalizeFirstBillingMonth(plan: Plan, value: string) returns (r: Result<string>)
    ensures r == NormalizeMonth(plan, value)
  {
    hide ParseMonth, SkipMonths;
    var parsed := ParseMonth(value);
    if parsed.Err? {
      return Err(parsed.error);
    }
    if parsed.value.None? {
      return Err(BadMonth);
    }
    var ok, year, month := AdvancePastSkips(plan.Skip(), parsed.value.value.year, parsed.value.value.month);
    if !ok {
      return Err(NoBillingMonths);
    }
    return Ok(FormatMonth(Month(year, month)));
  }

  method DeriveInstallmentSchedule(plan: Plan, total: int, value: string, cap: Option<int>)
    returns (r: Result<seq<Entry>>)
    ensures r == InstallmentSchedule(plan, total, value, cap)
  {
    hide ParseMonth, SkipMonths, SeasonYear, Amounts, FirstOpen, Open, OfIndex, AllSkipped, DueDate, MakeDueDate, BillingMonths, BuildEntries;
    var count := Rows(plan, cap);
    var amounts := Amounts(total, count);
    var skip := plan.Skip();
    var anchor := Anchor(plan, value);
    if anchor.Err? {
      return Err(anchor.error);
    }
    var year, month := anchor.value.year, anchor.value.month;
    ghost var all := BillingMonths(skip, anchor.value.Index(), count);
    var schedule: seq<Entry> := [];
    for k := 0 to count
      invariant |schedule| == k
      invariant k == 0 ==> Month(year, month) == anchor.value
      invariant k > 0 ==> Month(year, month).Valid() && anchor.value.Valid() && !AllSkipped(skip) && plan.dueDay >= 1
      invariant Month(year, month).Index() == if k == 0 then anchor.value.Index() else all[k - 1] + 1
      invariant forall i :: 0 <= i < k ==> 12 <= all[i] < 120000
      invariant forall i :: 0 <= i < k ==> schedule[i] == Entry(DueDate(all[i], plan.dueDay), amounts[i])
    {
      ghost var start := Month(year, month).Index();
      var ok;
      ok, year, month := AdvancePastSkips(skip, year, month);
      if !ok {
        return Err(NoBillingMonths);
      }
      BillingMonthsStep(skip, anchor.value.Index(), count, k);
      assert anchor.value.Valid() ==> Month(year, month).Index() == FirstOpen(skip, start) == all[k];
      var due := MakeDueDate(year, month, plan.dueDay);
      if due.Err? {
        YearOutOfRange(Month(year, month));
        return Err(BadDate);
      }
      DueDateOf(Month(year, month), plan.dueDay);
      schedule := schedule + [Entry(due.value, amounts[k])];
      month := month + 1;
      if month > 12 {
        month := 1;
        year := year + 1;
      }
    }
    EntriesBuilt(all, plan.dueDay, amounts, schedule);
    return Ok(schedule);
  }

  method CountCalendarYearBillableInstallments(plan: Plan, value: string) returns (r: Result<nat>)
    ensures r == CalendarYearCount(plan, value)
  {
    hide ParseMonth, SkipMonths, SeasonYear, Amounts, Open, AllSkipped, FirstOpen, CountOpen, MakeDueDate;
    var parsed := ParseMonth(value);
    if parsed.Err? {
      return Err(parsed.error);
    }
    if parsed.value.None? {
      return Err(BadMonth);
    }
    var startYear := parsed.value.value.year;
    var schedule := DeriveInstallmentSchedule(plan, 0, value, None);
    if schedule.Err? {
      return Err(schedule.error);
    }
    ghost var start := parsed.value.value.Index();
    ghost var n := Rows(plan, None);
    ghost var months := BillingMonths(plan.Skip(), start, n);
    var count := 0;
    for k := 0 to |schedule.value|
      invariant count == CountBelow(months[..k], 12 * (startYear + 1))
    {
      BillingMonthsExact(plan.Skip(), start, n);
      assert start <= months[k];
      DueDateYear(months[k], plan.dueDay);
      assert months[..k + 1][..k] == months[..k];
      if schedule.value[k].due.year == startYear {
        count := count + 1;
      }
    }
    assert months[..n] == months;
    CountBelowClosedForm(plan.Skip(), start, n, 12 * (startYear + 1));
    return Ok(count);
  }

  // ---- what the services promise about them ----

  /** A month of the same calendar year, not before the given one, is billed. */
  predicate BilledByDecember(skip: set<int>, m: Month) {
    exists q :: m.month <= q <= 12 && q !in skip
  }

  lemma LeavesTheYear(skip: set<int>, m: Month)
    requires m.Valid() && !AllSkipped(skip)
    ensures FirstOpen(skip, m.Index()) < 12 * (m.year + 1) <==> BilledByDecember(skip, m)
    ensures FirstOpen(skip, m.Index()) < 12 * (m.year + 2)
  {
    hide FirstOpen, AllSkipped;
    var f := FirstOpen(skip, m.Index());
    if f < 12 * (m.year + 1) {
      assert f % 12 + 1 == f - 12 * m.year + 1;
    } else {
      forall q | m.month <= q <= 12 ensures q in skip {
        var j := 12 * m.year + q - 1;
        assert j % 12 + 1 == q;
        assert !Open(skip, j);
      }
    }
  }

  /** Normalizing gives the earliest billing month, and normalizing that again changes
      nothing, if and only if the text lies before 9999 or a month from it to the December
      of 9999 is billed; else the first pass leaves the four-digit years. */
  lemma NormalizeIdempotent(plan: Plan, value: string)
    requires NormalizeMonth(plan, value).Ok?
    ensures var m := ParseMonth(value).value.value;
            var f := FirstOpen(plan.Skip(), m.Index());
            && m.Index() <= f && Open(plan.Skip(), f)
            && (forall j :: m.Index() <= j < f ==> !Open(plan.Skip(), j))
            && NormalizeMonth(plan, value).value == FormatMonth(OfIndex(f))
            && (NormalizeMonth(plan, NormalizeMonth(plan, value).value) == NormalizeMonth(plan, value)
                <==> m.year < 9999 || BilledByDecember(plan.Skip(), m))
  {
    hide ParseMonth, SkipMonths, FirstOpen, Open, BilledByDecember, AllSkipped;
    var m := ParseMonth(value).value.value;
    var f := FirstOpen(plan.Skip(), m.Index());
    ParsedYearBound(value);
    LeavesTheYear(plan.Skip(), m);
    FirstOpenAnchors(plan.Skip(), m.Index(), 0);
    if f < 120000 {
      ParseFormat(OfIndex(f));
    } else {
      ParseFormatOverflow(OfIndex(f));
    }
  }

  /** The failing input: December 9999 of a plan that skips December. */
  lemma NormalizingDecember9999(plan: Plan)
    requires plan.skipMonths == "12"
    ensures NormalizeMonth(plan, "9999-12") == Ok("10000-01")
    ensures NormalizeMonth(plan, "10000-01") == Err(BadMonth)
  {
    hide ParseMonth, SkipMonths, FormatMonth, FirstOpen, Open, AllSkipped;
    LastMonths();
    ParseFormat(Month(9999, 12));
    ParseFormatOverflow(Month(10000, 1));
    SkipsDecember(plan);
  }

  lemma LastMonths()
    ensures FormatMonth(Month(9999, 12)) == "9999-12"
    ensures FormatMonth(Month(10000, 1)) == "10000-01"
  {
    assert Pad(9999, 4) == "9999" && Pad(12, 2) == "12" && Pad(10000, 4) == "10000" && Pad(1, 2) == "01";
  }

  lemma SkipsDecember(plan: Plan)
    requires plan.skipMonths == "12"
    ensures !AllSkipped(plan.Skip())
    ensures OfIndex(FirstOpen(plan.Skip(), Month(9999, 12).Index())) == Month(10000, 1)
  {
    hide SkipMonths, FirstOpen, PartMonth;
    assert Digits(12) == "12" && Strip("12") == "12";
    SkipMonthsPartByPart("12", "");
    PartNamesItsMonth("12", 12);
    var i := Month(9999, 12).Index();
    assert 1 !in plan.Skip();
    assert !Open(plan.Skip(), i) && Open(plan.Skip(), i + 1);
  }

  /** Anchoring the schedule at a month or at its normalization is the same. */
  lemma NormalizedAnchorSameSchedule(plan: Plan, total: int, value: string, cap: Option<int>)
    requires NormalizeMonth(plan, value).Ok?
    ensures var normal := NormalizeMonth(plan, value).value;
            || InstallmentSchedule(plan, total, normal, cap) == InstallmentSchedule(plan, total, value, cap)
            || (InstallmentSchedule(plan, total, normal, cap).Err? && InstallmentSchedule(plan, total, value, cap).Err?)
  {
    hide ParseMonth, SkipMonths, FirstOpen, Open, Amounts;
    var m := ParseMonth(value).value.value;
    var f := FirstOpen(plan.Skip(), m.Index());
    FirstOpenAnchors(plan.Skip(), m.Index(), Rows(plan, cap));
    if f < 120000 {
      ParseFormat(OfIndex(f));
    } else {
      ParseFormatOverflow(OfIndex(f));
      assert BillingMonths(plan.Skip(), m.Index(), Rows(plan, cap))[0] == f;
    }
  }

  /** Where a schedule starts: the month given, or else the plan's first month in the
      year its season names. */
  predicate StartsAt(plan: Plan, value: string, start: Month) {
    if value == "" then SeasonYear(plan.season) == Some(start.year) && start.month == plan.firstMonth
    else ParseMonth(value) == Ok(Some(start))
  }

  lemma StartIsAnchor(plan: Plan, value: string, start: Month)
    ensures StartsAt(plan, value, start) <==> Anchor(plan, value) == Ok(start)
  {
    hide ParseInt, SeasonYear;
  }

  /** Without a month the plan's own first month is what would have been given. */
  lemma OwnFirstMonthIsGiven(plan: Plan, total: int, cap: Option<int>, y: int)
    requires SeasonYear(plan.season) == Some(y) && 0 <= y <= 9999 && 1 <= plan.firstMonth <= 12
    ensures InstallmentSchedule(plan, total, "", cap)
         == InstallmentSchedule(plan, total, FormatMonth(Month(y, plan.firstMonth)), cap)
  {
    hide SkipMonths, SeasonYear, Amounts, BillingMonths, Dated, BuildEntries, AllSkipped, FormatMonth;
    ParseFormat(Month(y, plan.firstMonth));
  }

  /** From a readable start the schedule fails exactly when every month is skipped or a
      row would need a date no calendar has. */
  lemma ScheduleFailsExactly(plan: Plan, total: int, value: string, cap: Option<int>, start: Month)
    requires StartsAt(plan, value, start) && start.Valid()
    ensures var months := BillingMonths(plan.Skip(), start.Index(), Rows(plan, cap));
            && (InstallmentSchedule(plan, total, value, cap) == Err(NoBillingMonths) <==> AllSkipped(plan.Skip()))
            && (InstallmentSchedule(plan, total, value, cap).Ok? <==>
                !AllSkipped(plan.Skip()) && plan.dueDay >= 1 && 12 <= months[0] && months[|months| - 1] < 120000)
  {
    hide ParseMonth, SeasonYear, SkipMonths, Open, FirstOpen, Amounts, DueDate, StartsAt;
    StartIsAnchor(plan, value, start);
    var n := Rows(plan, cap);
    if !AllSkipped(plan.Skip()) {
      BillingMonthsExact(plan.Skip(), start.Index(), n);
    }
  }

  /** A derived schedule: the rows sum to the total and fall on exactly the first
      billing months from its start, on the due day clamped to each month. */
  lemma ScheduleMeaning(plan: Plan, total: int, value: string, cap: Option<int>)
    requires InstallmentSchedule(plan, total, value, cap).Ok?
    ensures value == "" ==> SeasonYear(plan.season).Some? && 1 <= plan.firstMonth <= 12
    ensures value != "" ==> ParseMonth(value).Ok? && ParseMonth(value).value.Some?
    ensures var entries := InstallmentSchedule(plan, total, value, cap).value;
            var start := if value == "" then Month(SeasonYear(plan.season).value, plan.firstMonth) else ParseMonth(value).value.value;
            var months := seq(|entries|, k requires 0 <= k < |entries| =>
              Month(entries[k].due.year, entries[k].due.month).Index());
            && StartsAt(plan, value, start)
            && |entries| == Max(1, if cap.Some? then cap.value else plan.installmentCount)
            && FirstBillingMonths(plan.Skip(), start.Index(), months)
            && (forall k :: 0 <= k < |entries| ==>
                  && ValidDate(entries[k].due)
                  && entries[k].due.day == Min(plan.dueDay, MonthLength(entries[k].due.year, entries[k].due.month)))
            && Sum(seq(|entries|, k requires 0 <= k < |entries| => entries[k].amount)) == total
  {
    hide ParseMonth, SeasonYear, SkipMonths, Open, FirstOpen, Amounts;
    var entries := InstallmentSchedule(plan, total, value, cap).value;
    var n, start := Rows(plan, cap), Anchor(plan, value).value.Index();
    var all := BillingMonths(plan.Skip(), start, n);
    BillingMonthsExact(plan.Skip(), start, n);
    var months := seq(|entries|, k requires 0 <= k < |entries| =>
      Month(entries[k].due.year, entries[k].due.month).Index());
    forall k | 0 <= k < n ensures months[k] == all[k] {
      assert entries[k].due == DueDate(all[k], plan.dueDay);
    }
    assert months == all;
    AmountsConserve(total, n);
    assert seq(|entries|, k requires 0 <= k < |entries| => entries[k].amount) == Amounts(total, n);
  }

  /** The saved count: at least one row from a billing month, and a schedule
      capped at it stays in the starting year and keeps the full plan's dates. */
  lemma CappedScheduleStaysInYear(plan: Plan, total: int, value: string)
    requires CalendarYearCount(plan, value).Ok?
    requires Open(plan.Skip(), ParseMonth(value).value.value.Index())
    ensures var count := CalendarYearCount(plan, value).value;
            var capped := InstallmentSchedule(plan, total, value, Some(count));
            var full := InstallmentSchedule(plan, total, value, None);
            && 1 <= count <= RowCount(plan.installmentCount)
            && capped.Ok? && full.Ok? && |capped.value| == count <= |full.value|
            && (forall k :: 0 <= k < count ==>
                  && capped.value[k].due == full.value[k].due
                  && capped.value[k].due.year == ParseMonth(value).value.value.year)
  {
    hide ParseMonth, SkipMonths, SeasonYear, Amounts, MakeDueDate, CountOpen, Open, FirstOpen;
    var m := ParseMonth(value).value.value;
    var skip, n, count := plan.Skip(), Rows(plan, None), CalendarYearCount(plan, value).value;
    CalendarYearPrefix(skip, m.Index(), m.year, n);
    var all := BillingMonths(skip, m.Index(), n);
    assert BillingMonths(skip, m.Index(), count) == all[..count];
    assert Dated(all, plan.dueDay) && Dated(all[..count], plan.dueDay);
    var capped, full := InstallmentSchedule(plan, total, value, Some(count)), InstallmentSchedule(plan, total, value, None);
    assert Rows(plan, Some(count)) == count;
    forall k | 0 <= k < count
      ensures capped.value[k].due == full.value[k].due && capped.value[k].due.year == m.year
    {
      assert capped.value[k].due == full.value[k].due == DueDate(all[k], plan.dueDay);
      assert 12 * m.year <= all[k] < 12 * (m.year + 1);
      DueDateYear(all[k], plan.dueDay);
    }
  }

  lemma CalendarYearPrefix(skip: set<int>, start: int, year: int, n: nat)
    requires !AllSkipped(skip) && Open(skip, start) && 12 * year <= start < 12 * (year + 1) && n >= 1
    ensures var count := Min(n, CountOpen(skip, start, 12 * (year + 1)));
            && 1 <= count <= n
            && BillingMonths(skip, start, count) == BillingMonths(skip, start, n)[..count]
            && (forall k :: 0 <= k < count ==> start <= BillingMonths(skip, start, n)[k] < 12 * (year + 1))
  {
    hide Open, FirstOpen, CountOpen, AllSkipped;
    CountOpenStep(skip, start, 12 * (year + 1));
    var count := Min(n, CountOpen(skip, start, 12 * (year + 1)));
    BillingMonthsPrefix(skip, start, count, n);
    BillingMonthsExact(skip, start, n);
    forall k | 0 <= k < count ensures BillingMonths(skip, start, n)[k] < 12 * (year + 1) {
      RowBefore(skip, start, n, 12 * (year + 1), k);
    }
  }

  lemma EntriesBuilt(months: seq<int>, dueDay: nat, amounts: seq<int>, schedule: seq<Entry>)
    requires Dated(months, dueDay) && |months| == |amounts| == |schedule|
    requires forall i :: 0 <= i < |months| ==> schedule[i] == Entry(DueDate(months[i], dueDay), amounts[i])
    ensures schedule == BuildEntries(months, dueDay, amounts)
  {
    hide DueDate;
  }

  lemma DueDateOf(m: Month, dueDay: nat)
    requires m.Valid() && 1 <= m.year <= 9999 && dueDay >= 1
    ensures 12 <= m.Index() < 120000
    ensures DueDate(m.Index(), dueDay) == MakeDueDate(m.year, m.month, dueDay).value
  {
    OpenMonth({}, m);
  }

  lemma YearOutOfRange(m: Month)
    ensures m.Valid() ==> (12 <= m.Index() < 120000 <==> 1 <= m.year <= 9999)
  {
  }

  lemma DueDateYear(i: int, dueDay: nat)
    requires 12 <= i < 120000 && dueDay >= 1
    ensures 12 * DueDate(i, dueDay).year <= i < 12 * (DueDate(i, dueDay).year + 1)
  {
  }
}
