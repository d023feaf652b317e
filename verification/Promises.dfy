/** What the invariants mean for the people relying on them. */
module Promises {
  import opened Wrappers
  import opened Text
  import opened Money
  import opened Calendar
  import opened Schedule
  import opened Domain
  import opened RecordLife
  import opened AgreementLife
  import opened RecordRuns
  import opened Links
  import opened Runs
  import A = AgreementSteps
  import B = BillingSteps
  import I = InvoiceSteps
  import opened Machine

  function RowAmounts(rows: seq<Invoice>): seq<int> {
    seq(|rows|, i requires 0 <= i < |rows| => rows[i].amount)
  }

  // ---- money ----

  /** In every reachable state the amounts of a record follow from its base, tier and
      override, whatever sequence of recomputes, forms and reassignments led there. */
  lemma AmountsInEveryRun(s: State, steps: seq<Step>, r: int)
    requires Initial(s) && Locked(s, steps) && r in Run(s, steps).records
    ensures var x := Run(s, steps).records[r];
            && x.discount == RoundHalfUp(x.base * x.percent, 100)
            && x.final == (if x.manual.Some? then x.manual.value else x.base - x.discount)
            && (x.status == RecordStatus.Draft ==> x.rows == [] && x.sync == NotSynced)
  {
    hide Run, Locked, Initial;
    EveryRunIsConsistent(s, steps);
    assert RecordOk(Run(s, steps).plans, Run(s, steps).records[r]);
  }

  /** The tier snapshot, the opt-out and the payment mode of a record never change;
      once it is confirmed, neither does anything that is billed. */
  lemma SnapshotNeverChanges(s: State, steps: seq<Step>, r: int)
    requires Inv(s) && Locked(s, steps) && r in s.records
    ensures r in Run(s, steps).records
    ensures var x, y := s.records[r], Run(s, steps).records[r];
            && y.percent == x.percent && y.optOut == x.optOut && y.mode == x.mode && y.member == x.member
            && (x.status == Confirmed ==> y.status == Confirmed && SameBilling(x, y))
  {
    hide Run, Locked, Inv;
    RunMovesForward(s, steps);
    assert RecordLater(s.records[r], Run(s, steps).records[r]);
  }

  lemma MaterializedSum(x: Record, plan: Plan)
    requires x.rows == [] && B.Materialize(x, plan).Ok? && B.Materialize(x, plan).value != []
    ensures Sum(RowAmounts(B.Materialize(x, plan).value)) == x.final != 0
  {
    hide ParseMonth, SeasonYear, SkipMonths, Amounts, Anchor, Open, FirstOpen;
    hide InstallmentSchedule;
    var rows := B.Materialize(x, plan).value;
    var entries := InstallmentSchedule(plan, x.final, x.month, x.count).value;
    if x.mode == Upfront && entries != [] {
      assert RowAmounts(rows) == [x.final];
      assert Sum([x.final]) == Sum([]) + x.final by { assert [x.final][..0] == []; }
    } else {
      ScheduleMeaning(plan, x.final, x.month, x.count);
      assert RowAmounts(rows) == seq(|entries|, k requires 0 <= k < |entries| => entries[k].amount);
    }
  }

  lemma RowsAddUp(plans: map<int, Plan>, x: Record)
    requires RecordOk(plans, x) && x.rows != []
    ensures Sum(RowAmounts(x.rows)) == x.final != 0 && x.status == Confirmed
  {
    hide B.Materialize, MonthOk, CountOk, AmountsOk;
    var wanted := B.Materialize(x.(rows := []), plans[x.plan]).value;
    MaterializedSum(x.(rows := []), plans[x.plan]);
    assert RowAmounts(x.rows) == RowAmounts(wanted);
  }

  /** Once a record has rows, only a confirmed non-zero total does, and through every
      later run they keep their dates and amounts and add up to exactly that total. */
  lemma RowsSumForever(s: State, steps: seq<Step>, r: int)
    requires Inv(s) && Locked(s, steps) && r in s.records && s.records[r].rows != []
    ensures r in Run(s, steps).records
    ensures var x, y := s.records[r], Run(s, steps).records[r];
            && RowAmounts(y.rows) == RowAmounts(x.rows)
            && (forall i :: 0 <= i < |x.rows| ==> y.rows[i].due == x.rows[i].due)
            && Sum(RowAmounts(y.rows)) == y.final == x.final != 0
            && y.status == Confirmed
  {
    hide Run, Locked, RecordOk, OneRecordEach, AgreementsOk, AgreementsHaveMembers, AwaitingOk, AllLinked, OneCurrent;
    RunMovesForward(s, steps);
    var t := Run(s, steps);
    var x, y := s.records[r], t.records[r];
    assert RecordLater(x, y);
    assert RecordOk(s.plans, x) && RecordOk(t.plans, y);
    RowsAddUp(s.plans, x);
    RowsAddUp(t.plans, y);
    assert forall i :: 0 <= i < |x.rows| ==> RowLater(x.rows[i], y.rows[i]);
  }

  /** Why the runs leave the unlocking edit out: from any consistent state with rows,
      unlocking and then overriding is accepted and breaks the sum. */
  lemma UnlockingBreaksTheSum(s: State, r: int, text: string, total: int)
    requires Inv(s) && r in s.records && s.records[r].rows != [] && total != s.records[r].final
    requires Strip(text) == s.records[r].reason && (s.records[r].manual.Some? ==> Strip(text) != "")
    ensures var unlock := OnBilling(SaveForm(r, s.records[r].manual, text, RecordStatus.Draft));
            var override := OnBilling(SaveForm(r, Some(total), "reason", RecordStatus.Draft));
            var t := After(After(s, unlock), override);
            && Unlocks(s, unlock)
            && r in t.records && t.records[r].rows == s.records[r].rows
            && t.records[r].final == total && Sum(RowAmounts(t.records[r].rows)) != total
  {
    hide RecordOk, OneRecordEach, AgreementsOk, AgreementsHaveMembers, AwaitingOk, AllLinked, OneCurrent;
    assert RecordOk(s.plans, s.records[r]);
    RowsAddUp(s.plans, s.records[r]);
    assert Strip("reason") != "";
  }

  // ---- dates ----

  /** A saved count is the number of rows a record in installments gets, at least one
      and at most the plan's, all of them in the start year of the plan's season. */
  lemma SavedCountBoundsTheYear(plans: map<int, Plan>, x: Record)
    requires RecordOk(plans, x) && x.count.Some?
    ensures var plan := plans[x.plan];
            && 1 <= x.count.value <= RowCount(plan.installmentCount)
            && (x.rows != [] ==> |x.rows| == if x.mode == Upfront then 1 else x.count.value)
            && (forall i :: 0 <= i < |x.rows| ==> Ok(x.rows[i].due.year) == SeasonStartYear(plan.season))
  {
    hide ParseMonth, SeasonYear, SkipMonths, Amounts, Open, FirstOpen, InstallmentSchedule, CalendarYearCount, SeasonStartYear;
    var plan := plans[x.plan];
    CappedScheduleStaysInYear(plan, x.final, x.month);
    if x.rows != [] {
      var wanted := B.Materialize(x.(rows := []), plan).value;
      assert SameTerms(x.rows, wanted);
    }
  }

  // ---- agreements ----

  /** A member who has a current agreement keeps exactly one, through every run. */
  lemma ExactlyOneCurrent(s: State, steps: seq<Step>, m: int)
    requires Inv(s) && Locked(s, steps) && HasCurrent(s.agreements, m)
    ensures var t := Run(s, steps);
            exists a :: IsCurrent(t.agreements, m, a) && (forall b :: IsCurrent(t.agreements, m, b) ==> b == a)
                     && t.agreements[a].state != Superseded
  {
    hide Run, Locked, RecordsOk, OneRecordEach, AgreementsHaveMembers, AwaitingOk, AllLinked, SetupOk;
    RunMovesForward(s, steps);
    var t := Run(s, steps);
    var a :| IsCurrent(t.agreements, m, a);
    assert AgreementOk(t.plans, t.agreements[a]);
  }

  /** Whoever is not current is void or superseded, and a stored month is a billing
      month of the plan's season-start year, written canonically. */
  lemma AgreementsInEveryRun(s: State, steps: seq<Step>, a: int)
    requires Initial(s) && Locked(s, steps) && a in Run(s, steps).agreements
    ensures var t := Run(s, steps);
            var x := t.agreements[a];
            && (!x.isCurrent ==> x.state in {Void, Superseded})
            && (x.month != "" ==> x.plan.Some? && x.plan.value in t.plans && MonthOk(t.plans[x.plan.value], x.month))
  {
    hide Run, Locked, Initial, MonthOk;
    EveryRunIsConsistent(s, steps);
    assert AgreementOk(Run(s, steps).plans, Run(s, steps).agreements[a]);
  }

  lemma NormalizedAlready(plan: Plan, month: string)
    requires MonthOk(plan, month)
    ensures NormalizeMonth(plan, month) == Ok(month)
    ensures SeasonStartYear(plan.season).Ok? && B.MonthYear(month) == Some(SeasonStartYear(plan.season).value)
  {
    hide ParseMonth, SkipMonths, SeasonYear, FormatMonth, B.MonthYear;
    var m := ParseMonth(month).value.value;
    B.MonthYearOfFormat(m);
    SomeOpen(plan.Skip(), m.Index());
    OpenMonth(plan.Skip(), m);
  }

  /** In every consistent state the checks of signing that re-read the month and the
      season never refuse: an unsigned row signs exactly when it has a month and its
      plan is active. */
  lemma SigningAcceptedExactly(s: State, a: int, now: int)
    requires Inv(s) && a in s.agreements
    ensures var x := s.agreements[a];
            A.Sign(s, a, now).Ok? <==>
              x.state in {Generated, Sent} && x.month != "" && x.plan.Some? && x.plan.value in s.plans && s.plans[x.plan.value].isActive
  {
    hide RecordsOk, OneRecordEach, AllLinked, AgreementsHaveMembers, AwaitingOk, OneCurrent, MonthOk, NormalizeMonth, SeasonStartYear, B.MonthYear;
    var x := s.agreements[a];
    assert AgreementOk(s.plans, x);
    if x.month != "" {
      NormalizedAlready(s.plans[x.plan.value], x.month);
    }
  }

  /** Creating an agreement again changes nothing, on any later day. */
  lemma CreatingTwiceIsOnce(s: State, m: int, a: int, today: Day, b: int, later: Day)
    requires OneCurrent(s.agreements) && A.CreateAgreement(s, m, a, today).Ok?
    ensures var t := A.CreateAgreement(s, m, a, today).value;
            A.CreateAgreement(t, m, b, later) == Ok(t)
  {
    hide A.DefaultSetup, OneCurrent;
    var t := A.CreateAgreement(s, m, a, today).value;
    var before := CurrentOf(s.agreements, m);
    if t != s {
      assert IsCurrent(t.agreements, m, a);
      forall c | IsCurrent(t.agreements, m, c) ensures c == a {
        if c != a {
          assert IsCurrent(s.agreements, m, c);
          OnlyCurrent(s.agreements, m, c, before);
        }
      }
    }
  }

  lemma OnlyCurrent(agreements: map<int, Agreement>, m: int, c: int, current: Option<int>)
    requires OneCurrent(agreements) && IsCurrent(agreements, m, c) && current == CurrentOf(agreements, m)
    ensures current == Some(c)
  {
  }

  // ---- rows ----

  /** The status of every reachable row tells what the provider was told: an id, a
      sending not before its due month, and how a cancellation has to be carried out. */
  lemma RowsInEveryRun(s: State, steps: seq<Step>, r: int, i: nat)
    requires Initial(s) && Locked(s, steps) && r in Run(s, steps).records && i < |Run(s, steps).records[r].rows|
    ensures RowOk(Run(s, steps).records[r].rows[i])
  {
    hide Run, Locked, Initial, RowOk;
    EveryRunIsConsistent(s, steps);
    assert RecordOk(Run(s, steps).plans, Run(s, steps).records[r]);
  }

  /** A synced record is done: each row that was not cancelled has its id, and only a
      total of nothing is synced without rows. */
  lemma SyncedRowsHaveIds(s: State, steps: seq<Step>, r: int)
    requires Initial(s) && Locked(s, steps) && r in Run(s, steps).records && Run(s, steps).records[r].sync == Synced
    ensures var x := Run(s, steps).records[r];
            && x.status == Confirmed && (x.rows == [] <==> x.final == 0)
            && forall i :: 0 <= i < |x.rows| && x.rows[i].cancelledAt.None? ==> x.rows[i].externalId.Some?
  {
    hide Run, Locked, Initial, RowOk, MonthOk, CountOk, AmountsOk;
    EveryRunIsConsistent(s, steps);
    var t := Run(s, steps);
    var x := t.records[r];
    assert RecordOk(t.plans, x);
    if x.rows != [] {
      RowsAddUp(t.plans, x);
    }
    assert forall i :: 0 <= i < |x.rows| && x.rows[i].cancelledAt.None? && x.rows[i].externalId.None? ==> I.Outstanding(x.rows[i]);
  }

  /** A cancelled row is never pushed or emailed afterwards. */
  lemma CancelledRowsStaySilent(s: State, steps: seq<Step>, r: int, i: nat)
    requires Inv(s) && Locked(s, steps) && r in s.records && i < |s.records[r].rows| && s.records[r].rows[i].cancelledAt.Some?
    ensures r in Run(s, steps).records && i < |Run(s, steps).records[r].rows|
    ensures var x, y := s.records[r].rows[i], Run(s, steps).records[r].rows[i];
            && y.cancelledAt.Some? && y.externalId == x.externalId && y.sentOn == x.sentOn && y.status == x.status
  {
    hide Run, Locked, Inv;
    RunMovesForward(s, steps);
    assert RecordLater(s.records[r], Run(s, steps).records[r]);
    assert RowLater(s.records[r].rows[i], Run(s, steps).records[r].rows[i]);
  }

  function OutstandingCount(rows: seq<Invoice>): nat {
    if rows == [] then 0
    else OutstandingCount(rows[..|rows| - 1]) + if I.Outstanding(rows[|rows| - 1]) then 1 else 0
  }

  lemma {:induction false} OutstandingShrinks(x: seq<Invoice>, y: seq<Invoice>)
    requires RowsLater(x, y)
    ensures OutstandingCount(y) <= OutstandingCount(x)
  {
    if x != [] {
      var n := |x| - 1;
      assert RowLater(x[n], y[n]);
      assert forall i :: 0 <= i < n ==> x[..n][i] == x[i] && y[..n][i] == y[i];
      OutstandingShrinks(x[..n], y[..n]);
    }
  }

  /** The rows still to be created at the provider never become more. */
  lemma OutstandingNeverGrows(s: State, steps: seq<Step>, r: int)
    requires Inv(s) && Locked(s, steps) && r in s.records && s.records[r].rows != []
    ensures r in Run(s, steps).records
    ensures OutstandingCount(Run(s, steps).records[r].rows) <= OutstandingCount(s.records[r].rows)
  {
    hide Run, Locked, Inv, RowsLater;
    RunMovesForward(s, steps);
    assert RecordLater(s.records[r], Run(s, steps).records[r]);
    OutstandingShrinks(s.records[r].rows, Run(s, steps).records[r].rows);
  }

  // ---- sending ----

  /** A sweep marks each row it reaches by that row alone, whatever happened to the
      rows before it, and of the other tables touches only the provider's invoices. */
  lemma {:induction false} SweepTreatsRowsAlone(s: State, ids: seq<A.InvoiceId>, today: Date, emails: seq<bool>, fates: seq<I.Fate>,
                                                id: A.InvoiceId)
    requires |emails| == |ids| == |fates| && A.Distinct(ids)
    requires id.record in s.records && id.index < |s.records[id.record].rows|
    ensures var t := I.Sweep(s, ids, today, emails, fates);
            && t == s.(records := t.records, remote := s.remote.(invoices := t.remote.invoices))
            && id.record in t.records && |t.records[id.record].rows| == |s.records[id.record].rows|
            && (id !in ids ==> A.RowOf(t.records, id) == A.RowOf(s.records, id))
            && (forall i :: 0 <= i < |ids| && ids[i] == id ==>
                  A.RowOf(t.records, id) == I.SendRow(A.RowOf(s.records, id), today, emails[i], fates[i]))
  {
    hide I.SendRow;
    if ids != [] {
      var n := |ids| - 1;
      SweepTreatsRowsAlone(s, ids[..n], today, emails[..n], fates[..n], id);
      assert forall i :: 0 <= i < n ==> ids[..n][i] == ids[i] && emails[..n][i] == emails[i] && fates[..n][i] == fates[i];
      assert ids[n] !in ids[..n];
      OneSent(I.Sweep(s, ids[..n], today, emails[..n], fates[..n]), ids[n], today, emails[n], fates[n], id);
    }
  }

  lemma OneSent(s: State, sent: A.InvoiceId, today: Date, hasEmail: bool, fate: I.Fate, id: A.InvoiceId)
    requires id.record in s.records && id.index < |s.records[id.record].rows|
    ensures var t := I.SendDue(s, sent, today, hasEmail, fate);
            && t == s.(records := t.records, remote := s.remote.(invoices := t.remote.invoices))
            && id.record in t.records && |t.records[id.record].rows| == |s.records[id.record].rows|
            && A.RowOf(t.records, id) == if sent == id then I.SendRow(A.RowOf(s.records, id), today, hasEmail, fate) else A.RowOf(s.records, id)
  {
    hide I.SendRow, I.DueToSend;
  }

  /** What a sweep marks as sent: exactly the open rows the provider has as drafts, from the
      first day of their due month, whose guardian has an address and whose call was
      answered. */
  lemma SentExactly(row: Invoice, today: Date, hasEmail: bool, fate: I.Fate)
    requires RowOk(row) && ValidDate(today) && ValidDate(row.due)
    ensures var y := I.SendRow(row, today, hasEmail, fate);
            (y.sentOn != row.sentOn) <==>
              (row.cancelledAt.None? && row.externalId.Some? && row.sentOn.None? && hasEmail && fate == I.Answers
               && !(today.year < row.due.year || (today.year == row.due.year && today.month < row.due.month)))
  {
  }

  /** What the sweep leaves of a row it does not mark as sent: the code of the call that
      failed, and nothing of a row it did not call for or of a worker that died. */
  lemma FailedSendingExactly(row: Invoice, today: Date, hasEmail: bool, fate: I.Fate)
    requires RowOk(row) && ValidDate(today) && ValidDate(row.due) && fate != I.Answers
    ensures var y := I.SendRow(row, today, hasEmail, fate);
            var called := row.cancelledAt.None? && row.externalId.Some? && row.sentOn.None? && hasEmail
               && !(today.year < row.due.year || (today.year == row.due.year && today.month < row.due.month));
            && (!called || fate.Dies? ==> y == row)
            && (called && fate.Refused? ==> y == row.(error := Some(fate.code)))
            && (called && fate.ReplyLost? ==> y == row.(error := Some(Unavailable)))
  {
  }

  // ---- discontinuing ----

  /** In every reachable state a discontinuation is refused exactly for an agreement that
      is not signed and for a selection that is not the member's own or has money on it; a
      success cancels exactly the selection, marks the member as leaving on that day and
      touches no other row of any table. */
  lemma DiscontinuationExactly(s: State, a: int, leavesOn: Date, ids: seq<A.InvoiceId>, now: int)
    requires Inv(s) && a in s.agreements
    ensures var m, t := s.agreements[a].member, A.Discontinue(s, a, leavesOn, ids, now);
            && (t.Ok? <==> s.agreements[a].state == Signed && A.Selectable(s.records, m, ids) && forall i :: 0 <= i < |ids| ==> !HasMoney(A.RowOf(s.records, ids[i])))
            && (t == Err(WrongState) <==> s.agreements[a].state != Signed)
            && (t == Err(Foreign) <==> s.agreements[a].state == Signed && !A.Selectable(s.records, m, ids))
            && (t.Ok? ==>
                  && CancelsExactly(s.records, t.value.records, ids, now)
                  && t.value == s.(records := t.value.records, agreements := t.value.agreements, members := t.value.members)
                  && t.value.agreements == s.agreements[a := s.agreements[a].(state := Discontinued)]
                  && m in s.members && t.value.members == s.members[m := s.members[m].(discontinued := true, leavesOn := Some(leavesOn))])
  {
    hide RecordOk, OneRecordEach, AwaitingOk, AllLinked, OneCurrent, CancelsExactly, HasMoney, A.CancelAll, A.FirstRefusal, A.Selectable;
    SelectionRefusedExactly(s.plans, s.records, s.agreements[a].member, ids, now);
  }

  /** What cancelling does to a row in order: a known invoice is queued to be archived
      while it is a draft and cancelled once it was sent; nothing is queued for others. */
  lemma CancellingQueuesExactly(row: Invoice, now: int)
    requires RowOk(row) && row.cancelledAt.None?
    ensures var y := A.CancelRow(row, now);
            && y == row.(cancelledAt := Some(now), action := y.action, cancelStatus := y.cancelStatus)
            && (y.action == Archive <==> row.externalId.Some? && row.sentOn.None?)
            && (y.action == Cancel <==> row.externalId.Some? && row.sentOn.Some?)
            && (y.cancelStatus == Queued <==> row.externalId.Some?)
            && (y.cancelStatus == NotQueued <==> row.externalId.None?)
  {
  }

  // ---- prices ----

  /** Recomputing a draft takes its base from the plan as it is now, keeps the tier,
      count and override, and has nothing left to do a second time. */
  lemma RecomputingTakesTheNewPrice(s: State, r: int)
    requires Inv(s) && r in s.records && s.records[r].status == RecordStatus.Draft
    ensures B.Recompute(s, r).Ok?
    ensures var t := B.Recompute(s, r).value;
            && r in t.records && t.records == s.records[r := t.records[r]]
            && var x, y := s.records[r], t.records[r];
            && x.plan in s.plans && var plan := s.plans[x.plan];
            && y.base == (if x.count.None? then plan.annual else PartialBase(plan.annual, plan.installmentCount, x.count.value))
            && y.discount == RoundHalfUp(y.base * x.percent, 100)
            && y.final == (if x.manual.Some? then x.manual.value else y.base - y.discount)
            && y == x.(base := y.base, discount := y.discount, final := y.final)
            && B.Recompute(t, r) == Ok(t)
  {
    hide OneRecordEach, AllLinked, AgreementsOk, AgreementsHaveMembers, AwaitingOk, PartialBase, RoundHalfUp, RowsAsScheduled, CountOk;
    assert RecordOk(s.plans, s.records[r]);
    var t := B.Recompute(s, r).value;
    assert t.records[r := t.records[r]] == t.records;
  }

  ghost predicate AllBased(s: State) {
    forall r :: r in s.records ==> BasedOn(s.plans, s.records[r])
  }

  /** A step that edits no price keeps every base equal to what its plan charges for
      the saved count; recomputing a draft restores that after an edit. */
  lemma StepKeepsBases(s: State, step: Step)
    requires Inv(s) && AllBased(s) && !Unlocks(s, step)
    requires !(step.OnBilling? && step.billing.EditPlan?)
    ensures AllBased(After(s, step))
  {
    hide After, Unlocks, RecordOk, RecordsLater, OneRecordEach, AgreementsOk, AwaitingOk, AllLinked, B.BaseFor;
    StepKeepsRecords(s, step);
    PlansStay(s, step);
    BasesStay(s.plans, s.records, After(s, step).records);
  }

  lemma BasesStay(plans: map<int, Plan>, x: map<int, Record>, y: map<int, Record>)
    requires BasesMove(plans, x, y) && forall r :: r in x ==> BasedOn(plans, x[r])
    ensures forall r :: r in y ==> BasedOn(plans, y[r])
  {
    hide B.BaseFor;
    forall r | r in y ensures BasedOn(plans, y[r]) {
      assert r in x ==> BasedOn(plans, x[r]);
    }
  }

  lemma PlansStay(s: State, step: Step)
    requires !(step.OnBilling? && step.billing.EditPlan?)
    ensures After(s, step).plans == s.plans
  {
    hide DoAgreement, DoBilling, DoInvoice;
    if Do(s, step).Ok? {
      match step
      case OnAgreement(x) => AgreementFrame(s, x);
      case OnBilling(x) => BillingFrame(s, x);
      case OnInvoice(x) => InvoiceFrame(s, x);
    }
  }

  predicate NoPriceEdits(steps: seq<Step>) {
    forall i :: 0 <= i < |steps| ==> !(steps[i].OnBilling? && steps[i].billing.EditPlan?)
  }

  /** So in every such run a base is the annual amount, or the partial base of the count. */
  lemma BasesInEveryRun(s: State, steps: seq<Step>, r: int)
    requires Initial(s) && Locked(s, steps) && NoPriceEdits(steps) && r in Run(s, steps).records
    ensures var t := Run(s, steps);
            var x := t.records[r];
            && x.plan in t.plans && var plan := t.plans[x.plan];
            && x.base == if x.count.None? then plan.annual else PartialBase(plan.annual, plan.installmentCount, x.count.value)
  {
    hide Run, Locked, Initial, PartialBase;
    AllBasedInEveryRun(s, steps);
    assert BasedOn(Run(s, steps).plans, Run(s, steps).records[r]);
  }

  lemma {:induction false} AllBasedInEveryRun(s: State, steps: seq<Step>)
    requires Initial(s) && Locked(s, steps) && NoPriceEdits(steps)
    ensures AllBased(Run(s, steps))
  {
    hide After, Unlocks, Inv, Initial, BasedOn;
    if steps == [] {
      NothingBased(s);
    } else {
      var init, step := steps[..|steps| - 1], steps[|steps| - 1];
      AllBasedInEveryRun(s, init);
      EveryRunIsConsistent(s, init);
      StepKeepsBases(Run(s, init), step);
    }
  }

  lemma NothingBased(s: State)
    requires Initial(s)
    ensures AllBased(s)
  {
  }
}
