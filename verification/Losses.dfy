/** Runs from fresh tables in which the club loses something, for every accepted setup,
    and a club where setting up is accepted. */
module Losses {
  import opened Wrappers
  import opened Text
  import opened Money
  import opened Calendar
  import opened Schedule
  import opened Domain
  import opened RecordLife
  import opened AgreementLife
  import opened RecordRuns
  import opened Links
  import opened Runs
  import opened RemoteRuns
  import opened Promises
  import opened ProviderPromises
  import opened Seasons
  import opened Families
  import opened EndToEnd
  import A = AgreementSteps
  import B = BillingSteps
  import I = InvoiceSteps
  import opened Machine

  // ---- an invoice lost ----

  const LOST := I.RowFates(I.ReplyLost, I.Answers, I.Answers, I.Answers, I.Answers, I.Answers)
  const LOST_PUSH := I.PushFates(I.Answers, I.Answers, I.Answers, [LOST])

  /** Create, set up, sign, draft, confirm, push with the first reply lost, discontinue
      with that row selected. */
  function LosingPath(m: int, a: int, p: int, month: string, r: int, today: Day, now: int, leavesOn: Date, later: int): seq<Step> {
    DraftPath(m, a, p, month, r, today, now)
    + [OnBilling(Confirm(r)), OnInvoice(Push(r, LOST_PUSH)), OnAgreement(Discontinue(a, leavesOn, [A.InvoiceId(r, 0)], later))]
  }

  lemma LostRow(w: I.Work, guardian: int, r: int)
    requires w.rows != [] && I.Outstanding(w.rows[0]) && w.desk == I.Desk(Some(0), Remote([], [RemoteClient(guardian, true)]))
    ensures I.PushRows(w, guardian, r, 0, None, [LOST]) ==
              (I.Work(w.rows[0 := I.RowFailed(w.rows[0], Unavailable)],
                      I.Desk(Some(0), Remote([RemoteInvoice(r, 1, w.rows[0].amount, 0, true, false, [])], [RemoteClient(guardian, true)]))),
               I.Raised(Unavailable))
  {
    assert I.FatesAt([LOST], 0) == LOST;
    assert [] + [RemoteInvoice(r, 1, w.rows[0].amount, 0, true, false, [])] == [RemoteInvoice(r, 1, w.rows[0].amount, 0, true, false, [])];
  }

  lemma FirstClient(guardian: int)
    ensures I.EnsureClient(I.Desk(None, Remote([], [])), guardian, I.Answers, I.Answers)
         == (I.Desk(Some(0), Remote([], [RemoteClient(guardian, true)])), I.Got(0))
  {
    assert [] + [RemoteClient(guardian, true)] == [RemoteClient(guardian, true)];
  }

  lemma LostPush(s: State, r: int)
    requires r in s.records && s.records[r].status == Confirmed && s.records[r].sync == NotSynced && s.records[r].final != 0
    requires s.records[r].member in s.members && s.records[r].plan in s.plans && s.records[r].rows == []
    requires s.clientIds == map[] && s.remote == Remote([], [])
    requires B.Materialize(s.records[r], s.plans[s.records[r].plan]).Ok? && B.Materialize(s.records[r], s.plans[s.records[r].plan]).value != []
    ensures var t := I.Push(s, r, LOST_PUSH);
            var rows := B.Materialize(s.records[r], s.plans[s.records[r].plan]).value;
            && t.agreements == s.agreements && t.members == s.members && t.plans == s.plans
            && r in t.records && t.records[r].member == s.records[r].member
            && t.records[r].rows == rows[0 := I.RowFailed(rows[0], Unavailable)]
            && I.Outstanding(rows[0]) && rows[0].payment == Unknown && rows[0].sentOn.None?
            && t.remote.invoices == [RemoteInvoice(r, 1, rows[0].amount, 0, true, false, [])]
  {
    hide I.PushRows, I.EnsureClient, B.Materialize;
    var guardian := s.members[s.records[r].member].guardian;
    var rows := B.Materialize(s.records[r], s.plans[s.records[r].plan]).value;
    FirstClient(guardian);
    NewRowsFresh(s.records[r], s.plans[s.records[r].plan]);
    LostRow(I.Work(rows, I.Desk(Some(0), Remote([], [RemoteClient(guardian, true)]))), guardian, r);
  }

  lemma NewRowsFresh(x: Record, plan: Plan)
    requires x.rows == [] && B.Materialize(x, plan).Ok? && B.Materialize(x, plan).value != []
    ensures var row := B.Materialize(x, plan).value[0];
            I.Outstanding(row) && row.payment == Unknown && row.sentOn.None?
  {
    hide InstallmentSchedule;
  }

  lemma OneSelected(s: State, a: int, m: int, r: int, leavesOn: Date, later: int)
    requires a in s.agreements && s.agreements[a].state == Signed && s.agreements[a].member == m && m in s.members
    requires r in s.records && s.records[r].member == m && s.records[r].rows != []
    requires var row := s.records[r].rows[0]; row.externalId.None? && row.sentOn.None? && row.payment == Unknown
    ensures var t := A.Discontinue(s, a, leavesOn, [A.InvoiceId(r, 0)], later);
            && t.Ok? && t.value.remote == s.remote && r in t.value.records && t.value.records[r].rows != []
            && t.value.records[r].rows[0] == s.records[r].rows[0].(cancelledAt := Some(later))
  {
    hide A.CancelAll;
    var ids := [A.InvoiceId(r, 0)];
    assert A.FirstRefusal(s.records, m, ids[1..]) == None;
    assert A.Owned(s.records, m, ids[0]);
    CancelAllExact(s.records, m, ids, later);
    var after := A.CancelAll(s.records, m, ids, later);
    assert A.RowOf(after, ids[0]) == A.CancelRow(A.RowOf(s.records, ids[0]), later);
  }

  /** The seven steps end with the row cancelled, its id unknown and its invoice live. */
  lemma LosingPathEnds(s: State, m: int, a: int, p: int, month: string, r: int, today: Day, now: int, leavesOn: Date, later: int)
    requires Accepted(s, m, p, month, today)
    requires var n := A.SetupMonth(s.plans[p], month, today).value;
             CalendarYearCount(s.plans[p], n).Ok? && PartialBase(s.plans[p].annual, s.plans[p].installmentCount, CalendarYearCount(s.plans[p], n).value) != 0
    ensures var path := LosingPath(m, a, p, month, r, today, now, leavesOn, later);
            var t := Run(s, path);
            && Do(Run(s, path[..6]), path[6]).Ok?
            && r in t.records && t.records[r].rows != []
            && t.records[r].rows[0].cancelledAt.Some? && t.records[r].rows[0].externalId.None?
            && t.remote.invoices == [RemoteInvoice(r, 1, t.records[r].rows[0].amount, 0, true, false, [])]
  {
    hide Inv, RemoteInv, After, A.SetupMonth, MonthOk, CalendarYearCount, PartialBase, Run, Locked, DraftPath, B.Materialize, A.Discontinue, Do;
    var n := A.SetupMonth(s.plans[p], month, today).value;
    var path := DraftPath(m, a, p, month, r, today, now);
    EveryAcceptedSetupIsDrafted(s, m, a, p, month, r, today, now);
    var s4 := Drafted(s, m, a, p, n, r, now);
    EveryRunKeepsRemote(s, path);
    var x, y, z := OnBilling(Confirm(r)), OnInvoice(Push(r, LOST_PUSH)), OnAgreement(Discontinue(a, leavesOn, [A.InvoiceId(r, 0)], later));
    RunConcat(s, path, [x, y, z]);
    RunConcat(s, path, [x, y]);
    RunThree(s4, x, y, z);
    RunTwo(s4, x, y);
    var s5 := After(s4, x);
    StepKeepsInv(s4, x);
    ConfirmedIs(s4, r);
    FinalOf(s5, r, s.plans[p], CalendarYearCount(s.plans[p], n).value);
    ReadyRecord(s5, r);
    LostPush(s5, r);
    LostPushIs(s5, r);
    var s6 := After(s5, y);
    OneSelected(s6, a, m, r, leavesOn, later);
    DiscontinueIs(s6, a, leavesOn, [A.InvoiceId(r, 0)], later);
    LosingPathSplit(m, a, p, month, r, today, now, leavesOn, later);
  }

  lemma LosingPathSplit(m: int, a: int, p: int, month: string, r: int, today: Day, now: int, leavesOn: Date, later: int)
    ensures var path := LosingPath(m, a, p, month, r, today, now, leavesOn, later);
            && |path| == 7 && path[6] == OnAgreement(Discontinue(a, leavesOn, [A.InvoiceId(r, 0)], later))
            && path[..6] == DraftPath(m, a, p, month, r, today, now) + [OnBilling(Confirm(r)), OnInvoice(Push(r, LOST_PUSH))]
            && forall i :: 0 <= i < |path| ==> !IsForm(path[i])
  {
  }

  lemma ReadyRecord(s: State, r: int)
    requires Inv(s) && r in s.records && s.records[r].count.Some? && s.records[r].final != 0 && s.records[r].rows == []
    ensures s.records[r].member in s.members && s.records[r].plan in s.plans
    ensures B.Materialize(s.records[r], s.plans[s.records[r].plan]).Ok? && B.Materialize(s.records[r], s.plans[s.records[r].plan]).value != []
  {
    hide OneRecordEach, AgreementsOk, AgreementsHaveMembers, AwaitingOk, InstallmentSchedule, RowsAsScheduled, AmountsOk, CountOk;
    var x := s.records[r];
    assert RecordOk(s.plans, x) && Linked(s, x);
    ScheduleOfCount(s.plans[x.plan], x);
    MaterializedOk(x, s.plans[x.plan]);
  }

  lemma LostPushIs(s: State, r: int)
    ensures After(s, OnInvoice(Push(r, LOST_PUSH))) == I.Push(s, r, LOST_PUSH)
  {
    hide I.Push;
  }

  lemma DiscontinueIs(s: State, a: int, leavesOn: Date, ids: seq<A.InvoiceId>, later: int)
    requires A.Discontinue(s, a, leavesOn, ids, later).Ok?
    ensures var step := OnAgreement(Discontinue(a, leavesOn, ids, later));
            Do(s, step) == A.Discontinue(s, a, leavesOn, ids, later) && After(s, step) == A.Discontinue(s, a, leavesOn, ids, later).value
  {
    hide A.Discontinue;
  }

  /** A run that loses an invoice, for every accepted setup with something to pay: the
      discontinuation is accepted and the row cancelled, and through every later run the
      invoice of that row stays live at the provider. */
  lemma LosingAnInvoice(s: State, m: int, a: int, p: int, month: string, r: int, today: Day, now: int,
                        leavesOn: Date, later: int, more: seq<Step>)
    requires Accepted(s, m, p, month, today)
    requires var n := A.SetupMonth(s.plans[p], month, today).value;
             CalendarYearCount(s.plans[p], n).Ok? && PartialBase(s.plans[p].annual, s.plans[p].installmentCount, CalendarYearCount(s.plans[p], n).value) != 0
    requires Locked(Run(s, LosingPath(m, a, p, month, r, today, now, leavesOn, later)), more)
    ensures var path := LosingPath(m, a, p, month, r, today, now, leavesOn, later);
            var t := Run(s, path);
            var u := Run(t, more);
            && Do(Run(s, path[..6]), path[6]).Ok?
            && r in t.records && t.records[r].rows != [] && t.records[r].rows[0].cancelledAt.Some?
            && u.remote.invoices != [] && I.Numbered(u.remote.invoices[0], r, 1)
            && u.remote.invoices[0].active && !u.remote.invoices[0].voided
  {
    hide Run, Locked, Inv, RemoteInv, A.SetupMonth, CalendarYearCount, PartialBase, LosingPath, Do;
    var path := LosingPath(m, a, p, month, r, today, now, leavesOn, later);
    LosingPathEnds(s, m, a, p, month, r, today, now, leavesOn, later);
    LosingPathSplit(m, a, p, month, r, today, now, leavesOn, later);
    NoFormsLocked(s, path);
    EveryRunKeepsRemote(s, path);
    LostInvoiceStaysLive(Run(s, path), more, r, 0, 0);
  }

  // ---- a season stranded ----

  /** Create, set up, sign, draft, amend, sign again, draft again (the record is there),
      and move that record to another season. */
  function StrandingPath(m: int, a: int, p: int, month: string, r: int, today: Day, now: int,
                         b: int, again: int, spare: int, next: int, day: Day): seq<Step> {
    DraftPath(m, a, p, month, r, today, now)
    + [OnAgreement(Amend(a, b)), OnAgreement(Sign(b, again)), OnBilling(CreateDraft(b, spare))]
    + [OnBilling(Reassign(r, next, "", day))]
  }

  /** The amended agreement signed and its draft done: nothing was billed anew. */
  function Amended(s: State, m: int, a: int, p: int, n: string, r: int, now: int, b: int, again: int): State
    requires m in s.members && p in s.plans && CalendarYearCount(s.plans[p], n).Ok?
  {
    Drafted(s, m, a, p, n, r, now).(
      agreements := map[a := Agreement(m, false, Superseded, Some(p), n, Some(now)), b := Agreement(m, true, Signed, Some(p), n, Some(again))])
  }

  lemma AmendAndSign(s: State, m: int, a: int, p: int, n: string, r: int, now: int, b: int, again: int, spare: int)
    requires m in s.members && p in s.plans && CalendarYearCount(s.plans[p], n).Ok? && b != a && s.awaiting == map[]
    requires s.plans[p].isActive && n != "" && MonthOk(s.plans[p], n) && Inv(Drafted(s, m, a, p, n, r, now))
    ensures var s4 := Drafted(s, m, a, p, n, r, now);
            After(After(After(s4, OnAgreement(Amend(a, b))), OnAgreement(Sign(b, again))), OnBilling(CreateDraft(b, spare)))
              == Amended(s, m, a, p, n, r, now, b, again)
  {
    hide Inv, MonthOk, CalendarYearCount, A.Sign, B.CreateDraft;
    var s4 := Drafted(s, m, a, p, n, r, now);
    var s5 := After(s4, OnAgreement(Amend(a, b)));
    assert s5 == s4.(agreements := map[a := Agreement(m, false, Superseded, Some(p), n, Some(now)), b := Agreement(m, true, Generated, Some(p), n, None)]);
    StepKeepsInv(s4, OnAgreement(Amend(a, b)));
    SigningAcceptedExactly(s5, b, again);
    var s6 := After(s5, OnAgreement(Sign(b, again)));
    SignedIs(s5, b, again);
    assert s6.agreements == map[a := Agreement(m, false, Superseded, Some(p), n, Some(now)), b := Agreement(m, true, Signed, Some(p), n, Some(again))];
    assert s6.awaiting == map[b := Intent(p, n)];
    assert IsRecordOf(s6.records, m, s.plans[p].season, r);
    RecordThere(s6, b, spare);
    assert s6.awaiting - {b} == map[];
  }

  lemma SignedIs(s: State, b: int, again: int)
    requires A.Sign(s, b, again).Ok?
    ensures b in s.agreements && s.agreements[b].plan.Some?
    ensures var x := s.agreements[b];
            After(s, OnAgreement(Sign(b, again))) ==
              s.(agreements := s.agreements[b := x.(state := Signed, signedAt := Some(again))],
                 awaiting := s.awaiting[b := Intent(x.plan.value, x.month)])
  {
    hide NormalizeMonth, SeasonStartYear, B.MonthYear;
  }

  lemma RecordThere(s: State, b: int, spare: int)
    requires b in s.awaiting && b in s.agreements && s.awaiting[b].plan in s.plans && s.agreements[b].member in s.members
    requires HasRecord(s.records, s.agreements[b].member, s.plans[s.awaiting[b].plan].season)
    ensures After(s, OnBilling(CreateDraft(b, spare))) == s.(awaiting := s.awaiting - {b})
  {
    hide HasRecord, B.TieredRecord;
  }

  /** A reachable loss, for every accepted setup and every plan of another season: after
      an amendment the old draft can be moved there, and the member's signed agreement is
      left without a billing record. */
  lemma AmendmentThenReassignmentStrands(s: State, m: int, a: int, p: int, month: string, r: int, today: Day, now: int,
                                         b: int, again: int, spare: int, next: int, day: Day)
    requires Accepted(s, m, p, month, today) && b != a
    requires next in s.plans && s.plans[next].season != s.plans[p].season
    ensures var path := StrandingPath(m, a, p, month, r, today, now, b, again, spare, next, day);
            var t := Run(s, path);
            && Locked(s, path) && Do(Run(s, path[..7]), path[7]).Ok?
            && SignedFor(t, b, s.plans[p].season) && !BilledFor(t, b, s.plans[p].season)
  {
    hide Inv, After, A.SetupMonth, MonthOk, CalendarYearCount, Run, Locked, DraftPath, Do, Drafted;
    var n := A.SetupMonth(s.plans[p], month, today).value;
    var path := DraftPath(m, a, p, month, r, today, now);
    EveryAcceptedSetupIsDrafted(s, m, a, p, month, r, today, now);
    var s4 := Drafted(s, m, a, p, n, r, now);
    EveryRunIsConsistent(s, path);
    var x, y, z := OnAgreement(Amend(a, b)), OnAgreement(Sign(b, again)), OnBilling(CreateDraft(b, spare));
    var last := OnBilling(Reassign(r, next, "", day));
    AmendAndSign(s, m, a, p, n, r, now, b, again, spare);
    RunThree(s4, x, y, z);
    RunConcat(s, path, [x, y, z]);
    var s7 := Amended(s, m, a, p, n, r, now, b, again);
    RunOne(s7, last);
    RunConcat(s, path + [x, y, z], [last]);
    StrandingPathSplit(m, a, p, month, r, today, now, b, again, spare, next, day);
    var all := StrandingPath(m, a, p, month, r, today, now, b, again, spare, next, day);
    NoFormsLocked(s, all);
    NoFormsLocked(s, all[..7]);
    EveryRunIsConsistent(s, all[..7]);
    AmendedStrands(s, m, a, p, n, r, now, b, again, next, day);
  }

  lemma StrandingPathSplit(m: int, a: int, p: int, month: string, r: int, today: Day, now: int,
                           b: int, again: int, spare: int, next: int, day: Day)
    ensures var path := StrandingPath(m, a, p, month, r, today, now, b, again, spare, next, day);
            && |path| == 8 && path[7] == OnBilling(Reassign(r, next, "", day))
            && path[..7] == DraftPath(m, a, p, month, r, today, now)
                            + [OnAgreement(Amend(a, b)), OnAgreement(Sign(b, again)), OnBilling(CreateDraft(b, spare))]
            && forall i :: 0 <= i < |path| ==> !IsForm(path[i])
  {
  }

  lemma AmendedStrands(s: State, m: int, a: int, p: int, n: string, r: int, now: int, b: int, again: int, next: int, day: Day)
    requires m in s.members && p in s.plans && CalendarYearCount(s.plans[p], n).Ok? && b != a && s.awaiting == map[]
    requires next in s.plans && s.plans[next].season != s.plans[p].season
    requires Inv(Amended(s, m, a, p, n, r, now, b, again))
    ensures var s7 := Amended(s, m, a, p, n, r, now, b, again);
            var step := OnBilling(Reassign(r, next, "", day));
            var t := After(s7, step);
            Do(s7, step).Ok? && SignedFor(t, b, s.plans[p].season) && !BilledFor(t, b, s.plans[p].season)
  {
    hide Inv, CalendarYearCount, DoBilling, B.Rebased;
    var s7 := Amended(s, m, a, p, n, r, now, b, again);
    var step := OnBilling(Reassign(r, next, "", day));
    forall q | q != r ensures !IsRecordOf(s7.records, m, s.plans[next].season, q) {
    }
    assert Stranded(s7, b, s7.records[r]);
    StrandingIsAccepted(s7, b, r, next, day);
    ReassignMovesStep(s7, step);
    StrandedUnbilled(s7, After(s7, step), r, next, b);
  }

  // ---- a record stuck ----

  /** Create, set up, sign, draft, move the draft to a plan without a month, confirm, push. */
  function StuckPath(m: int, a: int, p: int, month: string, r: int, today: Day, now: int, next: int, day: Day): seq<Step> {
    DraftPath(m, a, p, month, r, today, now)
    + [OnBilling(Reassign(r, next, "", day)), OnBilling(Confirm(r)), OnInvoice(Push(r, HEALTHY_PUSH))]
  }

  lemma BlankMove(s: State, r: int, next: int, day: Day)
    requires next in s.plans && r in s.records && s.records == map[r := s.records[r]]
    requires s.records[r].status == RecordStatus.Draft && s.records[r].rows == []
    ensures var t := B.Reassign(s, r, next, "", day);
            && t.Ok? && t.value == s.(agreements := t.value.agreements, records := t.value.records)
            && t.value.records == map[r := B.Reassigned(s.records[r], next, s.plans[next], "", None)]
  {
    hide B.Reassigned;
    assert s.records[r := B.Reassigned(s.records[r], next, s.plans[next], "", None)] == map[r := B.Reassigned(s.records[r], next, s.plans[next], "", None)];
  }

  lemma MovedTerms(x: Record, next: int, plan: Plan)
    requires x.percent == 0 && x.manual == None
    ensures var y := B.Reassigned(x, next, plan, "", None);
            && y.plan == next && y.month == "" && y.count == None && y.rows == [] && y.final == plan.annual
            && y.status == x.status && y.sync == x.sync
  {
    NoDiscount(plan.annual);
  }

  lemma MovedDraft(s: State, m: int, a: int, p: int, n: string, r: int, now: int, next: int, day: Day)
    requires m in s.members && p in s.plans && CalendarYearCount(s.plans[p], n).Ok? && next in s.plans
    ensures var s4 := Drafted(s, m, a, p, n, r, now);
            var t := After(s4, OnBilling(Reassign(r, next, "", day)));
            && r in t.records && t.plans == s.plans && t.members == s.members && t.remote == s.remote && t.clientIds == s.clientIds
            && t.records == map[r := t.records[r]]
            && t.records[r].status == RecordStatus.Draft && t.records[r].sync == NotSynced && t.records[r].rows == []
            && t.records[r].plan == next && t.records[r].month == "" && t.records[r].count == None
            && t.records[r].final == s.plans[next].annual
  {
    hide CalendarYearCount, B.Reassign, B.Reassigned, B.BaseFor;
    var s4 := Drafted(s, m, a, p, n, r, now);
    BlankMove(s4, r, next, day);
    MovedTerms(s4.records[r], next, s4.plans[next]);
  }

  /** A reachable record that no push can ever issue: its plan has something to pay but
      no schedule, the month-less move was accepted without asking for one, and after the
      first push it stays pending, where queueing and the push button ignore it. */
  lemma MovedWithoutAMonthIsStuck(s: State, m: int, a: int, p: int, month: string, r: int, today: Day, now: int,
                                  next: int, day: Day, confirmToo: bool)
    requires Accepted(s, m, p, month, today)
    requires next in s.plans && s.plans[next].annual != 0
    requires InstallmentSchedule(s.plans[next], s.plans[next].annual, "", None).Err?
    ensures var t := Run(s, StuckPath(m, a, p, month, r, today, now, next, day));
            && r in t.records && t.records[r].status == Confirmed && t.records[r].sync == PendingSync && t.records[r].rows == []
            && I.Enqueue(t, r) == t && I.PushButton(t, r, confirmToo) == Ok(t)
  {
    hide Inv, RemoteInv, After, A.SetupMonth, MonthOk, CalendarYearCount, Run, Locked, DraftPath, Drafted, InstallmentSchedule, I.Push, I.Enqueue, I.PushButton;
    var n := A.SetupMonth(s.plans[p], month, today).value;
    var path := DraftPath(m, a, p, month, r, today, now);
    EveryAcceptedSetupIsDrafted(s, m, a, p, month, r, today, now);
    var s4 := Drafted(s, m, a, p, n, r, now);
    EveryRunIsConsistent(s, path);
    var x, y, z := OnBilling(Reassign(r, next, "", day)), OnBilling(Confirm(r)), OnInvoice(Push(r, HEALTHY_PUSH));
    RunConcat(s, path, [x, y, z]);
    RunThree(s4, x, y, z);
    MovedDraft(s, m, a, p, n, r, now, next, day);
    var s5 := After(s4, x);
    StepKeepsInv(s4, x);
    var s6 := After(s5, y);
    StepKeepsInv(s5, y);
    ConfirmedIs(s5, r);
    StillNoRemote(s6);
    PushIs(s6, r);
    PendingIsStuckExactly(s6, r, confirmToo);
    StuckRows(s6, r);
    StillConfirmed(s6, r);
  }

  lemma StuckRows(s: State, r: int)
    requires r in s.records && s.records[r].rows == [] && s.records[r].final != 0 && s.records[r].plan in s.plans
    requires InstallmentSchedule(s.plans[s.records[r].plan], s.records[r].final, s.records[r].month, s.records[r].count).Err?
    ensures r in I.Push(s, r, HEALTHY_PUSH).records && I.Push(s, r, HEALTHY_PUSH).records[r].rows == []
  {
    hide InstallmentSchedule, I.EnsureClient, I.PushRows, I.PushFromDesk;
    if s.records[r].member in s.members {
      var guardian := s.members[s.records[r].member].guardian;
      UnscheduledRows(s, r, guardian, I.EnsureClient(I.DeskOf(s, guardian), guardian, I.Answers, I.Answers).0);
    }
  }

  lemma UnscheduledRows(s: State, r: int, guardian: int, desk: I.Desk)
    requires r in s.records && s.records[r].rows == [] && s.records[r].final != 0 && s.records[r].plan in s.plans
    requires InstallmentSchedule(s.plans[s.records[r].plan], s.records[r].final, s.records[r].month, s.records[r].count).Err?
    ensures var t := I.PushFromDesk(s, r, guardian, desk, []);
            r in t.records && t.records[r].rows == []
  {
    hide InstallmentSchedule;
  }

  // ---- a club where setting up is accepted ----

  const THIS_YEAR := Plan("2026/2027", 20000, 10, 9, 15, "7,12", true, 20)
  const NEXT_YEAR := Plan("2027/2028", 20000, 10, 9, 15, "7,12", true, 20)
  const NO_YEAR := Plan("", 20000, 10, 9, 15, "7,12", true, 20)
  const AUGUST: Day := Date(2026, 8, 15)

  /** One child, this year's plan, next year's, and one whose season cannot be read. */
  function Club(): State {
    State(map[1 := THIS_YEAR, 2 := NEXT_YEAR, 3 := NO_YEAR], Some(1), map[7 := Member(3, false, None, false, None)],
          map[], map[], map[], map[], Remote([], []))
  }

  lemma SkippedMonths()
    ensures SkipMonths("7,12") == {7, 12}
  {
    hide SkipMonths, PartMonth;
    assert Digits(7) == "7" && Strip("7") == "7" && Digits(12) == "12" && Strip("12") == "12";
    SkipMonthsPartByPart("7", "12");
    SkipMonthsPartByPart("12", "");
    PartNamesItsMonth("7", 7);
    PartNamesItsMonth("12", 12);
    assert "7" + "," + "12" == "7,12";
    assert {7} + {12} == {7, 12};
  }

  lemma SeptemberText()
    ensures FormatMonth(Month(2026, 9)) == "2026-09"
  {
    assert Pad(2026, 4) == "2026" && Pad(9, 2) == "09";
  }

  lemma YearText()
    ensures Pad(2026, 4) == "2026"
  {
  }

  lemma SlashAfterYear()
    ensures Find("2026/2027", '/') == 4 && "2026/2027"[..4] == "2026"
  {
  }

  lemma SeasonText()
    ensures SeasonStartYear("2026/2027") == Ok(2026)
  {
    hide ParseInt, Pad, Find;
    YearText();
    SlashAfterYear();
    ParsePad(2026, 4);
  }

  lemma SeptemberIsOpen()
    ensures !AllSkipped({7, 12}) && FirstOpen({7, 12}, Month(2026, 9).Index()) == Month(2026, 9).Index()
    ensures OfIndex(Month(2026, 9).Index()) == Month(2026, 9)
  {
    hide FirstOpen;
    var skip: set<int> := {7, 12};
    assert 1 !in skip;
    assert Open(skip, Month(2026, 9).Index());
  }

  lemma TenMonthsDated(skip: set<int>, i: int)
    requires i == 24320
    ensures Dated(BillingMonths(skip, i, 10), 15)
  {
    hide BillingMonths;
    forall k: nat | k < 10 ensures 12 <= BillingMonths(skip, i, 10)[k] < 120000 {
      BillingMonthWithin(skip, i, 10, k);
    }
  }

  lemma SeptemberReads()
    ensures ParseMonth("2026-09") == Ok(Some(Month(2026, 9))) && THIS_YEAR.Skip() == {7, 12}
  {
    hide ParseMonth, FormatMonth;
    SkippedMonths();
    SeptemberText();
    ParseFormat(Month(2026, 9));
  }

  lemma SeptemberNormalizes()
    ensures NormalizeMonth(THIS_YEAR, "2026-09") == Ok("2026-09")
  {
    hide ParseMonth, SkipMonths, FormatMonth, FirstOpen, AllSkipped, OfIndex;
    SeptemberText();
    SeptemberReads();
    SeptemberIsOpen();
  }

  lemma SeptemberSchedule()
    ensures CalendarYearCount(THIS_YEAR, "2026-09").Ok?
  {
    hide ParseMonth, SkipMonths, BillingMonths, CountOpen, Amounts, BuildEntries, Dated, AllSkipped;
    SeptemberReads();
    SeptemberIsOpen();
    TenMonthsDated({7, 12}, Month(2026, 9).Index());
  }

  lemma SeptemberIsNotBackdated()
    ensures !StrLess("2026-09", DeriveFirstBillingMonth(THIS_YEAR, AUGUST))
  {
    hide StrLess, FormatMonth, DeriveFirstBillingMonth;
    SeptemberText();
    AugustFloor();
    FormatOrder(Month(2026, 9), Month(2026, 8));
  }

  lemma AugustFloor()
    ensures DeriveFirstBillingMonth(THIS_YEAR, AUGUST) == FormatMonth(Month(2026, 8))
  {
    hide FormatMonth, DeriveFirstBillingMonth;
    BeforeTheCutoff(THIS_YEAR, AUGUST);
  }

  lemma BeforeTheCutoff(plan: Plan, today: Day)
    requires today.day <= plan.cutoffDay
    ensures DeriveFirstBillingMonth(plan, today) == FormatMonth(Month(today.year, today.month))
  {
    hide FormatMonth;
    OpenMonth({}, Month(today.year, today.month));
  }

  /** September of the season's first year, chosen in August, is accepted. */
  lemma SeptemberIsAccepted()
    ensures Accepted(Club(), 7, 1, "2026-09", AUGUST)
    ensures A.SetupMonth(THIS_YEAR, "2026-09", AUGUST) == Ok("2026-09")
  {
    hide NormalizeMonth, SeasonStartYear, B.MonthYear, StrLess, FormatMonth, CalendarYearCount, DeriveFirstBillingMonth;
    SeptemberNormalizes();
    SeptemberSchedule();
    SeptemberIsNotBackdated();
    SeptemberText();
    SeasonText();
    B.MonthYearOfFormat(Month(2026, 9));
  }

  /** A concrete season stranded. */
  lemma ClubStrands()
    ensures var t := Run(Club(), StrandingPath(7, 10, 1, "2026-09", 50, AUGUST, 100, 11, 200, 51, 2, AUGUST));
            SignedFor(t, 11, "2026/2027") && !BilledFor(t, 11, "2026/2027")
  {
    hide Run, Accepted, StrandingPath, SignedFor, BilledFor, Do, Locked, A.SetupMonth, Club;
    SeptemberIsAccepted();
    ClubPlans();
    AmendmentThenReassignmentStrands(Club(), 7, 10, 1, "2026-09", 50, AUGUST, 100, 11, 200, 51, 2, AUGUST);
  }

  lemma ClubPlans()
    ensures 1 in Club().plans && Club().plans[1].season == "2026/2027"
    ensures 2 in Club().plans && Club().plans[2].season != "2026/2027"
    ensures 3 in Club().plans && Club().plans[3] == NO_YEAR
  {
    assert "2027/2028"[3] != "2026/2027"[3];
  }

  /** A concrete record stuck: the plan it was moved to names no season. */
  lemma ClubSticks()
    ensures var t := Run(Club(), StuckPath(7, 10, 1, "2026-09", 50, AUGUST, 100, 3, AUGUST));
            50 in t.records && t.records[50].sync == PendingSync && I.Enqueue(t, 50) == t
  {
    hide Run, Accepted, StuckPath, I.Enqueue, I.PushButton, InstallmentSchedule, Club, A.SetupMonth;
    SeptemberIsAccepted();
    ClubPlans();
    NoSchedule();
    MovedWithoutAMonthIsStuck(Club(), 7, 10, 1, "2026-09", 50, AUGUST, 100, 3, AUGUST, false);
  }

  lemma NoSchedule()
    ensures InstallmentSchedule(NO_YEAR, 20000, "", None).Err?
  {
    assert ParseInt("") == None;
    hide BillingMonths, Amounts, SkipMonths;
  }

  /** A concrete invoice lost, live after every later run. */
  lemma ClubLosesAnInvoice(more: seq<Step>)
    requires Locked(Run(Club(), LosingPath(7, 10, 1, "2026-09", 50, AUGUST, 100, Date(2026, 12, 31), 300)), more)
    ensures var t := Run(Club(), LosingPath(7, 10, 1, "2026-09", 50, AUGUST, 100, Date(2026, 12, 31), 300));
            var u := Run(t, more);
            && 50 in t.records && t.records[50].rows != [] && t.records[50].rows[0].cancelledAt.Some?
            && u.remote.invoices != [] && I.Numbered(u.remote.invoices[0], 50, 1) && u.remote.invoices[0].active
  {
    hide Run, Accepted, LosingPath, CalendarYearCount, PartialBase, Locked, A.SetupMonth;
    SeptemberIsAccepted();
    SeptemberSchedule();
    SomethingToPay(CalendarYearCount(THIS_YEAR, "2026-09").value);
    LosingAnInvoice(Club(), 7, 10, 1, "2026-09", 50, AUGUST, 100, Date(2026, 12, 31), 300, more);
  }

  lemma SomethingToPay(count: nat)
    ensures PartialBase(20000, 10, count) != 0
  {
  }
}
