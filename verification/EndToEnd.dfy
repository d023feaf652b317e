/** From fresh tables to a billed season: the path every member takes can be taken. */
module EndToEnd {
  import opened Wrappers
  import opened Keys
  import opened Money
  import opened Calendar
  import opened Schedule
  import opened Domain
  import opened Tier
  import opened RecordLife
  import opened Runs
  import opened RemoteRuns
  import opened Promises
  import opened ProviderPromises
  import opened Seasons
  import opened Families
  import A = AgreementSteps
  import B = BillingSteps
  import I = InvoiceSteps
  import opened Machine

  /** Create the agreement, set plan and month, sign, draft. */
  function DraftPath(m: int, a: int, p: int, month: string, r: int, today: Day, now: int): seq<Step> {
    [OnAgreement(CreateAgreement(m, a, today)), OnAgreement(SetBillingSetup(a, p, month, today)),
     OnAgreement(Sign(a, now)), OnBilling(CreateDraft(a, r))]
  }

  /** Fresh tables after those four steps, for a month that setting up stores. */
  function Drafted(s: State, m: int, a: int, p: int, n: string, r: int, now: int): State
    requires m in s.members && p in s.plans && CalendarYearCount(s.plans[p], n).Ok?
  {
    s.(agreements := map[a := Agreement(m, true, Signed, Some(p), n, Some(now))],
       records := map[r := B.NewRecord(m, s.members[m], p, s.plans[p], Some(a), n, Some(CalendarYearCount(s.plans[p], n).value), 0)])
  }

  /** Staff's choice of plan and month that setting up accepts on this day. */
  predicate Accepted(s: State, m: int, p: int, month: string, today: Day) {
    Initial(s) && m in s.members && p in s.plans && A.SetupMonth(s.plans[p], month, today).Ok?
  }

  lemma SetUp(s: State, m: int, a: int, p: int, month: string, today: Day)
    requires Initial(s) && m in s.members && p in s.plans && A.SetupMonth(s.plans[p], month, today).Ok?
    ensures var t := After(After(s, OnAgreement(CreateAgreement(m, a, today))), OnAgreement(SetBillingSetup(a, p, month, today)));
            t == s.(agreements := map[a := Agreement(m, true, Generated, Some(p), A.SetupMonth(s.plans[p], month, today).value, None)])
  {
    hide A.DefaultSetup, A.SetupMonth;
    assert CurrentOf(s.agreements, m).None?;
  }

  lemma SetupMonthOk(plan: Plan, month: string, today: Day)
    requires A.SetupMonth(plan, month, today).Ok?
    ensures var n := A.SetupMonth(plan, month, today).value;
            MonthOk(plan, n) && n != "" && plan.isActive && CalendarYearCount(plan, n).Ok?
  {
    hide NormalizeMonth, B.MonthYear, SeasonStartYear, DeriveFirstBillingMonth, Open, CalendarYearCount;
    NormalizedInYear(plan, month);
  }

  /** The lone signer is a first child. */
  lemma LoneSigner(s: State, a: int, m: int, season: Option<string>, due: Date)
    requires m in s.members && OneCurrent(s.agreements) && forall b :: b in s.agreements ==> b == a
    ensures B.SnapshotPercent(s, season, due, m) == 0
  {
    forall b | Own(s, season, due, m, b)
      ensures b in s.agreements && Earlier(s, s.members[m].guardian, season, due, b) == {}
    {
      SetExt(Earlier(s, s.members[m].guardian, season, due, b), {});
    }
  }

  lemma SignAndDraft(s: State, a: int, m: int, p: int, n: string, r: int, now: int)
    requires Inv(s) && m in s.members && p in s.plans && s.records == map[] && s.awaiting == map[]
    requires s.agreements == map[a := Agreement(m, true, Generated, Some(p), n, None)]
    requires MonthOk(s.plans[p], n) && n != "" && s.plans[p].isActive && CalendarYearCount(s.plans[p], n).Ok?
    ensures After(After(s, OnAgreement(Sign(a, now))), OnBilling(CreateDraft(a, r))) == Drafted(s, m, a, p, n, r, now)
  {
    hide Inv, MonthOk, CalendarYearCount, InstallmentSchedule, B.SnapshotPercent, B.NewRecord, A.SignGuard, B.FirstDue;
    var u := After(s, OnAgreement(Sign(a, now)));
    SigningAcceptedExactly(s, a, now);
    GuardGives(s, a);
    StepKeepsInv(s, OnAgreement(Sign(a, now)));
    assert !HasRecord(u.records, m, s.plans[p].season);
    assert u.awaiting == map[a := Intent(p, n)];
    CountNeedsSchedule(s.plans[p], n);
    DraftSucceedsExactly(u, a, r);
    InvCurrent(u);
    LoneSigner(u, a, m, Some(s.plans[p].season), B.FirstDue(s.plans[p], n).value);
    assert B.TieredRecord(u, m, p, a, n).Ok?;
    assert u.awaiting - {a} == map[];
  }

  /** The four steps, for every accepted choice. */
  lemma EveryAcceptedSetupIsDrafted(s: State, m: int, a: int, p: int, month: string, r: int, today: Day, now: int)
    requires Accepted(s, m, p, month, today)
    ensures var n := A.SetupMonth(s.plans[p], month, today).value;
            && MonthOk(s.plans[p], n) && n != "" && s.plans[p].isActive && CalendarYearCount(s.plans[p], n).Ok?
            && Run(s, DraftPath(m, a, p, month, r, today, now)) == Drafted(s, m, a, p, n, r, now)
            && Locked(s, DraftPath(m, a, p, month, r, today, now))
  {
    hide Inv, After, A.SetupMonth, MonthOk, CalendarYearCount, Drafted, Unlocks;
    var n := A.SetupMonth(s.plans[p], month, today).value;
    var path := DraftPath(m, a, p, month, r, today, now);
    SetupMonthOk(s.plans[p], month, today);
    SetUp(s, m, a, p, month, today);
    InitialInv(s);
    StepKeepsInv(s, path[0]) by { NoFormLocked(s, path[0]); }
    StepKeepsInv(After(s, path[0]), path[1]) by { NoFormLocked(After(s, path[0]), path[1]); }
    var s2 := After(After(s, path[0]), path[1]);
    SignAndDraft(s2, a, m, p, n, r, now);
    SameDraft(s, s2, m, a, p, n, r, now);
    RunCons(s, path[0], path[1..]);
    RunCons(After(s, path[0]), path[1], path[2..]);
    RunCons(s2, path[2], path[3..]);
    RunCons(After(s2, path[2]), path[3], []);
    assert path == [path[0]] + path[1..] && path[1..] == [path[1]] + path[2..] && path[2..] == [path[2]] + path[3..] && path[3..] == [path[3]] + [];
    NoFormsLocked(s, path);
  }

  lemma SameDraft(s: State, t: State, m: int, a: int, p: int, n: string, r: int, now: int)
    requires t == s.(agreements := t.agreements) && m in s.members && p in s.plans && CalendarYearCount(s.plans[p], n).Ok?
    ensures Drafted(t, m, a, p, n, r, now) == Drafted(s, m, a, p, n, r, now)
  {
    hide CalendarYearCount, B.NewRecord;
  }

  // ---- runs by their first step ----

  lemma RunCons(s: State, first: Step, rest: seq<Step>)
    ensures Run(s, [first] + rest) == Run(After(s, first), rest)
  {
    hide After;
    assert [first][..0] == [] && Run(s, []) == s;
    RunConcat(s, [first], rest);
  }

  lemma RunOne(s: State, x: Step)
    ensures Run(s, [x]) == After(s, x)
  {
    hide After;
    assert [x][..0] == [] && Run(s, []) == s;
  }

  lemma RunTwo(s: State, x: Step, y: Step)
    ensures Run(s, [x, y]) == After(After(s, x), y)
  {
    hide After;
    RunCons(s, x, [y]);
    RunCons(After(s, x), y, []);
    assert [x, y] == [x] + [y] && [y] == [y] + [];
  }

  lemma RunThree(s: State, x: Step, y: Step, z: Step)
    ensures Run(s, [x, y, z]) == After(After(After(s, x), y), z)
  {
    hide After;
    RunCons(s, x, [y, z]);
    RunTwo(After(s, x), y, z);
    assert [x, y, z] == [x] + [y, z];
  }

  predicate IsForm(step: Step) {
    step.OnBilling? && step.billing.SaveForm?
  }

  lemma NoFormLocked(s: State, step: Step)
    requires !IsForm(step)
    ensures !Unlocks(s, step)
  {
  }

  lemma {:induction false} NoFormsLocked(s: State, steps: seq<Step>)
    requires forall i :: 0 <= i < |steps| ==> !IsForm(steps[i])
    ensures Locked(s, steps)
  {
    hide Run, Unlocks;
    if steps != [] {
      var init := steps[..|steps| - 1];
      NoFormsLocked(s, init);
      NoFormLocked(Run(s, init), steps[|steps| - 1]);
    }
  }

  lemma InvCurrent(s: State)
    requires Inv(s)
    ensures OneCurrent(s.agreements)
  {
  }

  lemma GuardGives(s: State, a: int)
    requires A.SignGuard(s, a).Ok?
    ensures a in s.agreements && s.agreements[a].plan.Some?
    ensures A.SignGuard(s, a).value == Intent(s.agreements[a].plan.value, s.agreements[a].month)
  {
    hide NormalizeMonth, SeasonStartYear, B.MonthYear;
  }

  lemma CountNeedsSchedule(plan: Plan, n: string)
    requires CalendarYearCount(plan, n).Ok?
    ensures InstallmentSchedule(plan, 0, n, None).Ok?
  {
    hide InstallmentSchedule, ParseMonth, CountOpen;
  }

  predicate NoneCancelled(rows: seq<Invoice>) {
    forall k :: 0 <= k < |rows| ==> rows[k].cancelledAt.None?
  }

  lemma OneCancelsNothing(w: I.Work, guardian: int, r: int, i: nat, f: I.RowFates)
    requires i < |w.rows| && NoneCancelled(w.rows)
    ensures NoneCancelled(I.PushOne(w, guardian, r, i, f).0.rows)
  {
    hide I.CreateWithRecovery;
  }

  lemma {:induction false} PushingCancelsNothing(w: I.Work, guardian: int, r: int, i: nat, failed: Option<ErrorCode>, fates: seq<I.RowFates>)
    requires i <= |w.rows| && NoneCancelled(w.rows)
    ensures NoneCancelled(I.PushRows(w, guardian, r, i, failed, fates).0.rows)
    decreases |w.rows| - i
  {
    hide I.PushOne, NoneCancelled;
    if i < |w.rows| {
      if !I.Outstanding(w.rows[i]) {
        PushingCancelsNothing(w, guardian, r, i + 1, failed, fates);
      } else {
        var (next, reply) := I.PushOne(w, guardian, r, i, I.FatesAt(fates, i));
        OneCancelsNothing(w, guardian, r, i, I.FatesAt(fates, i));
        match reply
        case Dead =>
        case StaleClient =>
        case Got(_) => PushingCancelsNothing(next, guardian, r, i + 1, failed, fates);
        case Failed(code) =>
          if !I.Retried(code) {
            PushingCancelsNothing(next, guardian, r, i + 1, if failed.Some? then failed else Some(code), fates);
          }
      }
    }
  }

  lemma NewRowsOpen(x: Record, plan: Plan)
    requires B.Materialize(x, plan).Ok? && x.rows == []
    ensures NoneCancelled(B.Materialize(x, plan).value)
  {
    hide InstallmentSchedule;
  }

  /** A first push of a record leaves none of its rows cancelled. */
  lemma PushedRowsOpen(s: State, r: int)
    requires r in s.records && s.records[r].rows == []
    ensures r in I.Push(s, r, HEALTHY_PUSH).records && NoneCancelled(I.Push(s, r, HEALTHY_PUSH).records[r].rows)
  {
    hide I.PushToProvider, NoneCancelled;
    var x := s.records[r];
    NothingIsCancelled();
    if x.member in s.members && x.plan in s.plans {
      ProviderRowsOpen(s, r);
    }
  }

  lemma ProviderRowsOpen(s: State, r: int)
    requires r in s.records && s.records[r].rows == [] && s.records[r].member in s.members && s.records[r].plan in s.plans
    ensures r in I.PushToProvider(s, r, HEALTHY_PUSH).records && NoneCancelled(I.PushToProvider(s, r, HEALTHY_PUSH).records[r].rows)
  {
    hide I.PushRows, I.EnsureClient, B.Materialize, I.DeskOf, NoneCancelled;
    var x, guardian := s.records[r], s.members[s.records[r].member].guardian;
    NothingIsCancelled();
    if B.Materialize(x, s.plans[x.plan]).Ok? {
      NewRowsOpen(x, s.plans[x.plan]);
      var desk := I.EnsureClient(I.DeskOf(s, guardian), guardian, I.Answers, I.Answers).0;
      PushingCancelsNothing(I.Work(B.Materialize(x, s.plans[x.plan]).value, desk), guardian, r, 0, None, []);
    }
  }

  lemma NothingIsCancelled()
    ensures NoneCancelled([])
  {
  }

  lemma Pushed(s: State, r: int)
    requires Inv(s) && RemoteInv(s) && r in s.records && s.records[r].status == Confirmed && s.records[r].rows == []
    requires s.records[r].plan in s.plans && s.records[r].count.Some?
    ensures var t := I.Push(s, r, HEALTHY_PUSH);
            && r in t.records && t.records[r].sync == Synced
            && RemoteTotal(t.remote.invoices, r) == t.records[r].final == s.records[r].final
            && SameBilling(s.records[r], t.records[r])
  {
    hide Inv, RemoteInv, I.Push, InstallmentSchedule, MonthOk, CalendarYearCount, RowsAsScheduled, AmountsOk, StatusOk, RowsOk, RowsLater;
    var step := OnInvoice(Push(r, HEALTHY_PUSH));
    var t := I.Push(s, r, HEALTHY_PUSH);
    assert After(s, step) == t;
    InvGives(s);
    var x := s.records[r];
    assert RecordOk(s.plans, x);
    ScheduleOfCount(s.plans[x.plan], x);
    HealthyPushSyncs(s, r);
    StepKeepsInv(s, step);
    StepKeepsRemote(s, step);
    LaterRecord(s, t, r);
    PushedRowsOpen(s, r);
    UncancelledMeansBilledInFull(t, r);
  }

  lemma LaterRecord(s: State, t: State, r: int)
    requires Later(s, t) && r in s.records
    ensures r in t.records && RecordLater(s.records[r], t.records[r])
  {
  }

  lemma ScheduleOfCount(plan: Plan, x: Record)
    requires CountOk(plan, x) && x.count.Some?
    ensures InstallmentSchedule(plan, x.final, x.month, x.count).Ok?
  {
    hide ParseMonth, SeasonStartYear, CalendarYearCount, InstallmentSchedule, Open;
    CappedScheduleStaysInYear(plan, x.final, x.month);
  }

  // ---- a season billed ----

  /** Create, set up, sign, draft, confirm and push. */
  function BillingPath(m: int, a: int, p: int, month: string, r: int, today: Day, now: int): seq<Step> {
    DraftPath(m, a, p, month, r, today, now) + [OnBilling(Confirm(r)), OnInvoice(Push(r, HEALTHY_PUSH))]
  }

  /** From fresh tables, for every member and every plan and month that setting up
      accepts: the six steps succeed and end in a synced record of the plan's season,
      for the full partial-year price, with exactly that price at the provider. */
  lemma EveryAcceptedSetupCanBeBilled(s: State, m: int, a: int, p: int, month: string, r: int, today: Day, now: int)
    requires Accepted(s, m, p, month, today)
    ensures var t := Run(s, BillingPath(m, a, p, month, r, today, now));
            var plan := s.plans[p];
            var n := A.SetupMonth(plan, month, today).value;
            && r in t.records && t.records[r].member == m && t.records[r].season == plan.season
            && t.records[r].sync == Synced && t.records[r].percent == 0
            && CalendarYearCount(plan, n).Ok?
            && RemoteTotal(t.remote.invoices, r) == t.records[r].final == PartialBase(plan.annual, plan.installmentCount, CalendarYearCount(plan, n).value)
  {
    hide Inv, RemoteInv, After, A.SetupMonth, MonthOk, CalendarYearCount, PartialBase, Run, Locked, DraftPath;
    var n := A.SetupMonth(s.plans[p], month, today).value;
    var path := DraftPath(m, a, p, month, r, today, now);
    EveryAcceptedSetupIsDrafted(s, m, a, p, month, r, today, now);
    var s4 := Drafted(s, m, a, p, n, r, now);
    EveryRunKeepsRemote(s, path);
    RunConcat(s, path, [OnBilling(Confirm(r)), OnInvoice(Push(r, HEALTHY_PUSH))]);
    RunTwo(s4, OnBilling(Confirm(r)), OnInvoice(Push(r, HEALTHY_PUSH)));
    var s5 := After(s4, OnBilling(Confirm(r)));
    StepKeepsInv(s4, OnBilling(Confirm(r)));
    ConfirmedIs(s4, r);
    StillNoRemote(s5);
    Pushed(s5, r);
    PushIs(s5, r);
    FinalOf(s5, r, s.plans[p], CalendarYearCount(s.plans[p], n).value);
    KeptByPush(s5, r);
  }

  /** Before any push the provider is as it was: empty. */
  lemma StillNoRemote(s: State)
    requires s.remote == Remote([], []) && s.clientIds == map[] && forall r :: r in s.records ==> s.records[r].rows == []
    ensures RemoteInv(s)
  {
  }

  lemma ConfirmedIs(s: State, r: int)
    requires r in s.records && s.records[r].status == RecordStatus.Draft
    ensures After(s, OnBilling(Confirm(r))) == s.(records := s.records[r := s.records[r].(status := Confirmed)])
  {
  }

  lemma PushIs(s: State, r: int)
    ensures After(s, OnInvoice(Push(r, HEALTHY_PUSH))) == I.Push(s, r, HEALTHY_PUSH)
  {
    hide I.Push;
  }

  lemma NoDiscount(base: int)
    ensures B.Net(base, 0) == base
  {
    RoundExact(0, 100);
  }

  lemma FinalOf(s: State, r: int, plan: Plan, count: int)
    requires r in s.records && s.records[r].final == B.Net(B.BaseFor(plan, Some(count)), 0)
    ensures s.records[r].final == PartialBase(plan.annual, plan.installmentCount, count)
  {
    hide PartialBase;
    NoDiscount(PartialBase(plan.annual, plan.installmentCount, count));
  }

  lemma KeptByPush(s: State, r: int)
    requires Inv(s) && r in s.records
    ensures var t := I.Push(s, r, HEALTHY_PUSH);
            r in t.records && t.records[r].member == s.records[r].member && t.records[r].percent == s.records[r].percent
  {
    hide Inv, I.Push;
    StepKeepsInv(s, OnInvoice(Push(r, HEALTHY_PUSH)));
    LaterRecord(s, After(s, OnInvoice(Push(r, HEALTHY_PUSH))), r);
  }
}
