/** What holds of every agreement in every run, and what no later step changes. */
module AgreementLife {
  import opened Wrappers
  import opened Calendar
  import opened Schedule
  import opened Domain
  import B = BillingSteps
  import opened RecordLife
  import A = AgreementSteps
  import opened Machine

  /** Plan and month go together, and a month is a billing month of the plan's year. */
  predicate SetupOk(plans: map<int, Plan>, plan: Option<int>, month: string) {
    && (plan.None? ==> month == "")
    && (plan.Some? ==> plan.value in plans && (month != "" ==> MonthOk(plans[plan.value], month)))
  }

  predicate LifeOk(x: Agreement) {
    && (!x.isCurrent ==> x.state in {Void, Superseded})
    && (x.isCurrent ==> x.state != Superseded)
    && (x.state in {Generated, Sent} ==> x.signedAt.None?)
    && (x.state in {Signed, Superseded, Discontinued} ==> x.signedAt.Some?)
  }

  predicate AgreementOk(plans: map<int, Plan>, x: Agreement) {
    LifeOk(x) && SetupOk(plans, x.plan, x.month)
  }

  /** A void stays void, an archived row archived, a signature is never re-dated, and
      what was signed can only be superseded, discontinued or voided. */
  predicate AgreementLater(x: Agreement, y: Agreement) {
    && y.member == x.member
    && (x.signedAt.Some? ==> y.signedAt == x.signedAt)
    && (!x.isCurrent ==> !y.isCurrent)
    && (x.state == Void ==> y.state == Void)
    && (x.state in {Superseded, Discontinued} ==> y.state in {x.state, Void})
    && (x.state == Signed ==> y.state !in {Generated, Sent})
  }

  ghost predicate AgreementsOk(plans: map<int, Plan>, agreements: map<int, Agreement>) {
    OneCurrent(agreements) && forall a :: a in agreements ==> AgreementOk(plans, agreements[a])
  }

  ghost predicate AgreementsLater(x: map<int, Agreement>, y: map<int, Agreement>) {
    forall a :: a in x ==> a in y && AgreementLater(x[a], y[a])
  }

  ghost predicate HasCurrent(agreements: map<int, Agreement>, m: int) {
    exists a :: IsCurrent(agreements, m, a)
  }

  ghost predicate KeepsCurrent(x: map<int, Agreement>, y: map<int, Agreement>) {
    forall m :: HasCurrent(x, m) ==> HasCurrent(y, m)
  }

  ghost predicate AgreementsGrow(plans: map<int, Plan>, x: map<int, Agreement>, y: map<int, Agreement>) {
    AgreementsOk(plans, y) && AgreementsLater(x, y) && KeepsCurrent(x, y)
  }

  lemma SameAgreements(plans: map<int, Plan>, x: map<int, Agreement>)
    requires AgreementsOk(plans, x)
    ensures AgreementsGrow(plans, x, x)
  {
    hide AgreementOk, OneCurrent;
  }

  /** A row rewritten in place, still its member's current row if it was. */
  lemma RewriteGrows(plans: map<int, Plan>, x: map<int, Agreement>, a: int, y: Agreement)
    requires AgreementsOk(plans, x) && a in x && AgreementOk(plans, y) && AgreementLater(x[a], y)
    requires y.isCurrent == x[a].isCurrent
    ensures AgreementsGrow(plans, x, x[a := y])
  {
    hide AgreementOk;
    var t := x[a := y];
    assert forall m, b :: IsCurrent(t, m, b) <==> IsCurrent(x, m, b);
    forall m | HasCurrent(x, m) ensures HasCurrent(t, m) {
      var b :| IsCurrent(x, m, b);
      assert IsCurrent(t, m, b);
    }
    assert forall b :: b in x ==> AgreementLater(x[b], x[b]);
  }

  /** The member's current row, if any, is archived and a new one takes its place. */
  lemma ReplaceGrows(plans: map<int, Plan>, x: map<int, Agreement>, former: Option<int>, y: Agreement, b: int, z: Agreement)
    requires AgreementsOk(plans, x) && b !in x && AgreementOk(plans, z) && z.isCurrent
    requires former.None? ==> forall a :: !IsCurrent(x, z.member, a)
    requires former.Some? ==> former.value in x && IsCurrent(x, z.member, former.value)
    requires former.Some? ==> !y.isCurrent && AgreementOk(plans, y) && AgreementLater(x[former.value], y)
    ensures AgreementsGrow(plans, x, (if former.Some? then x[former.value := y] else x)[b := z])
  {
    hide AgreementOk;
    var t := (if former.Some? then x[former.value := y] else x)[b := z];
    forall m, c | IsCurrent(t, m, c) ensures if m == z.member then c == b else IsCurrent(x, m, c) {
      if c != b {
        assert IsCurrent(x, m, c);
        assert former.Some? ==> c != former.value;
      }
    }
    forall m | HasCurrent(x, m) ensures HasCurrent(t, m) {
      var c :| IsCurrent(x, m, c);
      assert IsCurrent(t, m, if m == z.member then b else c);
    }
    forall a | a in x ensures a in t && AgreementLater(x[a], t[a]) {
    }
  }

  // ---- the steps ----

  lemma DefaultSetupOk(s: State, today: Day)
    ensures SetupOk(s.plans, A.DefaultSetup(s, today).0, A.DefaultSetup(s, today).1)
  {
    hide MonthOk, NormalizeMonth, B.MonthYear, SeasonStartYear, DeriveFirstBillingMonth;
    if s.defaultPlan.Some? && s.defaultPlan.value in s.plans {
      var plan := s.plans[s.defaultPlan.value];
      var n := NormalizeMonth(plan, DeriveFirstBillingMonth(plan, today));
      if n.Ok? && SeasonStartYear(plan.season).Ok? && B.MonthYear(n.value) == Some(SeasonStartYear(plan.season).value) {
        NormalizedInYear(plan, DeriveFirstBillingMonth(plan, today));
      }
    }
  }

  lemma CreateGrows(s: State, m: int, a: int, today: Day)
    requires AgreementsOk(s.plans, s.agreements) && A.CreateAgreement(s, m, a, today).Ok?
    ensures AgreementsGrow(s.plans, s.agreements, A.CreateAgreement(s, m, a, today).value.agreements)
  {
    hide MonthOk, A.DefaultSetup, SetupOk, CurrentOf, AgreementsGrow;
    SameAgreements(s.plans, s.agreements);
    DefaultSetupOk(s, today);
    var current := CurrentOf(s.agreements, m);
    if !(current.Some? && s.agreements[current.value].state != Void) {
      var (plan, month) := A.DefaultSetup(s, today);
      var archived := if current.None? then None else Some(s.agreements[current.value].(isCurrent := false));
      ReplaceGrows(s.plans, s.agreements, current,
                   if current.Some? then s.agreements[current.value].(isCurrent := false) else Agreement(m, false, Void, None, "", None),
                   a, Agreement(m, true, Generated, plan, month, None));
    }
  }

  lemma SetupGrows(s: State, a: int, p: int, month: string, today: Day)
    requires AgreementsOk(s.plans, s.agreements) && A.SetBillingSetup(s, a, p, month, today).Ok?
    ensures AgreementsGrow(s.plans, s.agreements, A.SetBillingSetup(s, a, p, month, today).value.agreements)
  {
    hide MonthOk, NormalizeMonth, B.MonthYear, SeasonStartYear, DeriveFirstBillingMonth, AgreementsGrow, OneCurrent, CalendarYearCount;
    NormalizedInYear(s.plans[p], month);
    RewriteGrows(s.plans, s.agreements, a, A.SetBillingSetup(s, a, p, month, today).value.agreements[a]);
  }

  lemma MarkSentGrows(s: State, a: int)
    requires AgreementsOk(s.plans, s.agreements) && A.MarkSent(s, a).Ok?
    ensures AgreementsGrow(s.plans, s.agreements, A.MarkSent(s, a).value.agreements)
  {
    hide SetupOk, AgreementsGrow, OneCurrent;
    RewriteGrows(s.plans, s.agreements, a, s.agreements[a].(state := Sent));
  }

  lemma SignGrows(s: State, a: int, now: int)
    requires AgreementsOk(s.plans, s.agreements) && A.Sign(s, a, now).Ok?
    ensures AgreementsGrow(s.plans, s.agreements, A.Sign(s, a, now).value.agreements)
  {
    hide SetupOk, AgreementsGrow, OneCurrent, NormalizeMonth, B.MonthYear, SeasonStartYear;
    RewriteGrows(s.plans, s.agreements, a, s.agreements[a].(state := Signed, signedAt := Some(now)));
  }

  lemma VoidGrows(s: State, a: int)
    requires AgreementsOk(s.plans, s.agreements) && A.VoidAgreement(s, a).Ok?
    ensures AgreementsGrow(s.plans, s.agreements, A.VoidAgreement(s, a).value.agreements)
  {
    hide SetupOk, AgreementsGrow, OneCurrent;
    SameAgreements(s.plans, s.agreements);
    RewriteGrows(s.plans, s.agreements, a, s.agreements[a].(state := Void));
  }

  lemma AmendGrows(s: State, a: int, b: int)
    requires AgreementsOk(s.plans, s.agreements) && A.Amend(s, a, b).Ok?
    ensures AgreementsGrow(s.plans, s.agreements, A.Amend(s, a, b).value.agreements)
  {
    hide SetupOk, AgreementsGrow, OneCurrent;
    var x := s.agreements[a];
    assert IsCurrent(s.agreements, x.member, a);
    ReplaceGrows(s.plans, s.agreements, Some(a), x.(state := Superseded, isCurrent := false),
                 b, Agreement(x.member, true, Generated, x.plan, x.month, None));
  }

  lemma DiscontinueGrows(s: State, a: int, leavesOn: Date, ids: seq<A.InvoiceId>, now: int)
    requires AgreementsOk(s.plans, s.agreements) && A.Discontinue(s, a, leavesOn, ids, now).Ok?
    ensures AgreementsGrow(s.plans, s.agreements, A.Discontinue(s, a, leavesOn, ids, now).value.agreements)
  {
    hide SetupOk, AgreementsGrow, OneCurrent, A.CancelSelection;
    RewriteGrows(s.plans, s.agreements, a, s.agreements[a].(state := Discontinued));
  }

  /** What the checks of a reassignment establish about its month and count. */
  lemma ReassignedMonthOk(plan: Plan, month: string, today: Day)
    requires B.ReassignedMonth(plan, month, today).Ok?
    ensures var (n, count) := B.ReassignedMonth(plan, month, today).value;
            if month == "" then n == "" && count == None
            else MonthOk(plan, n) && count.Some? && CalendarYearCount(plan, n).Ok? && CalendarYearCount(plan, n).value == count.value
  {
    hide MonthOk, NormalizeMonth, B.MonthYear, SeasonStartYear, DeriveFirstBillingMonth, CalendarYearCount;
    if month != "" {
      NormalizedInYear(plan, month);
    }
  }

  lemma ReassignKeepsAgreements(s: State, r: int, p: int, month: string, today: Day)
    requires AgreementsOk(s.plans, s.agreements) && B.Reassign(s, r, p, month, today).Ok?
    ensures AgreementsGrow(s.plans, s.agreements, B.Reassign(s, r, p, month, today).value.agreements)
  {
    hide MonthOk, B.ReassignedMonth, AgreementsGrow, OneCurrent, B.Reassigned, B.PushedOrSent;
    SameAgreements(s.plans, s.agreements);
    ReassignedMonthOk(s.plans[p], month, today);
    var x := s.records[r];
    if x.agreement.Some? && x.agreement.value in s.agreements {
      RewriteGrows(s.plans, s.agreements, x.agreement.value, B.Reassign(s, r, p, month, today).value.agreements[x.agreement.value]);
    }
  }

  /** Every step keeps one current agreement per member, every non-current one void
      or superseded, and every stored month a billing month of its plan's year. */
  lemma StepKeepsAgreements(s: State, step: Step)
    requires AgreementsOk(s.plans, s.agreements)
    ensures AgreementsGrow(s.plans, s.agreements, After(s, step).agreements)
  {
    hide AgreementsOk, AgreementsGrow, DoAgreement, DoBilling, DoInvoice;
    SameAgreements(s.plans, s.agreements);
    if Do(s, step).Ok? {
      match step
      case OnAgreement(x) => AgreementStepGrows(s, x);
      case OnInvoice(x) => InvoiceFrame(s, x);
      case OnBilling(x) => BillingStepGrows(s, x);
    }
  }

  lemma BillingStepGrows(s: State, step: BillingStep)
    requires AgreementsOk(s.plans, s.agreements) && DoBilling(s, step).Ok?
    ensures AgreementsGrow(s.plans, s.agreements, DoBilling(s, step).value.agreements)
  {
    hide AgreementsOk, AgreementsGrow, B.Reassign, DoBilling;
    SameAgreements(s.plans, s.agreements);
    if step.Reassign? {
      ReassignStepGrows(s, step);
    } else {
      BillingFrame(s, step);
    }
  }

  lemma ReassignStepGrows(s: State, step: BillingStep)
    requires AgreementsOk(s.plans, s.agreements) && step.Reassign? && DoBilling(s, step).Ok?
    ensures AgreementsGrow(s.plans, s.agreements, DoBilling(s, step).value.agreements)
  {
    hide AgreementsOk, AgreementsGrow, B.Reassign;
    ReassignKeepsAgreements(s, step.r, step.p, step.month, step.today);
  }

  lemma AgreementStepGrows(s: State, step: AgreementStep)
    requires AgreementsOk(s.plans, s.agreements) && DoAgreement(s, step).Ok?
    ensures AgreementsGrow(s.plans, s.agreements, DoAgreement(s, step).value.agreements)
  {
    hide AgreementsOk, AgreementsGrow, A.CreateAgreement, A.SetBillingSetup, A.MarkSent, A.Sign, A.VoidAgreement, A.Amend, A.Discontinue;
    hide A.DefaultSetup;
    match step
    case CreateAgreement(m, a, today) => CreateGrows(s, m, a, today);
    case Regenerate(m, a, today) => CreateGrows(s, m, a, today);
    case SetBillingSetup(a, p, month, today) => SetupGrows(s, a, p, month, today);
    case MarkSent(a) => MarkSentGrows(s, a);
    case Sign(a, now) => SignGrows(s, a, now);
    case VoidAgreement(a) => VoidGrows(s, a);
    case Amend(a, b) => AmendGrows(s, a, b);
    case Discontinue(a, leavesOn, ids, now) => DiscontinueGrows(s, a, leavesOn, ids, now);
  }
}
