/** The family tier is decided at signing: no interleaving of siblings' signings and
    draft creations changes the discount a record snapshots. */
module Families {
  import opened Wrappers
  import opened Keys
  import opened Money
  import opened Calendar
  import opened Schedule
  import opened Domain
  import opened Tier
  import opened RecordLife
  import opened AgreementLife
  import opened RecordRuns
  import opened Links
  import opened Runs
  import A = AgreementSteps
  import B = BillingSteps
  import opened Machine

  predicate IsSigned(x: Agreement) {
    x.isCurrent && x.state == Signed
  }

  /** A row of one of the guardian's children. */
  predicate OfFamily(s: State, g: int, b: int) {
    b in s.agreements && s.agreements[b].member in s.members && s.members[s.agreements[b].member].guardian == g
  }

  predicate SignedOf(s: State, g: int, b: int) {
    OfFamily(s, g, b) && IsSigned(s.agreements[b])
  }

  /** A child that has left by a date: on its leaving date, or at once without one. */
  predicate HasLeft(x: Member, on: Date) {
    if x.leavesOn.Some? then x.leavesOn.value.Key() <= on.Key() else x.discontinued
  }

  /** The signed children of a family that are still there at a date. */
  predicate Counted(s: State, g: int, on: Date, b: int) {
    SignedOf(s, g, b) && !HasLeft(s.members[s.agreements[b].member], on)
  }

  predicate OfSeason(s: State, season: string, b: int) {
    b in s.agreements && s.agreements[b].plan.Some? && s.agreements[b].plan.value in s.plans
    && s.plans[s.agreements[b].plan.value].season == season
  }

  /** Every signature of the family so far is older than `now`. */
  ghost predicate SignedBefore(s: State, g: int, now: int) {
    forall b :: OfFamily(s, g, b) && s.agreements[b].signedAt.Some? ==> s.agreements[b].signedAt.value < now
  }

  ghost predicate SameChildren(x: map<int, Member>, y: map<int, Member>, g: int) {
    && (forall m :: m in x && x[m].guardian == g ==> m in y && y[m] == x[m])
    && (forall m :: m in y && y[m].guardian == g ==> m in x && x[m].guardian == g)
  }

  /** From `s` to `t` no signed row of the family was lost or changed, whoever of the
      family signed since did so after `now`, and none of the children left. */
  ghost predicate FamilyGrows(s: State, t: State, g: int, now: int) {
    && (forall b :: SignedOf(s, g, b) ==> b in t.agreements && t.agreements[b] == s.agreements[b])
    && (forall b :: SignedOf(t, g, b) ==>
          || (b in s.agreements && s.agreements[b] == t.agreements[b])
          || (t.agreements[b].signedAt.Some? && t.agreements[b].signedAt.value > now))
    && SameChildren(s.members, t.members, g) && PlansLater(s.plans, t.plans)
  }

  /** A step that takes a signed row of the family away: voiding, amending or
      discontinuing it, or moving the record linked to it to another plan. Everything
      else may happen, in the family and in every other. */
  predicate Disturbs(s: State, step: Step, g: int) {
    match step
    case OnAgreement(VoidAgreement(a)) => OfFamily(s, g, a) && s.agreements[a].state == Signed
    case OnAgreement(Amend(a, _)) => OfFamily(s, g, a)
    case OnAgreement(Discontinue(a, _, _, _)) => OfFamily(s, g, a)
    case OnBilling(Reassign(r, _, _, _)) =>
      r in s.records && s.records[r].agreement.Some? && SignedOf(s, g, s.records[r].agreement.value)
    case _ => false
  }

  predicate SignsAfter(s: State, step: Step, g: int, now: int) {
    step.OnAgreement? && step.agreement.Sign? && OfFamily(s, g, step.agreement.a) ==> step.agreement.now > now
  }

  predicate SignsBefore(s: State, step: Step, g: int, now: int) {
    step.OnAgreement? && step.agreement.Sign? && OfFamily(s, g, step.agreement.a) ==> step.agreement.now < now
  }

  // ---- steps ----

  lemma FamilyReflexive(s: State, g: int, now: int)
    ensures FamilyGrows(s, s, g, now)
  {
  }

  lemma FamilyTransitive(s: State, t: State, u: State, g: int, now: int)
    requires FamilyGrows(s, t, g, now) && FamilyGrows(t, u, g, now)
    ensures FamilyGrows(s, u, g, now)
  {
    hide PlansLater;
    PlansLaterTransitive(s.plans, t.plans, u.plans);
    forall b | SignedOf(s, g, b) ensures b in u.agreements && u.agreements[b] == s.agreements[b] {
      assert SignedOf(t, g, b);
    }
    forall b | SignedOf(u, g, b)
      ensures (b in s.agreements && s.agreements[b] == u.agreements[b]) || (u.agreements[b].signedAt.Some? && u.agreements[b].signedAt.value > now)
    {
      assert b in t.agreements && t.agreements[b] == u.agreements[b] ==> SignedOf(t, g, b);
    }
  }

  lemma PlansLaterTransitive(x: map<int, Plan>, y: map<int, Plan>, z: map<int, Plan>)
    requires PlansLater(x, y) && PlansLater(y, z)
    ensures PlansLater(x, z)
  {
  }

  lemma SameAgreementsGrow(s: State, t: State, g: int, now: int)
    requires t.agreements == s.agreements && t.members == s.members && PlansLater(s.plans, t.plans)
    ensures FamilyGrows(s, t, g, now)
  {
    hide PlansLater;
  }

  /** One row written, or added: fine unless it is a signed one of the family, or
      becomes one too early. */
  lemma WrittenRowGrows(s: State, t: State, g: int, now: int, a: int)
    requires t.members == s.members && t.plans == s.plans && a in t.agreements && t.agreements == s.agreements[a := t.agreements[a]]
    requires !SignedOf(s, g, a)
    requires SignedOf(t, g, a) ==> t.agreements[a].signedAt.Some? && t.agreements[a].signedAt.value > now
    ensures FamilyGrows(s, t, g, now)
  {
    hide PlansLater;
    SamePlans(s.plans);
  }

  lemma CreateGrowsFamily(s: State, m: int, a: int, today: Day, g: int, now: int)
    requires A.CreateAgreement(s, m, a, today).Ok?
    ensures FamilyGrows(s, A.CreateAgreement(s, m, a, today).value, g, now)
  {
    hide A.DefaultSetup, PlansLater;
    SamePlans(s.plans);
    var current := CurrentOf(s.agreements, m);
    assert current.Some? ==> IsCurrent(s.agreements, m, current.value);
  }

  lemma DiscontinueGrowsFamily(s: State, a: int, leavesOn: Date, ids: seq<A.InvoiceId>, at: int, g: int, now: int)
    requires A.Discontinue(s, a, leavesOn, ids, at).Ok? && !OfFamily(s, g, a)
    ensures FamilyGrows(s, A.Discontinue(s, a, leavesOn, ids, at).value, g, now)
  {
    hide A.CancelSelection, PlansLater;
    SamePlans(s.plans);
    var t := A.Discontinue(s, a, leavesOn, ids, at).value;
    assert t.members == s.members[s.agreements[a].member := t.members[s.agreements[a].member]];
    assert forall b :: OfFamily(s, g, b) <==> OfFamily(t, g, b);
  }

  lemma AmendGrowsFamily(s: State, a: int, b: int, g: int, now: int)
    requires A.Amend(s, a, b).Ok? && !OfFamily(s, g, a)
    ensures FamilyGrows(s, A.Amend(s, a, b).value, g, now)
  {
    hide PlansLater;
    SamePlans(s.plans);
  }

  lemma AgreementStepGrowsFamily(s: State, step: AgreementStep, g: int, now: int)
    requires DoAgreement(s, step).Ok? && !Disturbs(s, OnAgreement(step), g) && SignsAfter(s, OnAgreement(step), g, now)
    ensures FamilyGrows(s, DoAgreement(s, step).value, g, now)
  {
    hide A.CreateAgreement, A.Amend, A.Discontinue, A.SetupMonth, Schedule.NormalizeMonth, SeasonStartYear, B.MonthYear, FamilyGrows;
    var t := DoAgreement(s, step).value;
    FamilyReflexive(s, g, now);
    match step
    case CreateAgreement(m, a, today) => CreateGrowsFamily(s, m, a, today, g, now);
    case Regenerate(m, a, today) => CreateGrowsFamily(s, m, a, today, g, now);
    case Amend(a, b) => AmendGrowsFamily(s, a, b, g, now);
    case Discontinue(a, leavesOn, ids, at) => DiscontinueGrowsFamily(s, a, leavesOn, ids, at, g, now);
    case SetBillingSetup(a, _, _, _) => WrittenRowGrows(s, t, g, now, a);
    case MarkSent(a) => WrittenRowGrows(s, t, g, now, a);
    case Sign(a, _) => WrittenRowGrows(s, t, g, now, a);
    case VoidAgreement(a) =>
      if t != s {
        WrittenRowGrows(s, t, g, now, a);
      }
  }

  lemma ReassignGrowsFamily(s: State, r: int, p: int, month: string, today: Day, g: int, now: int)
    requires B.Reassign(s, r, p, month, today).Ok? && !Disturbs(s, OnBilling(Reassign(r, p, month, today)), g)
    ensures FamilyGrows(s, B.Reassign(s, r, p, month, today).value, g, now)
  {
    hide B.ReassignedMonth, B.PushedOrSent, B.Reassigned, FamilyGrows, PlansLater;
    var t := B.Reassign(s, r, p, month, today).value;
    var x := s.records[r];
    if x.agreement.Some? && x.agreement.value in s.agreements {
      WrittenRowGrows(s, t, g, now, x.agreement.value);
    } else {
      SamePlans(s.plans);
      SameAgreementsGrow(s, t, g, now);
    }
  }

  lemma BillingStepGrowsFamily(s: State, step: BillingStep, g: int, now: int)
    requires DoBilling(s, step).Ok? && !Disturbs(s, OnBilling(step), g)
    ensures FamilyGrows(s, DoBilling(s, step).value, g, now)
  {
    hide FamilyGrows, PlansLater, DoBilling;
    BillingFrame(s, step);
    SamePlans(s.plans);
    if step.Reassign? {
      ReassignStepGrowsFamily(s, step, g, now);
    } else {
      if step.EditPlan? { PriceEdit(s, step); }
      SameAgreementsGrow(s, DoBilling(s, step).value, g, now);
    }
  }

  lemma ReassignStepGrowsFamily(s: State, step: BillingStep, g: int, now: int)
    requires step.Reassign? && DoBilling(s, step).Ok? && !Disturbs(s, OnBilling(step), g)
    ensures FamilyGrows(s, DoBilling(s, step).value, g, now)
  {
    hide FamilyGrows, B.Reassign;
    ReassignGrowsFamily(s, step.r, step.p, step.month, step.today, g, now);
  }

  lemma StepGrowsFamily(s: State, step: Step, g: int, now: int)
    requires !Disturbs(s, step, g) && SignsAfter(s, step, g, now)
    ensures FamilyGrows(s, After(s, step), g, now)
  {
    hide DoAgreement, DoBilling, DoInvoice, PlansLater, FamilyGrows, SignsAfter, Disturbs;
    FamilyReflexive(s, g, now);
    SamePlans(s.plans);
    if Do(s, step).Ok? {
      match step
      case OnAgreement(x) => AgreementStepGrowsFamily(s, x, g, now);
      case OnBilling(x) => BillingStepGrowsFamily(s, x, g, now);
      case OnInvoice(x) =>
        InvoiceFrame(s, x);
        SameAgreementsGrow(s, After(s, step), g, now);
    }
  }

  lemma PriceEdit(s: State, step: BillingStep)
    requires step.EditPlan? && DoBilling(s, step).Ok?
    ensures PlansLater(s.plans, DoBilling(s, step).value.plans)
  {
  }

  /** A run that leaves the family's signed rows alone and signs further ones later. */
  ghost predicate FamilyRun(s: State, steps: seq<Step>, g: int, now: int) {
    steps != [] ==>
      var init, last := steps[..|steps| - 1], steps[|steps| - 1];
      FamilyRun(s, init, g, now) && !Disturbs(Run(s, init), last, g) && SignsAfter(Run(s, init), last, g, now)
  }

  lemma {:induction false} RunGrowsFamily(s: State, steps: seq<Step>, g: int, now: int)
    requires FamilyRun(s, steps, g, now)
    ensures FamilyGrows(s, Run(s, steps), g, now)
  {
    hide After, FamilyGrows, Disturbs, SignsAfter;
    if steps == [] {
      FamilyReflexive(s, g, now);
    } else {
      var init, step := steps[..|steps| - 1], steps[|steps| - 1];
      RunGrowsFamily(s, init, g, now);
      StepGrowsFamily(Run(s, init), step, g, now);
      FamilyTransitive(s, Run(s, init), Run(s, steps), g, now);
    }
  }

  // ---- the clock ----

  lemma StepSignTimes(s: State, step: Step, g: int, now: int)
    requires SignedBefore(s, g, now) && SignsBefore(s, step, g, now) && AgreementsHaveMembers(s)
    ensures SignedBefore(After(s, step), g, now)
  {
    hide DoAgreement, DoBilling, DoInvoice, SignedBefore, SignsBefore, AgreementsHaveMembers;
    if Do(s, step).Ok? {
      match step
      case OnAgreement(x) => AgreementSignTimes(s, x, g, now);
      case OnBilling(x) =>
        BillingFrame(s, x);
        if x.Reassign? { ReassignSignTimes(s, x, g, now); } else { SameSignTimes(s, After(s, step), g, now); }
      case OnInvoice(x) =>
        InvoiceFrame(s, x);
        SameSignTimes(s, After(s, step), g, now);
    }
  }

  lemma SameSignTimes(s: State, t: State, g: int, now: int)
    requires SignedBefore(s, g, now) && t.agreements == s.agreements && t.members == s.members
    ensures SignedBefore(t, g, now)
  {
    assert forall b :: OfFamily(t, g, b) <==> OfFamily(s, g, b);
  }

  lemma AgreementSignTimes(s: State, step: AgreementStep, g: int, now: int)
    requires DoAgreement(s, step).Ok? && SignedBefore(s, g, now) && SignsBefore(s, OnAgreement(step), g, now) && AgreementsHaveMembers(s)
    ensures SignedBefore(DoAgreement(s, step).value, g, now)
  {
    hide SignedBefore, A.DefaultSetup, CurrentOf, A.SetupMonth, Schedule.NormalizeMonth, SeasonStartYear, B.MonthYear, A.CancelSelection;
    var t := DoAgreement(s, step).value;
    forall b | OfFamily(t, g, b) && t.agreements[b].signedAt.Some? ensures t.agreements[b].signedAt.value < now {
      if b in s.agreements && s.agreements[b].signedAt == t.agreements[b].signedAt {
        assert OfFamily(s, g, b);
        EarlierThan(s, g, now, b);
      }
    }
    AllEarlier(t, g, now);
  }

  lemma EarlierThan(s: State, g: int, now: int, b: int)
    requires SignedBefore(s, g, now) && OfFamily(s, g, b) && s.agreements[b].signedAt.Some?
    ensures s.agreements[b].signedAt.value < now
  {
  }

  lemma AllEarlier(s: State, g: int, now: int)
    requires forall b :: OfFamily(s, g, b) && s.agreements[b].signedAt.Some? ==> s.agreements[b].signedAt.value < now
    ensures SignedBefore(s, g, now)
  {
  }

  lemma ReassignSignTimes(s: State, step: BillingStep, g: int, now: int)
    requires step.Reassign? && DoBilling(s, step).Ok? && SignedBefore(s, g, now)
    ensures SignedBefore(DoBilling(s, step).value, g, now)
  {
    hide B.ReassignedMonth, B.PushedOrSent, B.Reassigned;
    var t := DoBilling(s, step).value;
    assert forall b :: OfFamily(t, g, b) ==> OfFamily(s, g, b) && t.agreements[b].signedAt == s.agreements[b].signedAt;
  }

  /** A run in which the family signs only before `now`. */
  ghost predicate SignedEarlier(s: State, steps: seq<Step>, g: int, now: int) {
    steps != [] ==>
      var init, last := steps[..|steps| - 1], steps[|steps| - 1];
      SignedEarlier(s, init, g, now) && SignsBefore(Run(s, init), last, g, now)
  }

  lemma {:induction false} RunSignTimes(s: State, steps: seq<Step>, g: int, now: int)
    requires SignedBefore(s, g, now) && SignedEarlier(s, steps, g, now) && Inv(s) && Locked(s, steps)
    ensures SignedBefore(Run(s, steps), g, now)
  {
    hide After, SignedBefore, SignsBefore, Inv, Unlocks;
    if steps != [] {
      var init := steps[..|steps| - 1];
      RunSignTimes(s, init, g, now);
      RunMovesForward(s, init);
      InvAgreements(Run(s, init));
      StepSignTimes(Run(s, init), steps[|steps| - 1], g, now);
    }
  }

  // ---- the rank ----

  lemma CandidateRow(s: State, guardian: int, season: string, due: Date, b: int)
    requires Candidate(s, guardian, Some(season), due, b)
    ensures SignedOf(s, guardian, b)
  {
  }

  /** A row that two states share is a candidate in both or in neither. */
  lemma SameCandidate(s: State, t: State, guardian: int, season: string, due: Date, b: int)
    requires b in s.agreements && b in t.agreements && s.agreements[b] == t.agreements[b]
    requires SameChildren(s.members, t.members, guardian) && PlansLater(s.plans, t.plans)
    ensures Candidate(s, guardian, Some(season), due, b) <==> Candidate(t, guardian, Some(season), due, b)
  {
    var x := s.agreements[b];
    if x.plan.Some? {
      var k := x.plan.value;
      assert k in s.plans ==> SameGeometry(s.plans[k], t.plans[k]);
    }
  }

  /** The rows ranked before a member are those of the siblings who had signed when
      the member signed. */
  lemma EarlierAreThoseAtSigning(s: State, t: State, u: State, a: int, now: int, guardian: int, season: string, due: Date)
    requires A.Sign(s, a, now) == Ok(t) && FamilyGrows(t, u, guardian, now)
    requires SignedBefore(s, guardian, now) && AgreementsOk(s.plans, s.agreements)
    requires SignedOf(t, guardian, a)
    ensures a in u.agreements && u.agreements[a] == t.agreements[a]
    ensures Earlier(u, guardian, Some(season), due, a) == Candidates(s, guardian, Some(season), due)
  {
    hide AgreementOk, OneCurrent, Candidate, SetupOk, Schedule.NormalizeMonth, SeasonStartYear, B.MonthYear, PlansLater, SameChildren;
    assert t.agreements == s.agreements[a := t.agreements[a]] && t.agreements[a].signedAt == Some(now);
    assert t.plans == s.plans && t.members == s.members;
    forall b ensures b in Earlier(u, guardian, Some(season), due, a) <==> b in Candidates(s, guardian, Some(season), due) {
      if b in Earlier(u, guardian, Some(season), due, a) {
        CandidateRow(u, guardian, season, due, b);
        EarlierWasThere(s, t, u, a, now, guardian, b);
        SameCandidate(s, u, guardian, season, due, b);
      }
      if b in Candidates(s, guardian, Some(season), due) {
        CandidateRow(s, guardian, season, due, b);
        SignatureKnown(s, b);
        assert b != a;
        assert SignedOf(t, guardian, b);
        SameCandidate(s, u, guardian, season, due, b);
      }
    }
    SetExt(Earlier(u, guardian, Some(season), due, a), Candidates(s, guardian, Some(season), due));
  }

  lemma SignatureKnown(s: State, b: int)
    requires AgreementsOk(s.plans, s.agreements) && b in s.agreements && IsSigned(s.agreements[b])
    ensures s.agreements[b].signedAt.Some?
  {
    assert AgreementOk(s.plans, s.agreements[b]);
  }

  lemma EarlierWasThere(s: State, t: State, u: State, a: int, now: int, g: int, b: int)
    requires a in s.agreements && a in t.agreements && t.agreements == s.agreements[a := t.agreements[a]] && t.agreements[a].signedAt == Some(now)
    requires FamilyGrows(t, u, g, now) && a in u.agreements && u.agreements[a] == t.agreements[a]
    requires SignedOf(u, g, b) && Before(u.agreements[b], u.agreements[a])
    ensures b in s.agreements && s.agreements[b] == u.agreements[b]
  {
  }

  /** The tier is the number of same-season siblings signed at the moment of signing,
      at most three. */
  lemma TierIsFixedAtSigning(s: State, t: State, u: State, a: int, now: int, season: string, due: Date)
    requires A.Sign(s, a, now) == Ok(t) && Inv(s) && OneCurrent(u.agreements) && t.agreements[a].isCurrent
    requires s.agreements[a].member in s.members
    requires var g := s.members[s.agreements[a].member].guardian; FamilyGrows(t, u, g, now) && SignedBefore(s, g, now)
    requires s.agreements[a].plan.Some? && s.agreements[a].plan.value in s.plans
    requires s.plans[s.agreements[a].plan.value].season == season
    ensures s.agreements[a].member in u.members
    ensures var m := s.agreements[a].member;
            FamilyTier(u, Some(season), due, m) ==
              if Excluded(s.members[m], due) then 0
              else Min(|Candidates(s, s.members[m].guardian, Some(season), due)|, MAX_TIER)
  {
    hide RecordsOk, OneRecordEach, AllLinked, AwaitingOk, AgreementOk, SetupOk, Schedule.NormalizeMonth, SeasonStartYear, B.MonthYear, PlansLater;
    hide Candidates, Earlier, Excluded;
    var m := s.agreements[a].member;
    var g := s.members[m].guardian;
    assert t.plans == s.plans && t.members == s.members;
    assert SignedOf(t, g, a);
    EarlierAreThoseAtSigning(s, t, u, a, now, g, season, due);
    OwnRow(s, u, a, m, season, due);
    if Excluded(s.members[m], due) {
      NoOwnRow(u, Some(season), due, m) by {
        NobodyElse(u, a, m, g, season, due);
      }
    } else {
      forall b | Own(u, Some(season), due, m, b) ensures b == a {
        OwnUnique(u, Some(season), due, m, a, b);
      }
    }
  }

  lemma OwnRow(s: State, u: State, a: int, m: int, season: string, due: Date)
    requires a in s.agreements && a in u.agreements && IsSigned(u.agreements[a])
    requires u.agreements[a].member == s.agreements[a].member == m && u.agreements[a].plan == s.agreements[a].plan
    requires m in s.members && m in u.members && u.members[m] == s.members[m] && PlansLater(s.plans, u.plans)
    requires s.agreements[a].plan.Some? && s.agreements[a].plan.value in s.plans && s.plans[s.agreements[a].plan.value].season == season
    ensures Own(u, Some(season), due, m, a) <==> !Excluded(s.members[m], due)
  {
    hide Excluded;
    var k := s.agreements[a].plan.value;
    assert SameGeometry(s.plans[k], u.plans[k]);
  }

  lemma NobodyElse(u: State, a: int, m: int, g: int, season: string, due: Date)
    requires OneCurrent(u.agreements) && a in u.agreements && u.agreements[a].isCurrent && u.agreements[a].member == m
    requires m in u.members && u.members[m].guardian == g && !Own(u, Some(season), due, m, a)
    ensures forall b :: b in Candidates(u, g, Some(season), due) ==> b in u.agreements && u.agreements[b].member != m
  {
    hide Excluded;
    forall b | b in Candidates(u, g, Some(season), due) ensures b in u.agreements && u.agreements[b].member != m {
      assert Candidate(u, g, Some(season), due, b);
      assert IsCurrent(u.agreements, m, a) && IsCurrent(u.agreements, u.agreements[b].member, b);
    }
  }

  /** Whoever leaves frees exactly one rank: of the siblings ranked before another
      member only the leaver goes. */
  lemma LeaverFreesItsRank(s: State, a: int, leavesOn: Date, ids: seq<A.InvoiceId>, now: int, b: int, season: Option<string>, due: Date)
    requires OneCurrent(s.agreements) && A.Discontinue(s, a, leavesOn, ids, now).Ok?
    requires s.agreements[a].isCurrent && b in s.agreements && b != a
    ensures var t := A.Discontinue(s, a, leavesOn, ids, now).value;
            var g := s.members[s.agreements[a].member].guardian;
            Earlier(t, g, season, due, b) == Earlier(s, g, season, due, b) - {a}
  {
    hide A.CancelSelection, Before;
    var t := A.Discontinue(s, a, leavesOn, ids, now).value;
    var m := s.agreements[a].member;
    var g := s.members[m].guardian;
    assert IsCurrent(s.agreements, m, a);
    forall c ensures c in Earlier(t, g, season, due, b) <==> c in Earlier(s, g, season, due, b) - {a} {
      assert IsCurrent(s.agreements, m, c) ==> c == a;
    }
    SetExt(Earlier(t, g, season, due, b), Earlier(s, g, season, due, b) - {a});
  }

  /** The leaver counts in the family's discounts exactly before its leaving date. */
  lemma LeaverLeavesOnTheDay(s: State, a: int, leavesOn: Date, ids: seq<A.InvoiceId>, now: int, due: Date)
    requires A.Discontinue(s, a, leavesOn, ids, now).Ok? && ValidDate(leavesOn) && ValidDate(due)
    ensures s.agreements[a].member in A.Discontinue(s, a, leavesOn, ids, now).value.members
    ensures Excluded(A.Discontinue(s, a, leavesOn, ids, now).value.members[s.agreements[a].member], due) <==>
              || leavesOn.year < due.year
              || (leavesOn.year == due.year && leavesOn.month < due.month)
              || (leavesOn.year == due.year && leavesOn.month == due.month && leavesOn.day <= due.day)
  {
    hide A.CancelSelection, MonthLength;
    DatesCompare(leavesOn, due);
  }

  /** A renewal ranks the family over all seasons, so its tier is never smaller than
      the tier within the season the member signed for. */
  lemma RenewalRanksNoLower(s: State, season: string, due: Date, m: int)
    requires OneCurrent(s.agreements) && m in s.members
    ensures FamilyTier(s, Some(season), due, m) <= FamilyTier(s, None, due, m)
  {
    hide Before;
    if a :| Own(s, Some(season), due, m, a) {
      assert Own(s, None, due, m, a);
      forall b | Own(s, Some(season), due, m, b) ensures b == a {
        OwnUnique(s, Some(season), due, m, a, b);
      }
      forall b | Own(s, None, due, m, b) ensures b == a {
        OwnUnique(s, None, due, m, a, b);
      }
      var g := s.members[m].guardian;
      var narrow, wide := Earlier(s, g, Some(season), due, a), Earlier(s, g, None, due, a);
      forall b | b in narrow ensures b in wide {
      }
      SubsetCount(narrow, wide);
    }
  }

  lemma {:induction false} SubsetCount(x: set<int>, y: set<int>)
    requires forall e :: e in x ==> e in y
    ensures |x| <= |y|
  {
    if x != {} {
      NonEmpty(x);
      var e :| e in x;
      SubsetCount(x - {e}, y - {e});
    }
  }

  // ---- the snapshot ----

  lemma {:induction false} RunConcat(s: State, x: seq<Step>, y: seq<Step>)
    ensures Run(s, x + y) == Run(Run(s, x), y)
  {
    hide After;
    if y == [] {
      assert x + y == x;
    } else {
      RunConcat(s, x, y[..|y| - 1]);
      assert (x + y)[..|x + y| - 1] == x + y[..|y| - 1];
    }
  }

  lemma DraftPercent(u: State, a: int, r: int)
    requires B.CreateDraft(u, a, r).Ok? && r !in u.records && r in B.CreateDraft(u, a, r).value.records
    ensures a in u.agreements && a in u.awaiting && u.agreements[a].member in u.members && u.awaiting[a].plan in u.plans
    ensures var m, intent := u.agreements[a].member, u.awaiting[a];
            var plan := u.plans[intent.plan];
            && B.FirstDue(plan, intent.month).Ok?
            && B.CreateDraft(u, a, r).value.records[r].percent == B.SnapshotPercent(u, Some(plan.season), B.FirstDue(plan, intent.month).value, m)
  {
    hide B.SnapshotPercent, B.FirstDue, B.BaseFor, HasRecord;
  }

  /** The captured intent of a signed agreement waits unchanged until its draft. */
  lemma StepKeepsIntent(s: State, step: Step, a: int)
    requires a in s.agreements && s.agreements[a].state == Signed
    ensures a in After(s, step).awaiting ==> a in s.awaiting && After(s, step).awaiting[a] == s.awaiting[a]
  {
    hide DoAgreement, DoBilling, DoInvoice;
    if Do(s, step).Ok? {
      match step
      case OnAgreement(x) =>
        AgreementFrame(s, x);
        if x.Sign? { SignKeepsOthers(s, x, a); }
      case OnBilling(x) =>
        BillingFrame(s, x);
        if x.CreateDraft? { DraftAwaiting(s, x); }
      case OnInvoice(x) => InvoiceFrame(s, x);
    }
  }

  lemma SignKeepsOthers(s: State, step: AgreementStep, a: int)
    requires step.Sign? && DoAgreement(s, step).Ok? && a in s.agreements && s.agreements[a].state == Signed
    ensures var t := DoAgreement(s, step).value;
            a in t.awaiting ==> a in s.awaiting && t.awaiting[a] == s.awaiting[a]
  {
    hide Schedule.NormalizeMonth, SeasonStartYear, B.MonthYear;
  }

  lemma {:induction false} RunKeepsIntent(t: State, steps: seq<Step>, a: int, g: int, now: int)
    requires SignedOf(t, g, a) && FamilyRun(t, steps, g, now)
    ensures a in Run(t, steps).awaiting ==> a in t.awaiting && Run(t, steps).awaiting[a] == t.awaiting[a]
  {
    hide After, Disturbs, SignsAfter;
    if steps != [] {
      var init := steps[..|steps| - 1];
      RunKeepsIntent(t, init, a, g, now);
      RunGrowsFamily(t, init, g, now);
      StepKeepsIntent(Run(t, init), steps[|steps| - 1], a);
    }
  }

  lemma {:induction false} LockedPrefix(s: State, x: seq<Step>, y: seq<Step>)
    requires Locked(s, x + y)
    ensures Locked(s, x)
  {
    hide Unlocks, Run;
    if y == [] {
      assert x + y == x;
    } else {
      assert (x + y)[..|x + y| - 1] == x + y[..|y| - 1];
      LockedPrefix(s, x, y[..|y| - 1]);
    }
  }

  /** In every run: if the guardian's children sign at increasing times and none of their
      signed rows is taken away between one child's signing and its draft, the draft
      snapshots the tier of the siblings signed before, or nothing for who opted out. The
      interleaving of their signings and drafts does not matter, nor anything that
      happens to other families or to rows not signed. */
  lemma EveryInterleavingSnapshotsTheSameTier(s0: State, before: seq<Step>, a: int, now: int, between: seq<Step>, r: int, g: int)
    requires Initial(s0) && Locked(s0, before + [OnAgreement(Sign(a, now))] + between)
    requires A.Sign(Run(s0, before), a, now).Ok? && OfFamily(Run(s0, before), g, a)
    requires SignedEarlier(s0, before, g, now) && FamilyRun(A.Sign(Run(s0, before), a, now).value, between, g, now)
    requires var u := Run(s0, before + [OnAgreement(Sign(a, now))] + between);
             r !in u.records && B.CreateDraft(u, a, r).Ok? && r in B.CreateDraft(u, a, r).value.records
    ensures var s := Run(s0, before);
            var u := Run(s0, before + [OnAgreement(Sign(a, now))] + between);
            var m, intent := s.agreements[a].member, A.SignGuard(s, a).value;
            && intent.plan in s.plans && B.FirstDue(s.plans[intent.plan], intent.month).Ok?
            && var due := B.FirstDue(s.plans[intent.plan], intent.month).value;
            var signed := set b | b in s.agreements && Counted(s, g, due, b) && OfSeason(s, s.plans[intent.plan].season, b);
            B.CreateDraft(u, a, r).value.records[r].percent ==
              if s.members[m].optedOut || HasLeft(s.members[m], due) || |signed| == 0 then 0
              else if |signed| == 1 then 50
              else if |signed| == 2 then 75
              else 100
  {
    hide Run, Locked, Initial, FamilyRun, SignedEarlier, Candidates, Excluded, B.FirstDue, B.CreateDraft, FamilyGrows, SignedBefore, Counted, OfSeason, HasLeft;
    hide Inv, A.Sign, AgreementsOk;
    var s := Run(s0, before);
    var sign := OnAgreement(Sign(a, now));
    var t := A.Sign(s, a, now).value;
    var u := Run(t, between);
    LockedPrefix(s0, before + [sign], between);
    LockedPrefix(s0, before, [sign]);
    InitialInv(s0);
    EveryRunIsConsistent(s0, before);
    EveryRunIsConsistent(s0, before + [sign] + between);
    NothingSignedYet(s0, g, now);
    RunSignTimes(s0, before, g, now);
    OneStep(s, sign, t);
    RunConcat(s0, before, [sign]);
    RunConcat(s0, before + [sign], between);
    RunGrowsFamily(t, between, g, now);
    InvAgreements(s);
    InvAgreements(u);
    DraftPercent(u, a, r);
    SignedRow(s, a, g, now);
    RunKeepsIntent(t, between, a, g, now);
    SnapshotIs(s, t, u, a, g, now);
    var intent := A.SignGuard(s, a).value;
    var due := B.FirstDue(s.plans[intent.plan], intent.month).value;
    LeftIsExcluded(s.members[s.agreements[a].member], due);
    CountedAreCandidates(s, g, s.plans[intent.plan].season, due);
  }

  lemma LeftIsExcluded(x: Member, due: Date)
    ensures HasLeft(x, due) <==> Excluded(x, due)
  {
  }

  lemma CountedAreCandidates(s: State, g: int, season: string, due: Date)
    ensures (set b | b in s.agreements && Counted(s, g, due, b) && OfSeason(s, season, b)) == Candidates(s, g, Some(season), due)
    ensures (set b | b in s.agreements && Counted(s, g, due, b)) == Candidates(s, g, None, due)
  {
    SetExt((set b | b in s.agreements && Counted(s, g, due, b) && OfSeason(s, season, b)), Candidates(s, g, Some(season), due));
    SetExt((set b | b in s.agreements && Counted(s, g, due, b)), Candidates(s, g, None, due));
  }

  /** The date that decides who has left: the due day of the first billing month, not
      before the month the schedule starts in. */
  lemma FirstDueMeaning(plan: Plan, month: string)
    requires B.FirstDue(plan, month).Ok?
    ensures month == "" ==> SeasonYear(plan.season).Some?
    ensures month != "" ==> ParseMonth(month).Ok? && ParseMonth(month).value.Some?
    ensures var start := if month == "" then Month(SeasonYear(plan.season).value, plan.firstMonth) else ParseMonth(month).value.value;
            var due := B.FirstDue(plan, month).value;
            var i := Month(due.year, due.month).Index();
            && ValidDate(due) && due.day == Min(plan.dueDay, MonthLength(due.year, due.month))
            && start.Index() <= i && Open(plan.Skip(), i) && forall j :: start.Index() <= j < i ==> !Open(plan.Skip(), j)
  {
    hide ParseMonth, SeasonYear, Open, SkipMonths, FirstOpen, InstallmentSchedule, StartsAt, MonthLength;
    ScheduleMeaning(plan, 0, month, None);
    var entries := InstallmentSchedule(plan, 0, month, None).value;
    var start := if month == "" then Month(SeasonYear(plan.season).value, plan.firstMonth) else ParseMonth(month).value.value;
    var months := seq(|entries|, k requires 0 <= k < |entries| => Month(entries[k].due.year, entries[k].due.month).Index());
    FirstIsLeast(plan.Skip(), start.Index(), months);
    assert months[0] == Month(entries[0].due.year, entries[0].due.month).Index();
  }

  lemma FirstIsLeast(skip: set<int>, i: int, months: seq<int>)
    requires FirstBillingMonths(skip, i, months) && months != []
    ensures i <= months[0] && Open(skip, months[0]) && forall j :: i <= j < months[0] ==> !Open(skip, j)
  {
    hide Open;
    forall j | i <= j < months[0] ensures !Open(skip, j) {
      assert Open(skip, j) ==> j in months;
    }
  }

  /** A renewal is accepted exactly for a month that is readable or blank, and either a
      record of the season, which is left alone, or a schedule that has dates. */
  lemma RenewalAcceptedExactly(s: State, m: int, p: int, month: string, r: int)
    ensures B.Renew(s, m, p, month, r).Ok? <==>
              && m in s.members && p in s.plans && ParseMonth(month).Ok?
              && (HasRecord(s.records, m, s.plans[p].season) || (r !in s.records && B.FirstDue(s.plans[p], month).Ok?))
    ensures B.Renew(s, m, p, month, r).Ok? && HasRecord(s.records, m, s.plans[p].season) ==> B.Renew(s, m, p, month, r).value == s
  {
    hide HasRecord, B.FirstDue, ParseMonth, B.SnapshotPercent, B.NewRecord;
  }

  /** A renewal bills the full year of the plan it was given, from the month it was given,
      under the member's current agreement. Its discount counts every child of the family
      that is signed in any season and signed earlier, the same moment by member key. */
  lemma RenewalExactly(s: State, m: int, p: int, month: string, r: int)
    requires Inv(s) && B.Renew(s, m, p, month, r).Ok? && B.Renew(s, m, p, month, r).value != s
    ensures m in s.members && p in s.plans && B.FirstDue(s.plans[p], month).Ok?
    ensures var t := B.Renew(s, m, p, month, r).value;
            && r !in s.records && r in t.records && t == s.(records := s.records[r := t.records[r]])
            && var x, plan, due, g := t.records[r], s.plans[p], B.FirstDue(s.plans[p], month).value, s.members[m].guardian;
            && x.member == m && x.plan == p && x.season == plan.season && x.month == month && x.count.None?
            && x.base == plan.annual && x.status == RecordStatus.Draft && x.manual.None? && x.rows == []
            && x.mode == (if s.members[m].preferredMode.Some? then s.members[m].preferredMode.value else Installments)
            && x.optOut == s.members[m].optedOut
            && (x.agreement.None? ==> forall a :: !IsCurrent(s.agreements, m, a))
            && (x.agreement.Some? ==> IsCurrent(s.agreements, m, x.agreement.value))
            && (x.percent != 0 ==> x.agreement.Some? && Counted(s, g, due, x.agreement.value))
            && (x.agreement.Some? && Counted(s, g, due, x.agreement.value) && !x.optOut ==>
                  var earlier := set b | b in s.agreements && Counted(s, g, due, b) && SignedSooner(s.agreements[b], s.agreements[x.agreement.value]);
                  x.percent == if |earlier| == 0 then 0 else if |earlier| == 1 then 50 else if |earlier| == 2 then 75 else 100)
            && (x.optOut ==> x.percent == 0)
  {
    hide RecordsOk, OneRecordEach, AllLinked, AwaitingOk, AgreementOk, B.FirstDue, HasRecord, ParseMonth, Candidate, Counted, SignedSooner, Discount;
    var t := B.Renew(s, m, p, month, r).value;
    var x, due, g := t.records[r], B.FirstDue(s.plans[p], month).value, s.members[m].guardian;
    if a :| Own(s, None, due, m, a) {
      RankedRow(s, g, m, due, a);
      EarlierAreSooner(s, g, due, a);
      forall b | Own(s, None, due, m, b) ensures b == a {
        OwnUnique(s, None, due, m, a, b);
      }
    } else if x.agreement.Some? {
      UnrankedRow(s, g, m, due, x.agreement.value);
    }
  }

  /** Signed sooner; at the same moment the member of the smaller key goes first. */
  predicate SignedSooner(x: Agreement, y: Agreement) {
    x.signedAt.Some? && y.signedAt.Some? &&
    (x.signedAt.value < y.signedAt.value || (x.signedAt.value == y.signedAt.value && x.member < y.member))
  }

  lemma RankedRow(s: State, g: int, m: int, due: Date, a: int)
    requires Own(s, None, due, m, a) && OneCurrent(s.agreements) && g == s.members[m].guardian
    ensures Counted(s, g, due, a) && s.agreements[a].state == Signed && CurrentOf(s.agreements, m) == Some(a)
  {
    assert IsCurrent(s.agreements, m, a);
  }

  lemma UnrankedRow(s: State, g: int, m: int, due: Date, a: int)
    requires m in s.members && g == s.members[m].guardian && IsCurrent(s.agreements, m, a) && !Own(s, None, due, m, a)
    ensures !Counted(s, g, due, a)
  {
  }

  lemma EarlierAreSooner(s: State, g: int, due: Date, a: int)
    requires Inv(s) && a in s.agreements && s.agreements[a].state == Signed
    ensures Earlier(s, g, None, due, a) ==
              set b | b in s.agreements && Counted(s, g, due, b) && SignedSooner(s.agreements[b], s.agreements[a])
  {
    hide RecordsOk, OneRecordEach, AllLinked, AwaitingOk, OneCurrent, SetupOk;
    assert AgreementOk(s.plans, s.agreements[a]);
    forall b ensures b in Earlier(s, g, None, due, a) <==>
        b in (set b | b in s.agreements && Counted(s, g, due, b) && SignedSooner(s.agreements[b], s.agreements[a])) {
      if b in s.agreements {
        assert AgreementOk(s.plans, s.agreements[b]);
      }
    }
    SetExt(Earlier(s, g, None, due, a), (set b | b in s.agreements && Counted(s, g, due, b) && SignedSooner(s.agreements[b], s.agreements[a])));
  }

  lemma InvAgreements(s: State)
    requires Inv(s)
    ensures AgreementsOk(s.plans, s.agreements) && AgreementsHaveMembers(s) && OneCurrent(s.agreements)
  {
  }

  lemma SignedRow(s: State, a: int, g: int, now: int)
    requires A.Sign(s, a, now).Ok? && AgreementsOk(s.plans, s.agreements) && OfFamily(s, g, a)
    ensures var t := A.Sign(s, a, now).value;
            && SignedOf(t, g, a) && a in t.awaiting
            && A.SignGuard(s, a).Ok? && t.awaiting[a] == A.SignGuard(s, a).value
  {
    hide Schedule.NormalizeMonth, SeasonStartYear, B.MonthYear, SetupOk, OneCurrent;
    assert AgreementOk(s.plans, s.agreements[a]);
  }

  lemma NothingSignedYet(s: State, g: int, now: int)
    requires Initial(s)
    ensures SignedBefore(s, g, now)
  {
  }

  lemma OneStep(s: State, step: Step, t: State)
    requires Do(s, step) == Ok(t)
    ensures Run(s, [step]) == t
  {
    hide Do;
    assert [step][..0] == [];
    assert Run(s, []) == s;
  }

  lemma SnapshotIs(s: State, t: State, u: State, a: int, g: int, now: int)
    requires A.Sign(s, a, now) == Ok(t) && OfFamily(s, g, a) && SignedOf(t, g, a) && Inv(s)
    requires FamilyGrows(t, u, g, now) && SignedBefore(s, g, now) && OneCurrent(u.agreements)
    ensures A.SignGuard(s, a).Ok?
    ensures var m, intent := s.agreements[a].member, A.SignGuard(s, a).value;
            && intent.plan in s.plans && intent.plan in u.plans && m in u.members
            && a in u.agreements && u.agreements[a].member == m
            && u.plans[intent.plan].season == s.plans[intent.plan].season
            && B.FirstDue(u.plans[intent.plan], intent.month) == B.FirstDue(s.plans[intent.plan], intent.month)
            && forall due :: B.SnapshotPercent(u, Some(s.plans[intent.plan].season), due, m) ==
                 if s.members[m].optedOut || Excluded(s.members[m], due) then 0
                 else TierPercent(Min(|Candidates(s, g, Some(s.plans[intent.plan].season), due)|, MAX_TIER))
  {
    hide RecordsOk, OneRecordEach, AllLinked, AwaitingOk, Candidates, Excluded, SignedBefore, SetupOk, FamilyTier, OneCurrent;
    hide Schedule.NormalizeMonth, SeasonStartYear, B.MonthYear, Schedule.InstallmentSchedule, PlansLater;
    var m, intent := s.agreements[a].member, A.SignGuard(s, a).value;
    assert AgreementOk(s.plans, s.agreements[a]);
    var k := intent.plan;
    SamePlan(t.plans, u.plans, k);
    SameFirstDue(s.plans[k], u.plans[k], intent.month);
    forall due ensures B.SnapshotPercent(u, Some(s.plans[k].season), due, m) ==
      if s.members[m].optedOut || Excluded(s.members[m], due) then 0
      else TierPercent(Min(|Candidates(s, g, Some(s.plans[k].season), due)|, MAX_TIER))
    {
      TierIsFixedAtSigning(s, t, u, a, now, s.plans[k].season, due);
    }
  }

  lemma SamePlan(p: map<int, Plan>, q: map<int, Plan>, k: int)
    requires PlansLater(p, q) && k in p
    ensures k in q && SameGeometry(p[k], q[k])
  {
  }

  lemma SameFirstDue(p: Plan, q: Plan, month: string)
    requires SameGeometry(p, q)
    ensures B.FirstDue(p, month) == B.FirstDue(q, month)
  {
    hide ParseMonth, SeasonYear, SkipMonths, BillingMonths, Amounts, Open, BuildEntries, AllSkipped, FirstOpen, Dated;
  }
}
