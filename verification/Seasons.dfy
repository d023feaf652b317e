/** The season promise: a signed current agreement has exactly one billing record for
    its plan's season, unless a cross-season reassignment takes it away. */
module Seasons {
  import opened Wrappers
  import opened Calendar
  import opened Domain
  import opened RecordLife
  import opened AgreementLife
  import opened RecordRuns
  import opened Links
  import opened Runs
  import A = AgreementSteps
  import B = BillingSteps
  import opened Machine

  /** A signed current agreement and the season it is billed in. */
  ghost predicate SignedFor(s: State, a: int, season: string) {
    && a in s.agreements && s.agreements[a].isCurrent && s.agreements[a].state == Signed
    && s.agreements[a].plan.Some? && s.agreements[a].plan.value in s.plans
    && s.plans[s.agreements[a].plan.value].season == season
  }

  /** Its draft creation is still due, for the very plan it carries. */
  predicate Awaits(s: State, a: int) {
    a in s.awaiting && a in s.agreements && s.agreements[a].plan == Some(s.awaiting[a].plan)
  }

  ghost predicate BilledFor(s: State, a: int, season: string) {
    a in s.agreements && (HasRecord(s.records, s.agreements[a].member, season) || Awaits(s, a))
  }

  ghost predicate SeasonsOk(s: State) {
    forall a, season :: SignedFor(s, a, season) ==> BilledFor(s, a, season)
  }

  /** A reassignment to another season of a record that is not linked to its member's
      current agreement, while that agreement is signed for the season it leaves. */
  ghost predicate Strands(s: State, step: Step) {
    && step.OnBilling? && step.billing.Reassign? && DoBilling(s, step.billing).Ok?
    && var x := s.records[step.billing.r];
    && s.plans[step.billing.p].season != x.season
    && exists a :: Stranded(s, a, x)
  }

  ghost predicate Stranded(s: State, a: int, x: Record) {
    SignedFor(s, a, x.season) && s.agreements[a].member == x.member && x.agreement != Some(a) && !Awaits(s, a)
  }

  // ---- steps that take no record and no plan away ----

  lemma KeptSeasons(x: map<int, Record>, y: map<int, Record>, m: int, season: string)
    requires SameSeasons(x, y) || (forall r :: r in x ==> r in y && y[r] == x[r])
    requires HasRecord(x, m, season)
    ensures HasRecord(y, m, season)
  {
    var r :| IsRecordOf(x, m, season, r);
    assert IsRecordOf(y, m, season, r);
  }

  lemma AddedSeasons(s: State, t: State, m: int, season: string)
    requires AddsOne(s, t) && HasRecord(s.records, m, season)
    ensures HasRecord(t.records, m, season)
  {
    hide Linked;
    KeptSeasons(s.records, t.records, m, season);
  }

  /** Invoice jobs leave agreements, plans and the seasons of records alone. */
  lemma InvoiceKeepsSeasons(s: State, step: InvoiceStep)
    requires SeasonsOk(s) && DoInvoice(s, step).Ok?
    ensures SeasonsOk(DoInvoice(s, step).value)
  {
    hide DoInvoice, SameSeasons, HasRecord;
    var t := DoInvoice(s, step).value;
    InvoiceFrame(s, step);
    InvoiceSeasons(s, step);
    forall a, season | SignedFor(t, a, season) ensures BilledFor(t, a, season) {
      assert SignedFor(s, a, season);
      if HasRecord(s.records, s.agreements[a].member, season) {
        KeptSeasons(s.records, t.records, s.agreements[a].member, season);
      }
    }
  }

  lemma DraftBills(s: State, a: int, r: int)
    requires B.CreateDraft(s, a, r).Ok? && Awaits(s, a)
    ensures var season := s.plans[s.awaiting[a].plan].season;
            HasRecord(B.CreateDraft(s, a, r).value.records, s.agreements[a].member, season)
  {
    hide B.SnapshotPercent, B.FirstDue, B.BaseFor;
    var m, season := s.agreements[a].member, s.plans[s.awaiting[a].plan].season;
    if !HasRecord(s.records, m, season) {
      assert IsRecordOf(B.CreateDraft(s, a, r).value.records, m, season, r);
    }
  }

  /** The draft of a signing comes about exactly when the member already has a record
      for the season, or the plan's whole schedule from the captured month has dates. */
  lemma DraftSucceedsExactly(s: State, a: int, r: int)
    requires Inv(s) && a in s.awaiting && s.awaiting[a].month != "" && r !in s.records
    ensures var intent := s.awaiting[a];
            && a in s.agreements && intent.plan in s.plans
            && (B.CreateDraft(s, a, r).Ok? <==>
                HasRecord(s.records, s.agreements[a].member, s.plans[intent.plan].season)
                || Schedule.InstallmentSchedule(s.plans[intent.plan], 0, intent.month, None).Ok?)
  {
    hide B.SnapshotPercent, B.BaseFor, HasRecord, RecordsOk, OneRecordEach, AllLinked, AgreementsOk, ParseMonth, Open, SeasonYear;
    var intent := s.awaiting[a];
    assert IntentOk(s.plans, s.agreements, a, intent);
    if Schedule.InstallmentSchedule(s.plans[intent.plan], 0, intent.month, None).Ok? {
      ScheduleNotEmpty(s.plans[intent.plan], intent.month);
    }
  }

  lemma ScheduleNotEmpty(plan: Plan, month: string)
    requires Schedule.InstallmentSchedule(plan, 0, month, None).Ok?
    ensures Schedule.InstallmentSchedule(plan, 0, month, None).value != []
  {
    hide ParseMonth, SeasonYear, SkipMonths, Open, FirstOpen, BillingMonths;
  }

  lemma DraftAwaitingRest(s: State, a: int, r: int)
    requires B.CreateDraft(s, a, r).Ok?
    ensures forall b :: b in s.awaiting && b != a ==> b in B.CreateDraft(s, a, r).value.awaiting && B.CreateDraft(s, a, r).value.awaiting[b] == s.awaiting[b]
  {
    hide B.TieredRecord, HasRecord;
  }

  /** Drafting, renewing, recreating and backfilling only add records. */
  lemma AddingKeepsSeasons(s: State, step: BillingStep)
    requires SeasonsOk(s) && DoBilling(s, step).Ok? && AddsRecord(step)
    ensures SeasonsOk(DoBilling(s, step).value)
  {
    hide HasRecord, AddsOne, B.CreateDraft, B.Backfill, B.Recreate, B.Renew;
    var t := DoBilling(s, step).value;
    BillingFrame(s, step);
    NewRecordStep(s, step);
    forall a, season | SignedFor(t, a, season) ensures BilledFor(t, a, season) {
      assert SignedFor(s, a, season);
      if HasRecord(s.records, s.agreements[a].member, season) {
        AddedSeasons(s, t, s.agreements[a].member, season);
      } else if step.CreateDraft? {
        if step.a == a {
          DraftBills(s, a, step.r);
        } else {
          DraftAwaitingRest(s, step.a, step.r);
        }
      }
    }
  }

  lemma ChangingKeepsSeasons(s: State, step: BillingStep)
    requires SeasonsOk(s) && DoBilling(s, step).Ok?
    requires step.Recompute? || step.SaveForm? || step.Confirm? || step.EditPlan?
    ensures SeasonsOk(DoBilling(s, step).value)
  {
    hide HasRecord, SameSeasons, B.Recompute, B.SaveForm, B.Confirm;
    var t := DoBilling(s, step).value;
    BillingFrame(s, step);
    ChangedSeasons(s, step);
    forall a, season | SignedFor(t, a, season) ensures BilledFor(t, a, season) {
      assert SignedFor(s, a, season);
      if HasRecord(s.records, s.agreements[a].member, season) {
        KeptSeasons(s.records, t.records, s.agreements[a].member, season);
      }
    }
  }

  // ---- the reassignment ----

  /** What a reassignment does to the tables, spelled out. */
  ghost predicate Moves(s: State, t: State, r: int, p: int) {
    && r in s.records && p in s.plans && r in t.records
    && t.plans == s.plans && t.members == s.members && t.awaiting == s.awaiting
    && t.records == s.records[r := t.records[r]]
    && t.records[r].member == s.records[r].member && t.records[r].season == s.plans[p].season
    && (match s.records[r].agreement
        case Some(a) =>
          if a in s.agreements then
            && a in t.agreements && t.agreements == s.agreements[a := t.agreements[a]]
            && t.agreements[a] == s.agreements[a].(plan := Some(p), month := t.agreements[a].month)
          else t.agreements == s.agreements
        case None => t.agreements == s.agreements)
  }

  lemma ReassignMoves(s: State, r: int, p: int, month: string, today: Day)
    requires B.Reassign(s, r, p, month, today).Ok?
    ensures Moves(s, B.Reassign(s, r, p, month, today).value, r, p)
  {
    hide B.ReassignedMonth, B.PushedOrSent, B.BaseFor;
  }

  lemma MovedRecords(s: State, t: State, r: int, p: int, m: int, season: string)
    requires Moves(s, t, r, p) && HasRecord(s.records, m, season)
    requires !(m == s.records[r].member && season == s.records[r].season && s.plans[p].season != season)
    ensures HasRecord(t.records, m, season)
  {
    var q :| IsRecordOf(s.records, m, season, q);
    assert IsRecordOf(t.records, m, season, q);
  }

  lemma MovedRecordThere(s: State, t: State, r: int, p: int)
    requires Moves(s, t, r, p)
    ensures HasRecord(t.records, s.records[r].member, s.plans[p].season)
  {
    assert IsRecordOf(t.records, s.records[r].member, s.plans[p].season, r);
  }

  lemma MovedRecordGone(s: State, t: State, r: int, p: int)
    requires Moves(s, t, r, p) && OneRecordEach(s.records) && s.plans[p].season != s.records[r].season
    ensures !HasRecord(t.records, s.records[r].member, s.records[r].season)
  {
    var m, season := s.records[r].member, s.records[r].season;
    assert IsRecordOf(s.records, m, season, r);
    forall q ensures !IsRecordOf(t.records, m, season, q) {
      assert q != r && IsRecordOf(t.records, m, season, q) ==> IsRecordOf(s.records, m, season, q);
    }
  }

  /** The exact condition: a reassignment keeps the promise if and only if it does not
      strand a signed agreement. */
  lemma ReassignKeepsSeasonsExactly(s: State, step: Step)
    requires Inv(s) && SeasonsOk(s)
    requires step.OnBilling? && step.billing.Reassign? && DoBilling(s, step.billing).Ok?
    ensures SeasonsOk(After(s, step)) <==> !Strands(s, step)
  {
    hide Inv, HasRecord, B.Reassign, OneRecordEach;
    var r, p := step.billing.r, step.billing.p;
    var t := After(s, step);
    ReassignMoves(s, r, p, step.billing.month, step.billing.today);
    if Strands(s, step) {
      var a :| Stranded(s, a, s.records[r]);
      StrandedUnbilled(s, t, r, p, a);
    } else {
      forall a, season | SignedFor(t, a, season) ensures BilledFor(t, a, season) {
        NotStrandedBilled(s, t, r, p, a, season);
      }
    }
  }

  lemma StrandedUnbilled(s: State, t: State, r: int, p: int, a: int)
    requires Inv(s) && Moves(s, t, r, p) && s.plans[p].season != s.records[r].season
    requires Stranded(s, a, s.records[r])
    ensures SignedFor(t, a, s.records[r].season) && !BilledFor(t, a, s.records[r].season)
  {
    hide RecordsOk, AllLinked, AgreementsOk, AgreementsHaveMembers, AwaitingOk, HasRecord, OneRecordEach;
    MovedRecordGone(s, t, r, p);
  }

  lemma NotStrandedBilled(s: State, t: State, r: int, p: int, a: int, season: string)
    requires Inv(s) && SeasonsOk(s) && Moves(s, t, r, p) && SignedFor(t, a, season)
    requires s.plans[p].season != s.records[r].season ==> !Stranded(s, a, s.records[r])
    ensures BilledFor(t, a, season)
  {
    hide RecordsOk, AgreementsOk, AgreementsHaveMembers, AwaitingOk, HasRecord, OneRecordEach;
    var x := s.records[r];
    assert Linked(s, x);
    if x.agreement == Some(a) {
      MovedRecordThere(s, t, r, p);
    } else {
      assert SignedFor(s, a, season);
      var m := s.agreements[a].member;
      if HasRecord(s.records, m, season) && !Awaits(s, a) {
        MovedRecords(s, t, r, p, m, season);
      }
    }
  }

  // ---- the agreement steps ----

  /** An agreement step signs at most one row, and leaves the plan of a signed one. */
  ghost predicate SignsOne(s: State, t: State) {
    && t.plans == s.plans
    && (forall a :: a in s.awaiting ==> a in t.awaiting)
    && (forall a :: a in t.agreements && t.agreements[a].isCurrent && t.agreements[a].state == Signed ==>
          || (a in t.awaiting && t.agreements[a].plan == Some(t.awaiting[a].plan))
          || (a in s.agreements && s.agreements[a] == t.agreements[a] && (a in s.awaiting ==> t.awaiting[a] == s.awaiting[a])))
  }

  lemma SigningStep(s: State, step: AgreementStep)
    requires DoAgreement(s, step).Ok?
    ensures SignsOne(s, DoAgreement(s, step).value)
  {
    hide A.DefaultSetup, CurrentOf, A.SetupMonth, A.CancelSelection, Schedule.NormalizeMonth, SeasonStartYear, B.MonthYear;
  }

  lemma AgreementRecords(s: State, step: AgreementStep)
    requires DoAgreement(s, step).Ok?
    ensures SameSeasons(s.records, DoAgreement(s, step).value.records)
  {
    hide SameSeasons, DoAgreement;
    AgreementFrame(s, step);
    UnchangedSeasons(s.records);
    if step.Discontinue? {
      DiscontinueStepSeasons(s, step);
    }
  }

  lemma AgreementKeepsSeasons(s: State, step: AgreementStep)
    requires SeasonsOk(s) && DoAgreement(s, step).Ok?
    ensures SeasonsOk(DoAgreement(s, step).value)
  {
    hide DoAgreement, SameSeasons, HasRecord;
    var t := DoAgreement(s, step).value;
    SigningStep(s, step);
    AgreementRecords(s, step);
    forall a, season | SignedFor(t, a, season) ensures BilledFor(t, a, season) {
      if !Awaits(t, a) {
        assert SignedFor(s, a, season);
        KeptSeasons(s.records, t.records, s.agreements[a].member, season);
      }
    }
  }

  // ---- runs ----

  lemma StepKeepsSeasons(s: State, step: Step)
    requires Inv(s) && SeasonsOk(s) && !Strands(s, step)
    ensures SeasonsOk(After(s, step))
  {
    hide Inv, SeasonsOk, Strands, DoAgreement, DoBilling, DoInvoice;
    if Do(s, step).Ok? {
      match step
      case OnAgreement(x) => AgreementKeepsSeasons(s, x);
      case OnInvoice(x) => InvoiceKeepsSeasons(s, x);
      case OnBilling(x) =>
        if x.Reassign? {
          ReassignKeepsSeasonsExactly(s, step);
        } else if AddsRecord(x) {
          AddingKeepsSeasons(s, x);
        } else {
          ChangingKeepsSeasons(s, x);
        }
    }
  }

  ghost predicate NothingStranded(s: State, steps: seq<Step>) {
    steps != [] ==>
      NothingStranded(s, steps[..|steps| - 1]) && !Strands(Run(s, steps[..|steps| - 1]), steps[|steps| - 1])
  }

  lemma {:induction false} RunKeepsSeasons(s: State, steps: seq<Step>)
    requires Initial(s) && Locked(s, steps) && NothingStranded(s, steps)
    ensures SeasonsOk(Run(s, steps))
  {
    hide Inv, After, Unlocks, Strands, SeasonsOk, Initial;
    if steps == [] {
      NothingSigned(s);
    } else {
      var init := steps[..|steps| - 1];
      RunKeepsSeasons(s, init);
      EveryRunIsConsistent(s, init);
      StepKeepsSeasons(Run(s, init), steps[|steps| - 1]);
    }
  }

  lemma NothingSigned(s: State)
    requires Initial(s)
    ensures SeasonsOk(s)
  {
  }

  /** In every run that strands nobody, a signed current agreement whose draft is no
      longer due has exactly one billing record for its plan's season. */
  lemma SignedMeansOneRecord(s: State, steps: seq<Step>, a: int, season: string)
    requires Initial(s) && Locked(s, steps) && NothingStranded(s, steps)
    requires SignedFor(Run(s, steps), a, season) && !Awaits(Run(s, steps), a)
    ensures var t := Run(s, steps);
            var m := t.agreements[a].member;
            exists r :: IsRecordOf(t.records, m, season, r) && forall q :: IsRecordOf(t.records, m, season, q) ==> q == r
  {
    hide Run, Locked, NothingStranded, Initial, RecordsOk, AgreementsOk, AwaitingOk, AllLinked, AgreementsHaveMembers, Awaits;
    RunKeepsSeasons(s, steps);
    EveryRunIsConsistent(s, steps);
    var t := Run(s, steps);
    assert BilledFor(t, a, season);
    var r :| IsRecordOf(t.records, t.agreements[a].member, season, r);
  }

  /** A record linked to its member's current agreement never strands anyone. */
  lemma LinkedReassignmentsNeverStrand(s: State, step: Step)
    requires Inv(s) && step.OnBilling? && step.billing.Reassign? && step.billing.r in s.records
    requires var x := s.records[step.billing.r];
             x.agreement.Some? && IsCurrent(s.agreements, x.member, x.agreement.value)
    ensures !Strands(s, step)
  {
    hide RecordsOk, OneRecordEach, AllLinked, AgreementsHaveMembers, AwaitingOk, B.Reassign, Awaits;
    var x := s.records[step.billing.r];
    forall a ensures !Stranded(s, a, x) {
      if SignedFor(s, a, x.season) && s.agreements[a].member == x.member {
        assert IsCurrent(s.agreements, x.member, a);
      }
    }
  }

  // ---- the promise without the condition ----

  /** Any draft of the season that is linked to another agreement, or to none, can be
      reassigned away: nothing in the service stands against it. */
  lemma StrandingIsAccepted(s: State, a: int, r: int, p: int, today: Day)
    requires Inv(s) && r in s.records && p in s.plans && Stranded(s, a, s.records[r])
    requires s.records[r].status == RecordStatus.Draft && s.plans[p].season != s.records[r].season
    requires !exists q :: q != r && IsRecordOf(s.records, s.records[r].member, s.plans[p].season, q)
    ensures Strands(s, OnBilling(Reassign(r, p, "", today)))
  {
    hide OneRecordEach, AllLinked, AgreementsOk, AgreementsHaveMembers, AwaitingOk, RowsAsScheduled, CountOk, AmountsOk, B.BaseFor;
    assert RecordOk(s.plans, s.records[r]);
  }

  lemma ReassignMovesStep(s: State, step: Step)
    requires step.OnBilling? && step.billing.Reassign? && DoBilling(s, step.billing).Ok?
    ensures Moves(s, After(s, step), step.billing.r, step.billing.p)
  {
    hide B.Reassign, Moves;
    ReassignMoves(s, step.billing.r, step.billing.p, step.billing.month, step.billing.today);
  }
}
