/** What a single service call promises its caller, in terms of what another call of
    the same or a different service would do. */
module Calls {
  import opened Wrappers
  import opened Text
  import opened Money
  import opened Calendar
  import opened Schedule
  import opened Domain
  import opened RecordLife
  import opened AgreementLife
  import opened RecordRuns
  import opened Links
  import opened Runs
  import opened RemoteLife
  import opened RemoteRuns
  import opened Silence
  import opened Recipients
  import opened Promises
  import A = AgreementSteps
  import B = BillingSteps
  import I = InvoiceSteps
  import opened Machine

  // ---- what every call keeps ----

  /** What everyone else can rely on whatever a call did, also when it raised: consistent
      tables stay consistent, nothing settled is undone, and the provider keeps one
      invoice per number, bills the right family and does nothing for a cancelled row. */
  ghost predicate Kept(s: State, t: State) {
    && (Inv(s) ==> Inv(t) && Later(s, t))
    && (Inv(s) && RemoteInv(s) ==> RemoteGrows(s, t) && SilentSince(s, t))
    && (Inv(s) && RemoteInv(s) && AllToFamilies(s) ==> AllToFamilies(t))
  }

  lemma NothingKept(s: State)
    ensures Kept(s, s)
  {
    hide Inv, RemoteInv, Later, RemoteLater, SilentSince, AllToFamilies;
    LaterReflexive(s);
    RemoteLaterReflexive(s.remote);
    SameInvoicesSilent(s, s);
  }

  lemma StepKept(s: State, step: Step)
    requires !Unlocks(s, step)
    ensures Kept(s, After(s, step))
  {
    hide Inv, RemoteInv, Later, RemoteGrows, SilentSince, AllToFamilies, Unlocks, After;
    if Inv(s) {
      StepKeepsInv(s, step);
      InvGives(s);
      if RemoteInv(s) {
        StepKeepsRemote(s, step);
        StepSilent(s, step);
        if AllToFamilies(s) {
          StepKeepsFamilies(s, step);
        }
      }
    }
  }

  lemma AgreementKept(s: State, step: AgreementStep)
    ensures Kept(s, s) && (DoAgreement(s, step).Ok? ==> Kept(s, DoAgreement(s, step).value))
  {
    hide Kept, DoAgreement;
    NothingKept(s);
    StepKept(s, OnAgreement(step));
  }

  lemma BillingKept(s: State, step: BillingStep)
    ensures Kept(s, s) && (DoBilling(s, step).Ok? && !Unlocks(s, OnBilling(step)) ==> Kept(s, DoBilling(s, step).value))
  {
    hide Kept, DoBilling, Unlocks;
    NothingKept(s);
    if !Unlocks(s, OnBilling(step)) {
      StepKept(s, OnBilling(step));
    }
  }

  lemma InvoiceKept(s: State, step: InvoiceStep)
    ensures Kept(s, s) && (DoInvoice(s, step).Ok? ==> Kept(s, DoInvoice(s, step).value))
  {
    hide Kept, DoInvoice;
    NothingKept(s);
    StepKept(s, OnInvoice(step));
  }

  lemma ReassignKept(s: State, r: int, p: int, month: string, today: Day)
    ensures Kept(s, s) && (B.Reassign(s, r, p, month, today).Ok? ==> Kept(s, B.Reassign(s, r, p, month, today).value))
  {
    hide Kept, B.Reassign;
    BillingKept(s, Reassign(r, p, month, today));
  }

  lemma CancellationKept(s: State, id: A.InvoiceId, fate: I.Fate)
    ensures Kept(s, I.RunCancellation(s, id, fate))
  {
    hide Kept, I.RunCancellation;
    InvoiceKept(s, RunCancellation(id, fate));
  }

  lemma KeptTwice(s: State, t: State, u: State)
    requires Kept(s, t) && Kept(t, u)
    ensures Kept(s, u)
  {
    hide Inv, RemoteInv, SilentSince, AllToFamilies, ClientsLater, RecordsLater, AgreementsLater, KeepsCurrent, PlansLater, MembersLater, InvoicesLater;
    if Inv(s) {
      LaterTransitive(s, t, u);
      if RemoteInv(s) {
        RemoteLaterTransitive(s.remote, t.remote, u.remote);
        SilentTransitive(s, t, u);
      }
    }
  }

  /** The sweep keeps it too, over all its rows. */
  lemma {:induction false} SweepKept(s: State, ids: seq<A.InvoiceId>, today: Date, emails: seq<bool>, fates: seq<I.Fate>)
    requires |emails| == |ids| == |fates|
    ensures Kept(s, I.Sweep(s, ids, today, emails, fates))
  {
    hide Kept, I.SendDue;
    if ids == [] {
      NothingKept(s);
    } else {
      var n := |ids| - 1;
      var mid := I.Sweep(s, ids[..n], today, emails[..n], fates[..n]);
      SweepKept(s, ids[..n], today, emails[..n], fates[..n]);
      InvoiceKept(mid, SendDue(ids[n], today, emails[n], fates[n]));
      KeptTwice(s, mid, I.Sweep(s, ids, today, emails, fates));
    }
  }

  // ---- setting up ----

  /** Today's floor for a first month, as an index. */
  function Floor(plan: Plan, today: Date): int {
    Month(today.year, today.month).Index() + (if today.day > plan.cutoffDay then 1 else 0)
  }

  /** Up to year 9999 the floor is compared as a month; the one text past that is below
      every month of a season. */
  lemma NotBackdated(plan: Plan, today: Day, f: int)
    requires 12 * 1900 <= f < 120000
    ensures !StrLess(FormatMonth(OfIndex(f)), DeriveFirstBillingMonth(plan, today)) <==> f >= Floor(plan, today) || Floor(plan, today) == 120000
  {
    hide FormatMonth, StrLess;
    var floor := Floor(plan, today);
    assert floor <= 120000;
    if floor < 120000 {
      FormatOrder(OfIndex(f), OfIndex(floor));
    } else {
      PastTheLastYear(OfIndex(f));
    }
  }

  lemma PastTheLastYear(m: Month)
    requires 1900 <= m.year <= 9999 && m.Valid()
    ensures !StrLess(FormatMonth(m), FormatMonth(OfIndex(120000)))
  {
    hide StrLess, Pad;
    var y := Pad(m.year, 4);
    FormatLengths(m);
    LastText();
    ValuePad(m.year, 4);
    ThousandText();
    LessConcat(y, "-" + Pad(m.month, 2), "1000", "0-01");
    assert y + ("-" + Pad(m.month, 2)) == FormatMonth(m);
    LessValue(y, "1000");
  }

  lemma LastText()
    ensures FormatMonth(OfIndex(120000)) == "1000" + "0-01"
  {
    assert OfIndex(120000) == Month(10000, 1);
    LastMonths();
  }

  lemma ThousandText()
    ensures AllDigits("1000") && |"1000"| == 4 && Value("1000") == 1000
  {
    assert Digits(1000) == "1000";
    ValueDigits(1000);
  }

  /** The first billing month from a month, when the plan has any. */
  predicate SetupFits(plan: Plan, m: Month, today: Date) {
    var f := FirstOpen(plan.Skip(), m.Index());
    && !AllSkipped(plan.Skip())
    && SeasonStartYear(plan.season) == Ok(OfIndex(f).year)
    && (f >= Floor(plan, today) || Floor(plan, today) == 120000)
    && CalendarYearCount(plan, FormatMonth(OfIndex(f))).Ok?
  }

  /** Setting up is accepted exactly for an active plan and a readable month whose first
      billing month lies in the plan's season-start year, not before today's floor, with
      a schedule that has dates; that first billing month is what is stored. */
  lemma SetupAcceptedExactly(plan: Plan, month: string, today: Day)
    ensures A.SetupMonth(plan, month, today).Ok? <==>
              plan.isActive && ParseMonth(month).Ok? && ParseMonth(month).value.Some? && SetupFits(plan, ParseMonth(month).value.value, today)
    ensures A.SetupMonth(plan, month, today).Ok? ==>
              A.SetupMonth(plan, month, today).value == FormatMonth(OfIndex(FirstOpen(plan.Skip(), ParseMonth(month).value.value.Index())))
  {
    hide ParseMonth, SkipMonths, FirstOpen, AllSkipped, FormatMonth, StrLess, SeasonYear, CalendarYearCount, DeriveFirstBillingMonth, B.MonthYear, OfIndex;
    var parsed := ParseMonth(month);
    if parsed.Ok? && parsed.value.Some? && !AllSkipped(plan.Skip()) {
      var f := FirstOpen(plan.Skip(), parsed.value.value.Index());
      YearOfIndex(f);
      B.MonthYearOfFormat(OfIndex(f));
      if SeasonStartYear(plan.season) == Ok(OfIndex(f).year) {
        NotBackdated(plan, today, f);
      }
    }
  }

  lemma YearOfIndex(f: int)
    requires f >= 0
    ensures OfIndex(f).year >= 0
    ensures 1900 <= OfIndex(f).year <= 9999 <==> 12 * 1900 <= f < 120000
  {
  }

  /** It is open to rows not signed yet, and to void ones, and writes that row alone. */
  lemma SettingUpExactly(s: State, a: int, p: int, month: string, today: Day)
    ensures A.SetBillingSetup(s, a, p, month, today).Ok? <==>
              && a in s.agreements && s.agreements[a].state in {Generated, Sent, Void}
              && p in s.plans && A.SetupMonth(s.plans[p], month, today).Ok?
    ensures A.SetBillingSetup(s, a, p, month, today).Ok? ==>
              var t := A.SetBillingSetup(s, a, p, month, today).value;
              && a in t.agreements && t == s.(agreements := s.agreements[a := t.agreements[a]])
              && t.agreements[a] == s.agreements[a].(plan := Some(p), month := A.SetupMonth(s.plans[p], month, today).value)
  {
    hide A.SetupMonth;
    if a in s.agreements {
      var state := s.agreements[a].state;
      assert state.Generated? || state.Sent? || state.Void? || state.Signed? || state.Superseded? || state.Discontinued?;
    }
  }

  /** Setting up what is stored, on the same day, changes nothing. */
  lemma SettingUpTwiceIsOnce(s: State, a: int, p: int, month: string, today: Day)
    requires A.SetBillingSetup(s, a, p, month, today).Ok?
    ensures var t := A.SetBillingSetup(s, a, p, month, today).value;
            a in t.agreements && A.SetBillingSetup(t, a, p, t.agreements[a].month, today) == Ok(t)
  {
    hide NormalizeMonth, SeasonStartYear, B.MonthYear, StrLess, DeriveFirstBillingMonth, CalendarYearCount, MonthOk;
    var n := A.SetupMonth(s.plans[p], month, today).value;
    NormalizedInYear(s.plans[p], month);
    NormalizedAlready(s.plans[p], n);
    NotBlank(s.plans[p], n);
    var t := A.SetBillingSetup(s, a, p, month, today).value;
    assert t.agreements[a := t.agreements[a]] == t.agreements;
  }

  lemma NotBlank(plan: Plan, n: string)
    requires MonthOk(plan, n)
    ensures n != ""
  {
    hide Open, FormatMonth, SeasonStartYear;
  }

  /** The two ways to a first month agree: what a new agreement preselects from the default
      plan is what staff would get by setting up that plan for today's month, and nothing
      is preselected where that would be refused for its year. */
  lemma PreselectionMatchesSetup(s: State, today: Day)
    requires s.defaultPlan.Some? && s.defaultPlan.value in s.plans && s.plans[s.defaultPlan.value].isActive
    ensures var plan := s.plans[s.defaultPlan.value];
            var (p, n) := A.DefaultSetup(s, today);
            var setup := A.SetupMonth(plan, DeriveFirstBillingMonth(plan, today), today);
            && (setup.Ok? <==> p == s.defaultPlan && CalendarYearCount(plan, n).Ok?)
            && (setup.Ok? ==> setup.value == n)
  {
    hide NormalizeMonth, SeasonStartYear, B.MonthYear, StrLess, DeriveFirstBillingMonth, CalendarYearCount, MonthOk, FirstOpen;
    var plan := s.plans[s.defaultPlan.value];
    var raw := DeriveFirstBillingMonth(plan, today);
    FloorText(plan, today);
    if NormalizeMonth(plan, raw).Ok? && SeasonStartYear(plan.season).Ok?
       && B.MonthYear(NormalizeMonth(plan, raw).value) == Some(SeasonStartYear(plan.season).value) {
      PreselectedNotBackdated(plan, today);
    }
  }

  lemma FloorText(plan: Plan, today: Day)
    ensures DeriveFirstBillingMonth(plan, today) == FormatMonth(OfIndex(Floor(plan, today))) != ""
  {
  }

  lemma PreselectedNotBackdated(plan: Plan, today: Day)
    requires var raw := DeriveFirstBillingMonth(plan, today);
             NormalizeMonth(plan, raw).Ok? && SeasonStartYear(plan.season).Ok?
             && B.MonthYear(NormalizeMonth(plan, raw).value) == Some(SeasonStartYear(plan.season).value)
    ensures !StrLess(NormalizeMonth(plan, DeriveFirstBillingMonth(plan, today)).value, DeriveFirstBillingMonth(plan, today))
  {
    hide ParseMonth, SkipMonths, FirstOpen, AllSkipped, FormatMonth, StrLess, SeasonYear, B.MonthYear, OfIndex;
    var floor := Floor(plan, today);
    FloorText(plan, today);
    FloorReads(plan, today);
    var f := FirstOpen(plan.Skip(), floor);
    YearOfIndex(f);
    B.MonthYearOfFormat(OfIndex(f));
    NotBackdated(plan, today, f);
  }

  lemma FloorReads(plan: Plan, today: Day)
    requires ParseMonth(DeriveFirstBillingMonth(plan, today)).Ok? && ParseMonth(DeriveFirstBillingMonth(plan, today)).value.Some?
    ensures 0 <= Floor(plan, today) && ParseMonth(DeriveFirstBillingMonth(plan, today)).value.value.Index() == Floor(plan, today)
  {
    hide ParseMonth, FormatMonth;
    var floor := Floor(plan, today);
    FloorText(plan, today);
    if floor < 120000 {
      ParseFormat(OfIndex(floor));
    } else {
      ParseFormatOverflow(OfIndex(floor));
    }
  }

  /** A fresh agreement takes what setting up would give it: where the default plan would
      be accepted for today's month, setting it up afterwards changes nothing. */
  lemma CreatingPreselects(s: State, m: int, a: int, today: Day)
    requires A.CreateAgreement(s, m, a, today).Ok? && a !in s.agreements && a in A.CreateAgreement(s, m, a, today).value.agreements
    ensures var t := A.CreateAgreement(s, m, a, today).value;
            var x := t.agreements[a];
            && x.member == m && x.isCurrent && x.state == Generated && x.signedAt.None?
            && (x.plan.None? ==> x.month == "") && (x.plan.Some? ==> x.plan == s.defaultPlan)
            && (s.defaultPlan.Some? && s.defaultPlan.value in s.plans && s.plans[s.defaultPlan.value].isActive ==>
                  var p := s.defaultPlan.value;
                  var raw := DeriveFirstBillingMonth(s.plans[p], today);
                  A.SetBillingSetup(t, a, p, raw, today).Ok? ==> A.SetBillingSetup(t, a, p, raw, today) == Ok(t))
  {
    hide A.SetupMonth, A.DefaultSetup, DeriveFirstBillingMonth;
    var t := A.CreateAgreement(s, m, a, today).value;
    DefaultOrNone(s, today);
    if s.defaultPlan.Some? && s.defaultPlan.value in s.plans && s.plans[s.defaultPlan.value].isActive {
      PreselectionMatchesSetup(s, today);
      assert t.agreements[a := t.agreements[a]] == t.agreements;
    }
  }

  lemma DefaultOrNone(s: State, today: Day)
    ensures var (p, n) := A.DefaultSetup(s, today);
            (p.None? ==> n == "") && (p.Some? ==> p == s.defaultPlan)
  {
    hide NormalizeMonth, SeasonStartYear, B.MonthYear, DeriveFirstBillingMonth;
  }

  // ---- sending, voiding, amending ----

  /** Which rows can be sent, voided and amended, and what becomes of them: sending takes a
      generated row, voiding any, amending a signed one, whose successor starts afresh with
      its plan and month. */
  lemma TransitionsExactly(s: State, a: int, b: int)
    ensures A.MarkSent(s, a).Ok? <==> a in s.agreements && s.agreements[a].state == Generated
    ensures A.MarkSent(s, a).Ok? ==> A.MarkSent(s, a).value == s.(agreements := s.agreements[a := s.agreements[a].(state := Sent)])
    ensures A.VoidAgreement(s, a).Ok? <==> a in s.agreements
    ensures A.VoidAgreement(s, a).Ok? ==>
              var t := A.VoidAgreement(s, a).value;
              && t == s.(agreements := t.agreements) && t.agreements.Keys == s.agreements.Keys
              && t.agreements[a] == s.agreements[a].(state := Void)
              && forall c :: c in s.agreements && c != a ==> t.agreements[c] == s.agreements[c]
    ensures A.Amend(s, a, b).Ok? <==> a in s.agreements && s.agreements[a].state == Signed && b !in s.agreements
    ensures A.Amend(s, a, b).Ok? ==>
              var t, x := A.Amend(s, a, b).value, s.agreements[a];
              && t == s.(agreements := t.agreements) && t.agreements.Keys == s.agreements.Keys + {b}
              && t.agreements[a] == x.(state := Superseded, isCurrent := false)
              && t.agreements[b] == Agreement(x.member, true, Generated, x.plan, x.month, None)
              && forall c :: c in s.agreements && c != a ==> t.agreements[c] == s.agreements[c]
  {
  }

  /** Sending changes nothing that signing looks at: the same guards refuse, and the
      same tables result. */
  lemma SendingDoesNotMatterToSigning(s: State, a: int, now: int)
    requires A.MarkSent(s, a).Ok?
    ensures A.Sign(A.MarkSent(s, a).value, a, now) == A.Sign(s, a, now)
  {
    hide NormalizeMonth, SeasonStartYear, B.MonthYear;
    var t := A.MarkSent(s, a).value;
    var x := s.agreements[a];
    assert s.agreements[a := x.(state := Sent)][a := x.(state := Signed, signedAt := Some(now))]
        == s.agreements[a := x.(state := Signed, signedAt := Some(now))];
  }

  /** Regenerating is refused exactly while the current agreement is not void; after a
      voiding it makes the fresh row the member's one current agreement and keeps the
      void one as history. */
  lemma VoidThenRegenerate(s: State, m: int, a: int, b: int, today: Day)
    requires Inv(s) && IsCurrent(s.agreements, m, a) && b !in s.agreements
    ensures A.Regenerate(s, m, b, today).Ok? <==> s.agreements[a].state == Void
    ensures A.VoidAgreement(s, a).Ok? && A.Regenerate(A.VoidAgreement(s, a).value, m, b, today).Ok?
    ensures var t := A.Regenerate(A.VoidAgreement(s, a).value, m, b, today).value;
            && (forall c :: IsCurrent(t.agreements, m, c) <==> c == b)
            && t.agreements[b].state == Generated && a in t.agreements && t.agreements[a].state == Void && !t.agreements[a].isCurrent
            && (forall c :: c in s.agreements && c != a ==> c in t.agreements && t.agreements[c] == s.agreements[c])
  {
    hide RecordsOk, OneRecordEach, AllLinked, AwaitingOk, AgreementOk, A.DefaultSetup;
    var u := A.VoidAgreement(s, a).value;
    OnlyCurrent(s.agreements, m, a, CurrentOf(s.agreements, m));
    VoidGrows(s, a);
    assert IsCurrent(u.agreements, m, a);
    OnlyCurrent(u.agreements, m, a, CurrentOf(u.agreements, m));
    var t := A.Regenerate(u, m, b, today).value;
    forall c ensures IsCurrent(t.agreements, m, c) ==> c == b || (IsCurrent(u.agreements, m, c) && c != a) {
    }
    forall c ensures IsCurrent(u.agreements, m, c) ==> c == a {
      if IsCurrent(u.agreements, m, c) {
        OnlyCurrent(u.agreements, m, c, CurrentOf(u.agreements, m));
      }
    }
  }

  lemma SignedIs(s: State, b: int, again: int)
    requires A.Sign(s, b, again).Ok?
    ensures b in s.agreements && s.agreements[b].plan.Some?
    ensures var x := s.agreements[b];
            A.Sign(s, b, again).value ==
              s.(agreements := s.agreements[b := x.(state := Signed, signedAt := Some(again))],
                 awaiting := s.awaiting[b := Intent(x.plan.value, x.month)])
  {
    hide NormalizeMonth, SeasonStartYear, B.MonthYear;
  }

  lemma RecordThere(s: State, b: int, spare: int)
    requires b in s.awaiting && b in s.agreements && s.awaiting[b].plan in s.plans && s.agreements[b].member in s.members
    requires HasRecord(s.records, s.agreements[b].member, s.plans[s.awaiting[b].plan].season)
    ensures B.CreateDraft(s, b, spare) == Ok(s.(awaiting := s.awaiting - {b}))
  {
    hide HasRecord, B.TieredRecord;
  }

  /** An amendment is not billed again: amending a billed agreement, signing the new row
      and drafting succeed and leave every billing record as it was. */
  lemma AmendingBillsNothingTwice(s: State, a: int, b: int, now: int, r: int)
    requires Inv(s) && a in s.agreements && s.agreements[a].state == Signed && b !in s.agreements
    requires s.agreements[a].plan.Some? && s.agreements[a].month != "" && s.plans[s.agreements[a].plan.value].isActive
    requires HasRecord(s.records, s.agreements[a].member, s.plans[s.agreements[a].plan.value].season)
    ensures A.Amend(s, a, b).Ok? && A.Sign(A.Amend(s, a, b).value, b, now).Ok?
    ensures var t := A.Sign(A.Amend(s, a, b).value, b, now).value;
            && B.CreateDraft(t, b, r).Ok? && B.CreateDraft(t, b, r).value.records == s.records
            && b in t.agreements && t.agreements[b].state == Signed && t.agreements[a].state == Superseded
  {
    hide Inv, A.Sign, B.CreateDraft, HasRecord;
    SignerKnown(s, a);
    var u := A.Amend(s, a, b).value;
    AmendLocked(s, a, b);
    RunMovesForward(s, [OnAgreement(Amend(a, b))]);
    SigningAcceptedExactly(u, b, now);
    SignedIs(u, b, now);
    RecordThere(A.Sign(u, b, now).value, b, r);
  }

  lemma AmendLocked(s: State, a: int, b: int)
    requires A.Amend(s, a, b).Ok?
    ensures Locked(s, [OnAgreement(Amend(a, b))]) && Run(s, [OnAgreement(Amend(a, b))]) == A.Amend(s, a, b).value
  {
    assert [OnAgreement(Amend(a, b))][..0] == [];
  }

  lemma SignerKnown(s: State, a: int)
    requires Inv(s) && a in s.agreements
    ensures s.agreements[a].member in s.members
    ensures s.agreements[a].plan.Some? ==> s.agreements[a].plan.value in s.plans
  {
    hide RecordsOk, OneRecordEach, AllLinked, AwaitingOk, LifeOk, MonthOk, OneCurrent;
    assert AgreementOk(s.plans, s.agreements[a]);
  }

  // ---- records ----

  /** A draft is made once for what the signing captured: an existing record of the season
      is left alone, else one record is added, for the captured plan and month with its
      calendar-year count, on the terms of the member. Either way the signing is done. */
  lemma DraftingExactly(s: State, a: int, r: int)
    requires B.CreateDraft(s, a, r).Ok?
    ensures a in s.awaiting && a in s.agreements && s.agreements[a].member in s.members && s.awaiting[a].plan in s.plans
    ensures var t := B.CreateDraft(s, a, r).value;
            var m, intent := s.agreements[a].member, s.awaiting[a];
            var plan := s.plans[intent.plan];
            && t == s.(records := t.records, awaiting := s.awaiting - {a})
            && (HasRecord(s.records, m, plan.season) ==> t.records == s.records)
            && (!HasRecord(s.records, m, plan.season) ==>
                  && r !in s.records && r in t.records && t.records == s.records[r := t.records[r]]
                  && var x := t.records[r];
                  && x.member == m && x.plan == intent.plan && x.agreement == Some(a) && x.season == plan.season && x.month == intent.month
                  && (x.month == "" ==> x.count.None? && x.base == plan.annual)
                  && (x.month != "" ==>
                        && CalendarYearCount(plan, x.month).Ok? && x.count == Some(CalendarYearCount(plan, x.month).value)
                        && x.base == PartialBase(plan.annual, plan.installmentCount, x.count.value))
                  && x.discount == RoundHalfUp(x.base * x.percent, 100) && x.final == x.base - x.discount
                  && x.optOut == s.members[m].optedOut && (x.optOut ==> x.percent == 0)
                  && x.mode == (if s.members[m].preferredMode.Some? then s.members[m].preferredMode.value else Installments)
                  && x.status == RecordStatus.Draft && x.sync == NotSynced && x.manual.None? && x.reason == "" && x.rows == [])
  {
    hide B.FirstDue, CalendarYearCount, HasRecord, PartialBase, RoundHalfUp;
  }

  /** The call without an agreement bills the newest active plan in full, once per season,
      without a discount; without an active plan it does nothing. */
  lemma BackfillingExactly(s: State, m: int, r: int)
    requires B.Backfill(s, m, r).Ok?
    ensures m in s.members
    ensures var t := B.Backfill(s, m, r).value;
            && t == s.(records := t.records)
            && ((exists p :: p in s.plans && s.plans[p].isActive) && t == s ==>
                  exists p :: p in s.plans && s.plans[p].isActive && HasRecord(s.records, m, s.plans[p].season))
            && (t != s ==>
                  && r !in s.records && r in t.records && t.records == s.records[r := t.records[r]]
                  && var x := t.records[r];
                  && x.member == m && x.plan in s.plans && s.plans[x.plan].isActive && x.season == s.plans[x.plan].season
                  && (forall p :: p in s.plans && s.plans[p].isActive ==> p <= x.plan)
                  && !HasRecord(s.records, m, x.season)
                  && x.base == x.final == s.plans[x.plan].annual && x.percent == 0 && x.discount == 0
                  && x.agreement.None? && x.month == "" && x.count.None? && x.status == RecordStatus.Draft && x.rows == [])
  {
    hide HasRecord;
    if exists p :: p in s.plans && s.plans[p].isActive {
      var _ := NewestActive(s.plans);
    }
  }

  lemma {:induction false} NewestActive(plans: map<int, Plan>) returns (p: int)
    requires exists q :: q in plans && plans[q].isActive
    ensures B.IsLatestActive(plans, p)
    decreases |plans|
  {
    var q :| q in plans && plans[q].isActive;
    var rest := plans - {q};
    assert |rest| < |plans| by {
      assert plans.Keys == rest.Keys + {q};
    }
    if exists o :: o in rest && rest[o].isActive {
      var o := NewestActive(rest);
      p := if o > q then o else q;
    } else {
      p := q;
    }
  }

  /** Nothing is recreated without the confirmation, for an agreement that is not signed
      or not the member's, or beside a record of the season. */
  lemma RecreatingNeeds(s: State, m: int, a: int, confirmedAbsent: bool, r: int)
    requires B.Recreate(s, m, a, confirmedAbsent, r).Ok?
    ensures confirmedAbsent && m in s.members && a in s.agreements && r !in s.records
    ensures var x := s.agreements[a];
            && x.state == Signed && x.member == m && x.plan.Some? && x.plan.value in s.plans
            && !HasRecord(s.records, m, s.plans[x.plan.value].season)
  {
    hide HasRecord, B.TieredRecord;
  }

  /** Recreating a record is the draft calculation: where both are possible they succeed
      together and write the same record. */
  lemma RecreatingIsDrafting(s: State, a: int, r: int)
    requires a in s.awaiting && a in s.agreements && s.agreements[a].state == Signed && s.agreements[a].member in s.members
    requires s.agreements[a].plan == Some(s.awaiting[a].plan) && s.agreements[a].month == s.awaiting[a].month
    requires s.awaiting[a].plan in s.plans
    requires !HasRecord(s.records, s.agreements[a].member, s.plans[s.awaiting[a].plan].season)
    ensures var draft, again := B.CreateDraft(s, a, r), B.Recreate(s, s.agreements[a].member, a, true, r);
            (draft.Ok? <==> again.Ok?) && (draft.Ok? ==> again.value.records == draft.value.records)
    ensures B.Recreate(s, s.agreements[a].member, a, false, r).Err?
  {
    hide HasRecord, B.TieredRecord;
  }

  /** A move to another plan checks a given month as setting up does, but for the plan's
      being active, and stores the same month with its calendar-year count. */
  lemma MovingChecksLikeSettingUp(plan: Plan, month: string, today: Day)
    requires month != ""
    ensures var setup := A.SetupMonth(plan.(isActive := true), month, today);
            && (B.ReassignedMonth(plan, month, today).Ok? <==> setup.Ok?)
            && (setup.Ok? ==>
                  && CalendarYearCount(plan, setup.value).Ok?
                  && B.ReassignedMonth(plan, month, today).value == (setup.value, Some(CalendarYearCount(plan, setup.value).value)))
  {
    hide StrLess, B.MonthYear, SeasonStartYear, DeriveFirstBillingMonth, CalendarYearCount, NormalizeMonth;
    SameChecks(plan, month, today);
  }

  lemma SameChecks(plan: Plan, month: string, today: Day)
    ensures var q := plan.(isActive := true);
            && NormalizeMonth(q, month) == NormalizeMonth(plan, month)
            && DeriveFirstBillingMonth(q, today) == DeriveFirstBillingMonth(plan, today)
            && forall n :: CalendarYearCount(q, n) == CalendarYearCount(plan, n)
  {
    hide ParseMonth, SeasonYear, SkipMonths, BillingMonths, Amounts, Open, CountOpen, BuildEntries, AllSkipped, FirstOpen, Dated, FormatMonth;
  }

  /** A draft can be moved to a plan exactly when its month passes those checks or is left
      blank and the member has no other record of the new season. It keeps its tier and
      override, is priced anew for the saved count, and takes its agreement along. */
  lemma ReassigningExactly(s: State, r: int, p: int, month: string, today: Day)
    requires Inv(s) && r in s.records && p in s.plans
    ensures B.Reassign(s, r, p, month, today).Ok? <==>
              && s.records[r].status == RecordStatus.Draft
              && (month == "" || A.SetupMonth(s.plans[p].(isActive := true), month, today).Ok?)
              && forall q :: q != r ==> !IsRecordOf(s.records, s.records[r].member, s.plans[p].season, q)
    ensures B.Reassign(s, r, p, month, today).Ok? ==>
              var t := B.Reassign(s, r, p, month, today).value;
              && r in t.records && t == s.(records := s.records[r := t.records[r]], agreements := t.agreements)
              && var x, y, plan := s.records[r], t.records[r], s.plans[p];
              && y == x.(plan := p, season := plan.season, month := y.month, count := y.count,
                         base := y.base, discount := y.discount, final := y.final)
              && (month == "" ==> y.month == "" && y.count.None?)
              && (month != "" ==>
                    && y.month == A.SetupMonth(plan.(isActive := true), month, today).value
                    && CalendarYearCount(plan, y.month).Ok? && y.count == Some(CalendarYearCount(plan, y.month).value))
              && y.base == (if y.count.None? then plan.annual else PartialBase(plan.annual, plan.installmentCount, y.count.value))
              && y.discount == RoundHalfUp(y.base * x.percent, 100)
              && y.final == (if x.manual.Some? then x.manual.value else y.base - y.discount)
              && (x.agreement.None? ==> t.agreements == s.agreements)
              && (x.agreement.Some? ==>
                    && x.agreement.value in s.agreements
                    && t.agreements == s.agreements[x.agreement.value := s.agreements[x.agreement.value].(plan := Some(p), month := y.month)])
  {
    hide OneRecordEach, AgreementsOk, AgreementsHaveMembers, AwaitingOk, A.SetupMonth, B.ReassignedMonth, CalendarYearCount, PartialBase, RoundHalfUp,
         RowsAsScheduled, CountOk, IsRecordOf, B.Reassign;
    assert RecordOk(s.plans, s.records[r]) && Linked(s, s.records[r]);
    MoveIs(s, r, p, month, today);
    BlankMonth(s.plans[p], today);
    if month != "" {
      MovingChecksLikeSettingUp(s.plans[p], month, today);
    }
  }

  /** The move of a record without rows, spelled out for a checked month. */
  lemma MoveIs(s: State, r: int, p: int, month: string, today: Day)
    requires r in s.records && p in s.plans && (s.records[r].status == RecordStatus.Draft ==> s.records[r].rows == [])
    ensures var move, checked := B.Reassign(s, r, p, month, today), B.ReassignedMonth(s.plans[p], month, today);
            && (move.Ok? <==>
                  && s.records[r].status == RecordStatus.Draft && checked.Ok?
                  && forall q :: q != r ==> !IsRecordOf(s.records, s.records[r].member, s.plans[p].season, q))
            && (move.Ok? ==>
                  && move.value == s.(records := s.records[r := B.Reassigned(s.records[r], p, s.plans[p], checked.value.0, checked.value.1)],
                                      agreements := move.value.agreements)
                  && var linked := s.records[r].agreement;
                  && move.value.agreements == if linked.Some? && linked.value in s.agreements
                       then s.agreements[linked.value := s.agreements[linked.value].(plan := Some(p), month := checked.value.0)]
                       else s.agreements)
  {
    hide B.ReassignedMonth, B.Reassigned, IsRecordOf;
    assert !B.PushedOrSent([]);
  }

  lemma BlankMonth(plan: Plan, today: Day)
    ensures B.ReassignedMonth(plan, "", today) == Ok(("", None))
  {
  }

  /** Paying up front is one row for the whole total, due when the first of the
      installments would be; both ways are possible for the same records. */
  lemma UpfrontIsOneRow(x: Record, plan: Plan)
    requires x.rows == [] && x.final != 0
    ensures var whole, parts := B.Materialize(x.(mode := Upfront), plan), B.Materialize(x.(mode := Installments), plan);
            && (whole.Ok? <==> parts.Ok?)
            && (whole.Ok? ==>
                  && |whole.value| == 1 <= |parts.value|
                  && whole.value[0].amount == x.final && whole.value[0].due == parts.value[0].due
                  && forall i :: 0 <= i < |parts.value| ==> Unbilled(parts.value[i]) && Unbilled(whole.value[0]))
  {
    hide ParseMonth, SeasonYear, SkipMonths, BillingMonths, Amounts, Anchor, Dated, DueDate;
  }

  /** A row nobody has been told about. */
  predicate Unbilled(row: Invoice) {
    && row.externalId.None? && row.error.None? && row.sentOn.None? && row.cancelledAt.None?
    && row.status == NotPushed && row.payment == Unknown && row.action == NoAction && row.cancelStatus == NotQueued
  }

  /** An override holds through a recompute, and clearing it restores the total the record
      had, whatever the override was. */
  lemma ClearingRestoresTheTotal(s: State, r: int, total: int, reason: string, cleared: string)
    requires Inv(s) && r in s.records && s.records[r].status == RecordStatus.Draft && s.records[r].manual == None
    requires Strip(reason) != ""
    ensures B.SaveForm(s, r, Some(total), reason, RecordStatus.Draft).Ok?
    ensures var t := B.SaveForm(s, r, Some(total), reason, RecordStatus.Draft).value;
            && r in t.records && t.records[r].final == total
            && B.Recompute(t, r).Ok? && r in B.Recompute(t, r).value.records && B.Recompute(t, r).value.records[r].final == total
            && B.SaveForm(t, r, None, cleared, RecordStatus.Draft).Ok?
            && B.SaveForm(t, r, None, cleared, RecordStatus.Draft).value ==
                 s.(records := s.records[r := s.records[r].(reason := Strip(cleared))])
    ensures Strip(cleared) == "" ==> B.SaveForm(s, r, Some(total), cleared, RecordStatus.Draft).Err?
  {
    hide OneRecordEach, AllLinked, AgreementsOk, AgreementsHaveMembers, AwaitingOk, Strip, B.BaseFor, Discount, RowsAsScheduled, CountOk;
    assert RecordOk(s.plans, s.records[r]);
    var t := B.SaveForm(s, r, Some(total), reason, RecordStatus.Draft).value;
    var x, y := s.records[r], t.records[r];
    assert s.records[r := y][r := x.(reason := Strip(cleared))] == s.records[r := x.(reason := Strip(cleared))];
  }

  /** Confirming locks: confirming again and recomputing do nothing, reassigning is
      refused, and so is a form that changes the override or its reason. */
  lemma ConfirmingLocks(s: State, r: int, p: int, month: string, today: Day, manual: Option<int>, reason: string, status: RecordStatus)
    requires Inv(s) && r in s.records
    ensures B.Confirm(s, r).Ok?
    ensures var t := B.Confirm(s, r).value;
            && r in t.records && t.records[r] == s.records[r].(status := Confirmed)
            && B.Confirm(t, r) == Ok(t) && B.Recompute(t, r) == Ok(t)
            && B.Reassign(t, r, p, month, today).Err?
            && (manual != s.records[r].manual || Strip(reason) != s.records[r].reason ==> B.SaveForm(t, r, manual, reason, status).Err?)
  {
    hide OneRecordEach, AllLinked, AgreementsOk, AgreementsHaveMembers, AwaitingOk, Strip, B.ReassignedMonth, RowsAsScheduled, CountOk;
    assert RecordOk(s.plans, s.records[r]);
  }

  // ---- plans ----

  /** A staff edit sets the price and activity of one plan; the default plan cannot be
      deactivated. */
  lemma EditingPlansExactly(s: State, p: int, annual: int, isActive: bool)
    ensures B.EditPlan(s, p, annual, isActive).Ok? <==> p in s.plans && (s.defaultPlan == Some(p) ==> isActive)
    ensures B.EditPlan(s, p, annual, isActive).Ok? ==>
              var t := B.EditPlan(s, p, annual, isActive).value;
              && t == s.(plans := t.plans) && t.plans.Keys == s.plans.Keys
              && (forall q :: q in s.plans && q != p ==> t.plans[q] == s.plans[q])
              && t.plans[p] == s.plans[p].(annual := annual, isActive := isActive)
  {
  }

  predicate DefaultIsActive(s: State) {
    s.defaultPlan.Some? ==> s.defaultPlan.value in s.plans && s.plans[s.defaultPlan.value].isActive
  }

  /** So the default plan is active through every run. */
  lemma {:induction false} DefaultStaysActive(s: State, steps: seq<Step>)
    requires DefaultIsActive(s)
    ensures DefaultIsActive(Run(s, steps))
  {
    hide After;
    if steps != [] {
      var init, step := steps[..|steps| - 1], steps[|steps| - 1];
      DefaultStaysActive(s, init);
      StepKeepsDefault(Run(s, init), step);
    }
  }

  lemma StepKeepsDefault(s: State, step: Step)
    requires DefaultIsActive(s)
    ensures DefaultIsActive(After(s, step))
  {
    hide DoAgreement, DoBilling, DoInvoice;
    if Do(s, step).Ok? {
      match step
      case OnAgreement(x) => AgreementFrame(s, x);
      case OnBilling(x) =>
        BillingFrame(s, x);
        if x.EditPlan? { EditKeepsDefault(s, x); }
      case OnInvoice(x) => InvoiceFrame(s, x);
    }
  }

  lemma EditKeepsDefault(s: State, step: BillingStep)
    requires DefaultIsActive(s) && step.EditPlan? && DoBilling(s, step).Ok?
    ensures DefaultIsActive(DoBilling(s, step).value)
  {
    EditingPlansExactly(s, step.p, step.annual, step.isActive);
  }

  // ---- payments ----

  /** Money on a row protects it: once a payment was synced, no discontinuation that
      selects the row succeeds, and the sync touched nothing but that row's payment. */
  lemma PaidRowsCannotBeCancelled(s: State, id: A.InvoiceId, payment: Payment, a: int, leavesOn: Date, ids: seq<A.InvoiceId>, now: int)
    requires Inv(s) && id.record in s.records && id.index < |s.records[id.record].rows|
    requires A.RowOf(s.records, id).externalId.Some? && payment in {PartlyPaid, FullyPaid} && id in ids
    ensures var t := I.SyncPayment(s, id, payment);
            && t == s.(records := t.records) && id.record in t.records && |t.records[id.record].rows| == |s.records[id.record].rows|
            && A.RowOf(t.records, id) == A.RowOf(s.records, id).(payment := payment)
            && A.Discontinue(t, a, leavesOn, ids, now).Err?
  {
    hide Inv, RecordsOk, A.CancelAll, A.FirstRefusal, A.Selectable;
    var t := I.SyncPayment(s, id, payment);
    InvRecords(s);
    PaymentKeeps(s, id, payment);
    GrowthGives(s.plans, s.records, t.records);
    if a in t.agreements && t.agreements[a].member in t.members {
      SelectionRefusedExactly(t.plans, t.records, t.agreements[a].member, ids, now);
      var i :| 0 <= i < |ids| && ids[i] == id;
      MoneyOnIt(t.records, t.agreements[a].member, ids, i);
    }
  }

  lemma InvRecords(s: State)
    requires Inv(s)
    ensures RecordsOk(s.plans, s.records)
  {
  }

  lemma MoneyOnIt(records: map<int, Record>, m: int, ids: seq<A.InvoiceId>, i: nat)
    requires i < |ids| && ids[i].record in records && ids[i].index < |records[ids[i].record].rows|
    requires A.RowOf(records, ids[i]).payment in {PartlyPaid, FullyPaid}
    ensures A.Selectable(records, m, ids) ==> exists j :: 0 <= j < |ids| && HasMoney(A.RowOf(records, ids[j]))
  {
    assert A.Selectable(records, m, ids) ==> HasMoney(A.RowOf(records, ids[i]));
  }
}
