/** Foreign keys and the one-record-per-season constraint along every step. */
module Links {
  import opened Wrappers
  import opened Calendar
  import opened Schedule
  import opened Domain
  import opened RecordLife
  import opened AgreementLife
  import opened RecordRuns
  import A = AgreementSteps
  import B = BillingSteps
  import I = InvoiceSteps
  import opened Machine

  predicate Linked(s: State, x: Record) {
    && x.member in s.members
    && (x.agreement.Some? ==> x.agreement.value in s.agreements && s.agreements[x.agreement.value].member == x.member)
  }

  ghost predicate MembersLater(x: map<int, Member>, y: map<int, Member>) {
    && (forall m :: m in x <==> m in y)
    && (forall m :: m in x ==> y[m] == x[m].(discontinued := y[m].discontinued, leavesOn := y[m].leavesOn))
  }

  // ---- new records ----

  /** At most one record is added, properly linked, for a season its member lacked. */
  ghost predicate AddsOne(s: State, t: State) {
    t.records == s.records ||
    exists r, y :: r !in s.records && t.records == s.records[r := y] && Linked(s, y) && y.rows == [] && !HasRecord(s.records, y.member, y.season)
  }

  lemma WriteAddsOne(s: State, t: State, r: int, y: Record)
    requires r !in s.records && t.records == s.records[r := y] && Linked(s, y) && y.rows == [] && !HasRecord(s.records, y.member, y.season)
    ensures AddsOne(s, t)
  {
    hide Linked, HasRecord;
  }

  lemma DraftAddsOne(s: State, a: int, r: int)
    requires B.CreateDraft(s, a, r).Ok?
    ensures AddsOne(s, B.CreateDraft(s, a, r).value)
  {
    hide AddsOne, HasRecord, B.SnapshotPercent, B.FirstDue, B.BaseFor;
    var m, intent := s.agreements[a].member, s.awaiting[a];
    if !HasRecord(s.records, m, s.plans[intent.plan].season) {
      WriteAddsOne(s, B.CreateDraft(s, a, r).value, r, B.TieredRecord(s, m, intent.plan, a, intent.month).value);
    } else {
      UnchangedAddsOne(s, B.CreateDraft(s, a, r).value);
    }
  }

  lemma UnchangedAddsOne(s: State, t: State)
    requires t.records == s.records
    ensures AddsOne(s, t)
  {
  }

  lemma BackfillAddsOne(s: State, m: int, r: int)
    requires B.Backfill(s, m, r).Ok?
    ensures AddsOne(s, B.Backfill(s, m, r).value)
  {
    hide AddsOne, HasRecord;
    var t := B.Backfill(s, m, r).value;
    if t.records == s.records {
      UnchangedAddsOne(s, t);
    } else {
      WriteAddsOne(s, t, r, t.records[r]);
    }
  }

  lemma RecreateAddsOne(s: State, m: int, a: int, absent: bool, r: int)
    requires B.Recreate(s, m, a, absent, r).Ok?
    ensures AddsOne(s, B.Recreate(s, m, a, absent, r).value)
  {
    hide AddsOne, HasRecord, B.SnapshotPercent, B.FirstDue, B.BaseFor;
    WriteAddsOne(s, B.Recreate(s, m, a, absent, r).value, r, B.TieredRecord(s, m, s.agreements[a].plan.value, a, s.agreements[a].month).value);
  }

  lemma RenewAddsOne(s: State, m: int, p: int, month: string, r: int)
    requires B.Renew(s, m, p, month, r).Ok?
    ensures AddsOne(s, B.Renew(s, m, p, month, r).value)
  {
    hide AddsOne, HasRecord, B.SnapshotPercent, B.FirstDue, B.BaseFor;
    var t := B.Renew(s, m, p, month, r).value;
    if t == s {
      UnchangedAddsOne(s, t);
    } else {
      WriteAddsOne(s, t, r, t.records[r]);
    }
  }

  // ---- changed records ----

  /** The records are the same ones, for the same members and seasons. */
  ghost predicate SameSeasons(x: map<int, Record>, y: map<int, Record>) {
    && (forall r :: r in x <==> r in y)
    && (forall r :: r in x ==> y[r].member == x[r].member && y[r].season == x[r].season && y[r].agreement == x[r].agreement)
  }

  lemma WriteSeasons(x: map<int, Record>, r: int, y: Record)
    requires r in x && y.member == x[r].member && y.season == x[r].season && y.agreement == x[r].agreement
    ensures SameSeasons(x, x[r := y]) && SameSeasons(x, x)
  {
  }

  lemma PushSeasons(s: State, r: int, fates: I.PushFates)
    ensures SameSeasons(s.records, I.Push(s, r, fates).records)
  {
    hide I.PushToProvider, SameSeasons;
    if r in s.records {
      WriteSeasons(s.records, r, s.records[r]);
      var t := I.Push(s, r, fates);
      WriteSeasons(s.records, r, t.records[r]);
    } else {
      UnchangedSeasons(s.records);
    }
  }

  lemma UnchangedSeasons(x: map<int, Record>)
    ensures SameSeasons(x, x)
  {
  }

  lemma ButtonSeasons(s: State, r: int, confirmToo: bool)
    requires I.PushButton(s, r, confirmToo).Ok?
    ensures SameSeasons(s.records, I.PushButton(s, r, confirmToo).value.records)
  {
    hide SameSeasons;
    var t := I.PushButton(s, r, confirmToo).value;
    WriteSeasons(s.records, r, t.records[r]);
    assert t.records == s.records[r := t.records[r]];
  }

  lemma RowWriteSeasons(s: State, id: A.InvoiceId, row: Invoice)
    requires id.record in s.records && id.index < |s.records[id.record].rows|
    ensures SameSeasons(s.records, I.WithRow(s, id, row).records)
  {
    hide SameSeasons;
    var x := s.records[id.record];
    WriteSeasons(s.records, id.record, x.(rows := x.rows[id.index := row]));
  }

  lemma CancellationSeasons(s: State, id: A.InvoiceId, fate: I.Fate)
    ensures SameSeasons(s.records, I.RunCancellation(s, id, fate).records)
  {
    hide SameSeasons;
    UnchangedSeasons(s.records);
    if id.record in s.records && id.index < |s.records[id.record].rows| {
      var row := A.RowOf(s.records, id);
      RowWriteSeasons(s, id, row.(cancelStatus := CancelDone));
      RowWriteSeasons(s, id, row.(cancelStatus := CancelFailed));
    }
  }

  lemma SendSeasons(s: State, id: A.InvoiceId, today: Date, hasEmail: bool, fate: I.Fate)
    ensures SameSeasons(s.records, I.SendDue(s, id, today, hasEmail, fate).records)
  {
    hide SameSeasons, I.SendRow, I.DueToSend;
    UnchangedSeasons(s.records);
    if id.record in s.records && id.index < |s.records[id.record].rows| {
      RowWriteSeasons(s, id, I.SendRow(A.RowOf(s.records, id), today, hasEmail, fate));
    }
  }

  lemma RowJobSeasons(s: State, step: InvoiceStep)
    requires (step.RunCancellation? || step.SendDue? || step.SyncPayment?) && DoInvoice(s, step).Ok?
    ensures SameSeasons(s.records, DoInvoice(s, step).value.records)
  {
    hide SameSeasons, I.WithRow, A.RowOf, I.RunCancellation, I.SendDue;
    UnchangedSeasons(s.records);
    var id := step.id;
    if step.RunCancellation? {
      CancellationSeasons(s, id, step.fate);
    } else if step.SendDue? {
      SendSeasons(s, id, step.today, step.hasEmail, step.fate);
    } else if id.record in s.records && id.index < |s.records[id.record].rows| {
      RowWriteSeasons(s, id, A.RowOf(s.records, id).(payment := step.payment));
    }
  }

  lemma InvoiceSeasons(s: State, step: InvoiceStep)
    requires DoInvoice(s, step).Ok?
    ensures SameSeasons(s.records, DoInvoice(s, step).value.records)
  {
    hide SameSeasons, I.Push, I.PushButton, I.RunCancellation, I.SendDue, I.SyncPayment;
    UnchangedSeasons(s.records);
    match step
    case Push(r, fates) => PushSeasons(s, r, fates);
    case PushButton(r, confirmToo) => ButtonSeasons(s, r, confirmToo);
    case Enqueue(r) => if r in s.records { WriteSeasons(s.records, r, I.Enqueue(s, r).records[r]); }
    case ArchiveClient(c) =>
    case _ => RowJobSeasons(s, step);
  }

  lemma DiscontinueSeasons(s: State, a: int, leavesOn: Date, ids: seq<A.InvoiceId>, now: int)
    requires A.Discontinue(s, a, leavesOn, ids, now).Ok?
    ensures SameSeasons(s.records, A.Discontinue(s, a, leavesOn, ids, now).value.records)
  {
    hide A.CancelAll, A.FirstRefusal;
    CancelAllExact(s.records, s.agreements[a].member, ids, now);
  }

  lemma ChangedSeasons(s: State, step: BillingStep)
    requires DoBilling(s, step).Ok? && (step.Recompute? || step.SaveForm? || step.Confirm? || step.EditPlan?)
    ensures SameSeasons(s.records, DoBilling(s, step).value.records)
  {
    hide B.BaseFor, SameSeasons;
    UnchangedSeasons(s.records);
    if !step.EditPlan? {
      WriteSeasons(s.records, step.r, DoBilling(s, step).value.records[step.r]);
    }
  }

  // ---- uniqueness ----

  lemma SameSeasonsKeepOne(x: map<int, Record>, y: map<int, Record>)
    requires OneRecordEach(x) && SameSeasons(x, y)
    ensures OneRecordEach(y)
  {
    assert forall m, season, r :: IsRecordOf(y, m, season, r) <==> IsRecordOf(x, m, season, r);
  }

  lemma AddingKeepsOne(s: State, t: State)
    requires OneRecordEach(s.records) && AddsOne(s, t)
    ensures OneRecordEach(t.records)
  {
    if t.records != s.records {
      var r, y :| r !in s.records && t.records == s.records[r := y] && !HasRecord(s.records, y.member, y.season);
      forall m, season, q | q != r && IsRecordOf(t.records, m, season, q) ensures IsRecordOf(s.records, m, season, q) {
      }
    }
  }

  lemma MovingKeepsOne(records: map<int, Record>, r: int, y: Record)
    requires OneRecordEach(records) && r in records && y.member == records[r].member
    requires !exists q :: q != r && IsRecordOf(records, y.member, y.season, q)
    ensures OneRecordEach(records[r := y])
  {
    var t := records[r := y];
    forall m, season, q | q != r && IsRecordOf(t, m, season, q)
      ensures IsRecordOf(records, m, season, q) && !(m == y.member && season == y.season)
    {
      assert IsRecordOf(records, m, season, q);
    }
  }

  lemma ReassignKeepsOne(s: State, r: int, p: int, month: string, today: Day)
    requires OneRecordEach(s.records) && B.Reassign(s, r, p, month, today).Ok?
    ensures OneRecordEach(B.Reassign(s, r, p, month, today).value.records)
  {
    hide B.ReassignedMonth, B.PushedOrSent, B.BaseFor, OneRecordEach, IsRecordOf;
    var (n, count) := B.ReassignedMonth(s.plans[p], month, today).value;
    MovingKeepsOne(s.records, r, B.Reassigned(s.records[r], p, s.plans[p], n, count));
  }

  /** Every step keeps at most one record per member and season. */
  lemma StepKeepsOneRecordEach(s: State, step: Step)
    requires OneRecordEach(s.records)
    ensures OneRecordEach(After(s, step).records)
  {
    hide OneRecordEach, SameSeasons, DoAgreement, DoBilling, DoInvoice;
    if Do(s, step).Ok? {
      match step
      case OnAgreement(x) =>
        AgreementFrame(s, x);
        if x.Discontinue? {
          DiscontinueStepSeasons(s, x);
          SameSeasonsKeepOne(s.records, After(s, step).records);
        }
      case OnBilling(x) => BillingKeepsOne(s, x);
      case OnInvoice(x) =>
        InvoiceSeasons(s, x);
        SameSeasonsKeepOne(s.records, After(s, step).records);
    }
  }

  lemma DiscontinueStepSeasons(s: State, step: AgreementStep)
    requires step.Discontinue? && DoAgreement(s, step).Ok?
    ensures SameSeasons(s.records, DoAgreement(s, step).value.records)
  {
    hide SameSeasons, A.Discontinue;
    DiscontinueSeasons(s, step.a, step.leavesOn, step.ids, step.now);
  }

  predicate AddsRecord(step: BillingStep) {
    step.CreateDraft? || step.Backfill? || step.Recreate? || step.Renew?
  }

  lemma NewRecordStep(s: State, step: BillingStep)
    requires DoBilling(s, step).Ok? && AddsRecord(step)
    ensures AddsOne(s, DoBilling(s, step).value)
  {
    hide AddsOne, B.CreateDraft, B.Backfill, B.Recreate, B.Renew;
    match step
    case CreateDraft(a, r) => DraftAddsOne(s, a, r);
    case Backfill(m, r) => BackfillAddsOne(s, m, r);
    case Recreate(m, a, absent, r) => RecreateAddsOne(s, m, a, absent, r);
    case Renew(m, p, month, r) => RenewAddsOne(s, m, p, month, r);
  }

  lemma BillingKeepsOne(s: State, step: BillingStep)
    requires OneRecordEach(s.records) && DoBilling(s, step).Ok?
    ensures OneRecordEach(DoBilling(s, step).value.records)
  {
    hide OneRecordEach, SameSeasons, AddsOne, B.CreateDraft, B.Backfill, B.Recreate, B.Renew, B.Recompute, B.SaveForm, B.Confirm, B.Reassign, B.EditPlan;
    if AddsRecord(step) {
      NewRecordStep(s, step);
      AddingKeepsOne(s, DoBilling(s, step).value);
    } else if step.Reassign? {
      ReassignKeepsOne(s, step.r, step.p, step.month, step.today);
    } else {
      ChangedSeasons(s, step);
      SameSeasonsKeepOne(s.records, DoBilling(s, step).value.records);
    }
  }

  // ---- foreign keys ----

  ghost predicate SameRecordKeys(x: map<int, Record>, y: map<int, Record>) {
    forall r :: r in x <==> r in y
  }

  lemma ReassignKeys(s: State, r: int, p: int, month: string, today: Day)
    requires B.Reassign(s, r, p, month, today).Ok?
    ensures SameRecordKeys(s.records, B.Reassign(s, r, p, month, today).value.records)
  {
    hide B.ReassignedMonth, B.PushedOrSent, B.Reassigned;
  }

  /** A step adds at most one record, and only a properly linked one. */
  lemma StepRecordKeys(s: State, step: Step)
    ensures var t := After(s, step);
            AddsOne(s, t) || SameRecordKeys(s.records, t.records)
  {
    hide AddsOne, DoAgreement, DoBilling, DoInvoice;
    if Do(s, step).Ok? {
      match step
      case OnAgreement(x) =>
        AgreementFrame(s, x);
        if x.Discontinue? {
          DiscontinueStepSeasons(s, x);
        }
      case OnInvoice(x) => InvoiceSeasons(s, x);
      case OnBilling(x) =>
        if AddsRecord(x) {
          NewRecordStep(s, x);
        } else if x.Reassign? {
          ReassignStepKeys(s, x);
        } else {
          ChangedSeasons(s, x);
        }
    }
  }

  lemma ReassignStepKeys(s: State, step: BillingStep)
    requires step.Reassign? && DoBilling(s, step).Ok?
    ensures SameRecordKeys(s.records, DoBilling(s, step).value.records)
  {
    hide SameRecordKeys, B.Reassign;
    ReassignKeys(s, step.r, step.p, step.month, step.today);
  }

  lemma RecordLinksLater(s: State, t: State)
    requires forall r :: r in s.records ==> Linked(s, s.records[r])
    requires RecordsLater(s.records, t.records) && AgreementsLater(s.agreements, t.agreements) && MembersLater(s.members, t.members)
    requires AddsOne(s, t) || SameRecordKeys(s.records, t.records)
    ensures forall r :: r in t.records ==> Linked(t, t.records[r])
  {
    hide AgreementLater, RecordLater;
    forall r | r in t.records ensures Linked(t, t.records[r]) {
      if r in s.records {
        SameOwner(s.records[r], t.records[r]);
        LinkedLater(s, t, s.records[r], t.records[r]);
      } else {
        assert AddsOne(s, t);
        LinkedLater(s, t, t.records[r], t.records[r]);
      }
    }
  }

  lemma SameOwner(x: Record, y: Record)
    requires RecordLater(x, y)
    ensures y.member == x.member && y.agreement == x.agreement
  {
  }

  lemma LinkedLater(s: State, t: State, x: Record, y: Record)
    requires Linked(s, x) && y.member == x.member && y.agreement == x.agreement
    requires AgreementsLater(s.agreements, t.agreements) && MembersLater(s.members, t.members)
    ensures Linked(t, y)
  {
    if x.agreement.Some? {
      var a := x.agreement.value;
      assert AgreementLater(s.agreements[a], t.agreements[a]);
    }
  }

  ghost predicate AgreementsHaveMembers(s: State) {
    forall a :: a in s.agreements ==> s.agreements[a].member in s.members
  }

  lemma CreateMembers(s: State, m: int, a: int, today: Day)
    requires AgreementsHaveMembers(s) && A.CreateAgreement(s, m, a, today).Ok?
    ensures AgreementsHaveMembers(A.CreateAgreement(s, m, a, today).value)
  {
    hide A.DefaultSetup;
    var current := CurrentOf(s.agreements, m);
    if current.Some? {
      assert IsCurrent(s.agreements, m, current.value);
    }
  }

  lemma SameMembers(members: map<int, Member>)
    ensures MembersLater(members, members)
  {
  }

  lemma RewriteMembers(s: State, step: AgreementStep)
    requires AgreementsHaveMembers(s) && DoAgreement(s, step).Ok? && !step.CreateAgreement? && !step.Regenerate?
    ensures var t := DoAgreement(s, step).value;
            AgreementsHaveMembers(t) && MembersLater(s.members, t.members)
  {
    hide A.SetupMonth, NormalizeMonth, SeasonStartYear, B.MonthYear, A.CancelSelection, MembersLater;
    SameMembers(s.members);
    if step.Discontinue? {
      LeavingMember(s.members, s.agreements[step.a].member, step.leavesOn);
    } else if step.Amend? {
      assert s.agreements[step.a].member in s.members;
    }
  }

  lemma LeavingMember(members: map<int, Member>, m: int, leavesOn: Date)
    requires m in members
    ensures MembersLater(members, members[m := members[m].(discontinued := true, leavesOn := Some(leavesOn))])
  {
  }

  lemma MembersOfAgreements(s: State, step: AgreementStep)
    requires AgreementsHaveMembers(s) && DoAgreement(s, step).Ok?
    ensures var t := DoAgreement(s, step).value;
            AgreementsHaveMembers(t) && MembersLater(s.members, t.members)
  {
    hide A.CreateAgreement, AgreementsHaveMembers, MembersLater;
    if step.CreateAgreement? || step.Regenerate? {
      CreateMembers(s, step.m, step.a, step.today);
      SameMembers(s.members);
      CreateKeepsMembers(s, step.m, step.a, step.today);
    } else {
      RewriteMembers(s, step);
    }
  }

  lemma CreateKeepsMembers(s: State, m: int, a: int, today: Day)
    requires A.CreateAgreement(s, m, a, today).Ok?
    ensures A.CreateAgreement(s, m, a, today).value.members == s.members
  {
    hide A.DefaultSetup, CurrentOf;
  }

  lemma MembersOfReassigned(s: State, step: BillingStep)
    requires AgreementsHaveMembers(s) && DoBilling(s, step).Ok?
    ensures AgreementsHaveMembers(DoBilling(s, step).value)
  {
    hide DoBilling;
    BillingFrame(s, step);
    if step.Reassign? {
      MembersAfterReassign(s, step);
    }
  }

  lemma MembersAfterReassign(s: State, step: BillingStep)
    requires AgreementsHaveMembers(s) && DoBilling(s, step).Ok? && step.Reassign?
    ensures AgreementsHaveMembers(DoBilling(s, step).value)
  {
    hide B.ReassignedMonth, B.PushedOrSent, B.Reassigned;
  }

  lemma StepKeepsMembers(s: State, step: Step)
    requires AgreementsHaveMembers(s)
    ensures AgreementsHaveMembers(After(s, step)) && MembersLater(s.members, After(s, step).members)
  {
    hide DoAgreement, DoBilling, DoInvoice;
    if Do(s, step).Ok? {
      match step
      case OnAgreement(x) => MembersOfAgreements(s, x);
      case OnBilling(x) =>
        MembersOfReassigned(s, x);
        BillingFrame(s, x);
      case OnInvoice(x) => InvoiceFrame(s, x);
    }
  }

  // ---- captured intents ----

  lemma AwaitingLater(s: State, t: State)
    requires AwaitingOk(s) && AgreementsLater(s.agreements, t.agreements) && PlansLater(s.plans, t.plans)
    requires forall a :: a in t.awaiting ==> a in s.awaiting && t.awaiting[a] == s.awaiting[a]
    ensures AwaitingOk(t)
  {
    hide AgreementLater, SetupOk, SameGeometry;
    forall a | a in t.awaiting ensures IntentOk(t.plans, t.agreements, a, t.awaiting[a]) {
      var intent := s.awaiting[a];
      assert IntentOk(s.plans, s.agreements, a, intent);
      SignedLater(s.agreements[a], t.agreements[a]);
      SetupLater(s.plans, t.plans, Some(intent.plan), intent.month);
    }
  }

  lemma SignedLater(x: Agreement, y: Agreement)
    requires AgreementLater(x, y) && x.signedAt.Some?
    ensures y.signedAt.Some?
  {
  }

  lemma SetupLater(p: map<int, Plan>, q: map<int, Plan>, plan: Option<int>, month: string)
    requires SetupOk(p, plan, month) && PlansLater(p, q)
    ensures SetupOk(q, plan, month)
  {
    hide MonthOk;
    if plan.Some? {
      var k := plan.value;
      SameMonths(p[k], q[k], month);
    }
  }

  lemma SameMonths(p: Plan, q: Plan, month: string)
    requires SameGeometry(p, q)
    ensures MonthOk(p, month) <==> MonthOk(q, month)
  {
    hide ParseMonth, Open;
  }

  lemma SignedIntentOk(s: State, a: int, now: int)
    requires AgreementsOk(s.plans, s.agreements) && A.Sign(s, a, now).Ok?
    ensures var t := A.Sign(s, a, now).value;
            && a in t.awaiting && IntentOk(t.plans, t.agreements, a, t.awaiting[a])
            && t.awaiting == s.awaiting[a := t.awaiting[a]] && t.plans == s.plans
  {
    hide MonthOk, OneCurrent, B.MonthYear, NormalizeMonth, SeasonStartYear;
    assert AgreementOk(s.plans, s.agreements[a]);
  }

  lemma SignKeepsAwaiting(s: State, a: int, now: int)
    requires AwaitingOk(s) && AgreementsOk(s.plans, s.agreements) && A.Sign(s, a, now).Ok?
    requires AgreementsLater(s.agreements, A.Sign(s, a, now).value.agreements)
    ensures AwaitingOk(A.Sign(s, a, now).value)
  {
    hide SetupOk, AgreementsOk, A.Sign, AgreementLater;
    var t := A.Sign(s, a, now).value;
    SignedIntentOk(s, a, now);
    forall b | b in t.awaiting ensures IntentOk(t.plans, t.agreements, b, t.awaiting[b]) {
      if b != a {
        assert IntentOk(s.plans, s.agreements, b, s.awaiting[b]);
        SignedLater(s.agreements[b], t.agreements[b]);
      }
    }
  }

  /** Every step keeps each captured intent tied to a signed agreement and a month
      of its plan, for as long as it waits. */
  lemma StepKeepsAwaiting(s: State, step: Step)
    requires AwaitingOk(s) && AgreementsOk(s.plans, s.agreements)
    requires AgreementsLater(s.agreements, After(s, step).agreements) && PlansLater(s.plans, After(s, step).plans)
    ensures AwaitingOk(After(s, step))
  {
    hide DoAgreement, DoBilling, DoInvoice, AgreementsOk, AgreementLater, SameGeometry, AwaitingOk;
    var t := After(s, step);
    if Do(s, step).Ok? {
      match step
      case OnAgreement(x) =>
        AgreementFrame(s, x);
        if x.Sign? { SignStepKeepsAwaiting(s, x); } else { AwaitingLater(s, t); }
      case OnBilling(x) =>
        BillingFrame(s, x);
        if x.CreateDraft? { DraftAwaiting(s, x); }
        AwaitingLater(s, t);
      case OnInvoice(x) =>
        InvoiceFrame(s, x);
        AwaitingLater(s, t);
    }
  }

  lemma SignStepKeepsAwaiting(s: State, step: AgreementStep)
    requires AwaitingOk(s) && AgreementsOk(s.plans, s.agreements) && step.Sign? && DoAgreement(s, step).Ok?
    requires AgreementsLater(s.agreements, DoAgreement(s, step).value.agreements)
    ensures AwaitingOk(DoAgreement(s, step).value)
  {
    hide AwaitingOk, AgreementsOk, A.Sign, AgreementLater;
    SignKeepsAwaiting(s, step.a, step.now);
  }

  lemma DraftAwaiting(s: State, step: BillingStep)
    requires step.CreateDraft? && DoBilling(s, step).Ok?
    ensures var t := DoBilling(s, step).value;
            forall a :: a in t.awaiting ==> a in s.awaiting && t.awaiting[a] == s.awaiting[a]
  {
    hide HasRecord, B.TieredRecord;
  }
}
