/** The club's lifecycle as one machine: every service call, admin action and job
    is a step, in any order, with any answers of the provider. */
module Machine {
  import opened Wrappers
  import opened Calendar
  import opened Domain
  import A = AgreementSteps
  import B = BillingSteps
  import I = InvoiceSteps

  type Day = d: Date | ValidDate(d) witness Date(1, 1, 1)

  datatype AgreementStep =
    | CreateAgreement(m: int, a: int, today: Day)
    | Regenerate(m: int, a: int, today: Day)
    | SetBillingSetup(a: int, p: int, month: string, today: Day)
    | MarkSent(a: int)
    | Sign(a: int, now: int)
    | VoidAgreement(a: int)
    | Amend(a: int, b: int)
    | Discontinue(a: int, leavesOn: Date, ids: seq<A.InvoiceId>, now: int)

  datatype BillingStep =
    | CreateDraft(a: int, r: int)
    | Backfill(m: int, r: int)
    | Recreate(m: int, a: int, confirmedAbsent: bool, r: int)
    | Renew(m: int, p: int, month: string, r: int)
    | Recompute(r: int)
    | SaveForm(r: int, manual: Option<int>, reason: string, status: RecordStatus)
    | Confirm(r: int)
    | Reassign(r: int, p: int, month: string, today: Day)
    | EditPlan(p: int, annual: int, isActive: bool)

  datatype InvoiceStep =
    | Enqueue(r: int)
    | PushButton(r: int, confirmToo: bool)
    | Push(r: int, fates: I.PushFates)
    | RunCancellation(id: A.InvoiceId, fate: I.Fate)
    | SendDue(id: A.InvoiceId, today: Date, hasEmail: bool, fate: I.Fate)
    | SyncPayment(id: A.InvoiceId, payment: Payment)
    | ArchiveClient(c: nat)

  datatype Step = OnAgreement(agreement: AgreementStep) | OnBilling(billing: BillingStep) | OnInvoice(invoice: InvoiceStep)

  ghost function DoAgreement(s: State, step: AgreementStep): Result<State> {
    match step
    case CreateAgreement(m, a, today) => A.CreateAgreement(s, m, a, today)
    case Regenerate(m, a, today) => A.Regenerate(s, m, a, today)
    case SetBillingSetup(a, p, month, today) => A.SetBillingSetup(s, a, p, month, today)
    case MarkSent(a) => A.MarkSent(s, a)
    case Sign(a, now) => A.Sign(s, a, now)
    case VoidAgreement(a) => A.VoidAgreement(s, a)
    case Amend(a, b) => A.Amend(s, a, b)
    case Discontinue(a, leavesOn, ids, now) => A.Discontinue(s, a, leavesOn, ids, now)
  }

  ghost function DoBilling(s: State, step: BillingStep): Result<State> {
    match step
    case CreateDraft(a, r) => B.CreateDraft(s, a, r)
    case Backfill(m, r) => B.Backfill(s, m, r)
    case Recreate(m, a, confirmedAbsent, r) => B.Recreate(s, m, a, confirmedAbsent, r)
    case Renew(m, p, month, r) => B.Renew(s, m, p, month, r)
    case Recompute(r) => B.Recompute(s, r)
    case SaveForm(r, manual, reason, status) => B.SaveForm(s, r, manual, reason, status)
    case Confirm(r) => B.Confirm(s, r)
    case Reassign(r, p, month, today) => B.Reassign(s, r, p, month, today)
    case EditPlan(p, annual, isActive) => B.EditPlan(s, p, annual, isActive)
  }

  function DoInvoice(s: State, step: InvoiceStep): Result<State> {
    match step
    case Enqueue(r) => Ok(I.Enqueue(s, r))
    case PushButton(r, confirmToo) => I.PushButton(s, r, confirmToo)
    case Push(r, fates) => Ok(I.Push(s, r, fates))
    case RunCancellation(id, fate) => Ok(I.RunCancellation(s, id, fate))
    case SendDue(id, today, hasEmail, fate) => Ok(I.SendDue(s, id, today, hasEmail, fate))
    case SyncPayment(id, payment) => Ok(I.SyncPayment(s, id, payment))
    case ArchiveClient(c) => Ok(I.ArchiveClient(s, c))
  }

  ghost function Do(s: State, step: Step): Result<State> {
    match step
    case OnAgreement(x) => DoAgreement(s, x)
    case OnBilling(x) => DoBilling(s, x)
    case OnInvoice(x) => DoInvoice(s, x)
  }

  /** A refused step leaves everything as it was. */
  ghost function After(s: State, step: Step): State {
    var r := Do(s, step);
    if r.Ok? then r.value else s
  }

  ghost function Run(s: State, steps: seq<Step>): State {
    if steps == [] then s
    else After(Run(s, steps[..|steps| - 1]), steps[|steps| - 1])
  }

  /** The form edit that takes a confirmed record back to draft. */
  predicate Unlocks(s: State, step: Step) {
    && step.OnBilling? && step.billing.SaveForm? && step.billing.status == RecordStatus.Draft
    && step.billing.r in s.records && s.records[step.billing.r].status == Confirmed
  }

  ghost predicate Locked(s: State, steps: seq<Step>) {
    steps != [] ==>
      Locked(s, steps[..|steps| - 1]) && !Unlocks(Run(s, steps[..|steps| - 1]), steps[|steps| - 1])
  }

  /** Plans and members as staff entered them, nothing agreed or billed yet. */
  predicate Initial(s: State) {
    && s.agreements == map[] && s.awaiting == map[] && s.records == map[] && s.clientIds == map[]
    && s.remote == Remote([], [])
  }

  // ---- which tables a step can touch ----

  predicate OnlyInvoicing(s: State, t: State) {
    t.plans == s.plans && t.defaultPlan == s.defaultPlan && t.members == s.members && t.agreements == s.agreements && t.awaiting == s.awaiting
  }

  lemma PushFrame(s: State, r: int, fates: I.PushFates)
    ensures OnlyInvoicing(s, I.Push(s, r, fates))
  {
    hide I.PushToProvider;
  }

  lemma CancellationFrame(s: State, id: A.InvoiceId, fate: I.Fate)
    ensures OnlyInvoicing(s, I.RunCancellation(s, id, fate))
  {
  }

  lemma ButtonFrame(s: State, r: int, confirmToo: bool)
    ensures OnlyInvoicing(s, I.Enqueue(s, r))
    ensures I.PushButton(s, r, confirmToo).Ok? ==> OnlyInvoicing(s, I.PushButton(s, r, confirmToo).value)
  {
  }

  lemma RowJobFrame(s: State, id: A.InvoiceId, today: Date, hasEmail: bool, fate: I.Fate, payment: Payment)
    ensures OnlyInvoicing(s, I.SendDue(s, id, today, hasEmail, fate))
    ensures OnlyInvoicing(s, I.SyncPayment(s, id, payment))
  {
    hide I.SendRow, A.RowOf;
  }

  lemma InvoiceFrame(s: State, step: InvoiceStep)
    requires DoInvoice(s, step).Ok?
    ensures OnlyInvoicing(s, DoInvoice(s, step).value)
  {
    hide I.Push, I.RunCancellation, I.Enqueue, I.PushButton, I.SendDue, I.SyncPayment;
    match step
    case Enqueue(r) => ButtonFrame(s, r, false);
    case PushButton(r, confirmToo) => ButtonFrame(s, r, confirmToo);
    case Push(r, fates) => PushFrame(s, r, fates);
    case RunCancellation(id, fate) => CancellationFrame(s, id, fate);
    case SendDue(id, today, hasEmail, fate) => RowJobFrame(s, id, today, hasEmail, fate, Unknown);
    case SyncPayment(id, payment) => RowJobFrame(s, id, Date(1, 1, 1), false, I.Answers, payment);
    case ArchiveClient(c) =>
  }

  /** Drafting, renewing and recreating add at most one record. */
  lemma NewRecordFrame(s: State, step: BillingStep)
    requires DoBilling(s, step).Ok? && (step.CreateDraft? || step.Backfill? || step.Recreate? || step.Renew?)
    ensures var t := DoBilling(s, step).value;
            && t == s.(records := t.records, awaiting := t.awaiting)
            && (!step.CreateDraft? ==> t.awaiting == s.awaiting)
  {
    hide B.TieredRecord, HasRecord, B.SnapshotPercent, B.FirstDue, B.NewRecord;
  }

  lemma BillingFrame(s: State, step: BillingStep)
    requires DoBilling(s, step).Ok?
    ensures var t := DoBilling(s, step).value;
            && t.members == s.members && t.clientIds == s.clientIds && t.remote == s.remote && t.defaultPlan == s.defaultPlan
            && (!step.EditPlan? ==> t.plans == s.plans)
            && (step.EditPlan? ==> t.records == s.records)
            && (!step.Reassign? ==> t.agreements == s.agreements)
            && (!step.CreateDraft? ==> t.awaiting == s.awaiting)
  {
    hide B.CreateDraft, B.Backfill, B.Recreate, B.Renew;
    hide B.ReassignedMonth, B.BaseFor, B.Rebased, B.Reassigned, B.PushedOrSent;
    if step.CreateDraft? || step.Backfill? || step.Recreate? || step.Renew? {
      NewRecordFrame(s, step);
    }
  }

  lemma AgreementFrame(s: State, step: AgreementStep)
    requires DoAgreement(s, step).Ok?
    ensures var t := DoAgreement(s, step).value;
            && t.plans == s.plans && t.defaultPlan == s.defaultPlan && t.clientIds == s.clientIds && t.remote == s.remote
            && (!step.Discontinue? ==> t.records == s.records && t.members == s.members)
            && (!step.Sign? ==> t.awaiting == s.awaiting)
  {
    hide A.DefaultSetup, CurrentOf, A.SetupMonth, A.SignGuard, A.CancelSelection;
  }
}
