/** Every step keeps every billing record in order. */
module RecordRuns {
  import opened Wrappers
  import opened Text
  import opened Calendar
  import opened Schedule
  import opened Domain
  import opened RecordLife
  import opened AgreementLife
  import A = AgreementSteps
  import B = BillingSteps
  import I = InvoiceSteps
  import opened Machine

  /** What a signing captured is still there, and its month is one of its plan. */
  predicate IntentOk(plans: map<int, Plan>, agreements: map<int, Agreement>, a: int, intent: Intent) {
    && a in agreements && agreements[a].signedAt.Some?
    && SetupOk(plans, Some(intent.plan), intent.month)
  }

  ghost predicate AwaitingOk(s: State) {
    forall a :: a in s.awaiting ==> IntentOk(s.plans, s.agreements, a, s.awaiting[a])
  }

  // ---- new records ----

  lemma TieredRecordOk(s: State, m: int, p: int, a: int, month: string)
    requires m in s.members && p in s.plans && SetupOk(s.plans, Some(p), month)
    requires B.TieredRecord(s, m, p, a, month).Ok?
    ensures RecordOk(s.plans, B.TieredRecord(s, m, p, a, month).value)
    ensures BasedOn(s.plans, B.TieredRecord(s, m, p, a, month).value)
  {
    hide MonthOk, CalendarYearCount, RecordOk, B.NewRecord, B.SnapshotPercent, B.FirstDue;
    var plan := s.plans[p];
    var percent := B.SnapshotPercent(s, Some(plan.season), B.FirstDue(plan, month).value, m);
    var count := if month == "" then None else Some(CalendarYearCount(plan, month).value);
    NewRecordOk(s.plans, m, s.members[m], p, Some(a), month, count, percent);
  }

  lemma DraftKeeps(s: State, a: int, r: int)
    requires RecordsOk(s.plans, s.records) && AwaitingOk(s) && B.CreateDraft(s, a, r).Ok?
    ensures TableGrows(s.plans, s.records, B.CreateDraft(s, a, r).value.records)
  {
    hide RecordsOk, TableGrows, B.TieredRecord, HasRecord, RecordOk, SetupOk, RecordLater;
    SameTable(s.plans, s.records);
    var m, intent := s.agreements[a].member, s.awaiting[a];
    assert IntentOk(s.plans, s.agreements, a, intent);
    if !HasRecord(s.records, m, s.plans[intent.plan].season) {
      TieredRecordOk(s, m, intent.plan, a, intent.month);
      WriteGrows(s.plans, s.records, r, B.TieredRecord(s, m, intent.plan, a, intent.month).value);
    }
  }

  lemma BackfillKeeps(s: State, m: int, r: int)
    requires RecordsOk(s.plans, s.records) && B.Backfill(s, m, r).Ok?
    ensures TableGrows(s.plans, s.records, B.Backfill(s, m, r).value.records)
  {
    hide RecordsOk, TableGrows, B.NewRecord, HasRecord, RecordOk, RecordLater;
    SameTable(s.plans, s.records);
    var t := B.Backfill(s, m, r).value;
    if t != s {
      var p :| B.IsLatestActive(s.plans, p) && t.records == s.records[r := B.NewRecord(m, s.members[m], p, s.plans[p], None, "", None, 0)] && r !in s.records;
      NewRecordOk(s.plans, m, s.members[m], p, None, "", None, 0);
      WriteGrows(s.plans, s.records, r, B.NewRecord(m, s.members[m], p, s.plans[p], None, "", None, 0));
    }
  }

  lemma RecreateKeeps(s: State, m: int, a: int, absent: bool, r: int)
    requires RecordsOk(s.plans, s.records) && AgreementsOk(s.plans, s.agreements) && B.Recreate(s, m, a, absent, r).Ok?
    ensures TableGrows(s.plans, s.records, B.Recreate(s, m, a, absent, r).value.records)
  {
    hide RecordsOk, TableGrows, B.TieredRecord, HasRecord, RecordOk, RecordLater, OneCurrent, MonthOk;
    var x := s.agreements[a];
    assert AgreementOk(s.plans, x);
    TieredRecordOk(s, m, x.plan.value, a, x.month);
    WriteGrows(s.plans, s.records, r, B.TieredRecord(s, m, x.plan.value, a, x.month).value);
  }

  lemma RenewKeeps(s: State, m: int, p: int, month: string, r: int)
    requires RecordsOk(s.plans, s.records) && B.Renew(s, m, p, month, r).Ok?
    ensures TableGrows(s.plans, s.records, B.Renew(s, m, p, month, r).value.records)
  {
    hide RecordsOk, TableGrows, B.NewRecord, HasRecord, RecordOk, RecordLater, B.SnapshotPercent, B.FirstDue, ParseMonth;
    SameTable(s.plans, s.records);
    if !HasRecord(s.records, m, s.plans[p].season) {
      var percent := B.SnapshotPercent(s, None, B.FirstDue(s.plans[p], month).value, m);
      NewRecordOk(s.plans, m, s.members[m], p, CurrentOf(s.agreements, m), month, None, percent);
      WriteGrows(s.plans, s.records, r, B.NewRecord(m, s.members[m], p, s.plans[p], CurrentOf(s.agreements, m), month, None, percent));
    }
  }

  // ---- changed records ----

  lemma RecomputeKeeps(s: State, r: int)
    requires RecordsOk(s.plans, s.records) && B.Recompute(s, r).Ok?
    ensures TableGrows(s.plans, s.records, B.Recompute(s, r).value.records)
  {
    hide TableGrows, RecordOk, RecordLater, B.BaseFor, B.Rebased;
    SameTable(s.plans, s.records);
    var x := s.records[r];
    if x.status == RecordStatus.Draft {
      RebasedGrows(s.plans, x, B.BaseFor(s.plans[x.plan], x.count));
      WriteGrows(s.plans, s.records, r, B.Rebased(x, B.BaseFor(s.plans[x.plan], x.count)));
    }
  }

  lemma FormKeeps(s: State, r: int, manual: Option<int>, reason: string, status: RecordStatus)
    requires RecordsOk(s.plans, s.records) && B.SaveForm(s, r, manual, reason, status).Ok?
    requires s.records[r].status == Confirmed ==> status == Confirmed
    ensures TableGrows(s.plans, s.records, B.SaveForm(s, r, manual, reason, status).value.records)
  {
    hide TableGrows, RecordOk, RecordLater, Strip;
    FormGrows(s.plans, s.records[r], manual, Strip(reason), status);
    WriteGrows(s.plans, s.records, r, B.SaveForm(s, r, manual, reason, status).value.records[r]);
  }

  lemma ConfirmKeeps(s: State, r: int)
    requires RecordsOk(s.plans, s.records) && B.Confirm(s, r).Ok?
    ensures TableGrows(s.plans, s.records, B.Confirm(s, r).value.records)
  {
    hide TableGrows, RecordOk, RecordLater;
    SameTable(s.plans, s.records);
    ConfirmGrows(s.plans, s.records[r]);
    WriteGrows(s.plans, s.records, r, s.records[r].(status := Confirmed));
  }

  lemma ReassignKeeps(s: State, r: int, p: int, month: string, today: Day)
    requires RecordsOk(s.plans, s.records) && B.Reassign(s, r, p, month, today).Ok?
    ensures TableGrows(s.plans, s.records, B.Reassign(s, r, p, month, today).value.records)
  {
    hide TableGrows, RecordOk, RecordLater, B.ReassignedMonth, B.Reassigned, B.PushedOrSent, MonthOk, CalendarYearCount;
    var (n, count) := B.ReassignedMonth(s.plans[p], month, today).value;
    ReassignedMonthOk(s.plans[p], month, today);
    ReassignedGrows(s.plans, s.records[r], p, n, count);
    WriteGrows(s.plans, s.records, r, B.Reassigned(s.records[r], p, s.plans[p], n, count));
  }

  /** Plan edits leave every record as good as it was: the geometry decides. */
  lemma RecordsOkLater(p: map<int, Plan>, q: map<int, Plan>, records: map<int, Record>)
    requires RecordsOk(p, records) && PlansLater(p, q)
    ensures RecordsOk(q, records)
  {
    hide RecordOk, SameGeometry;
    forall r | r in records ensures RecordOk(q, records[r]) {
      var x := records[r];
      RecordPlanKnown(p, x);
      var k := x.plan;
      assert k in q && SameGeometry(p[k], q[k]);
      RecordOkLater(p, q, x);
    }
  }

  lemma RecordPlanKnown(p: map<int, Plan>, x: Record)
    requires RecordOk(p, x)
    ensures x.plan in p
  {
  }

  lemma RecordOkLater(p: map<int, Plan>, q: map<int, Plan>, x: Record)
    requires RecordOk(p, x) && x.plan in q && SameGeometry(p[x.plan], q[x.plan])
    ensures RecordOk(q, x)
  {
    hide MonthOk, CalendarYearCount, B.Materialize, RowsOk, NoneOutstanding, AmountsOk;
    GeometryDecides(p[x.plan], q[x.plan], x.month, x.(rows := []));
  }

  lemma EditPlanLater(s: State, p: int, annual: int, isActive: bool)
    requires B.EditPlan(s, p, annual, isActive).Ok?
    ensures PlansLater(s.plans, B.EditPlan(s, p, annual, isActive).value.plans)
  {
  }

  lemma BillingStepKeepsRecords(s: State, step: BillingStep)
    requires RecordsOk(s.plans, s.records) && AgreementsOk(s.plans, s.agreements) && AwaitingOk(s)
    requires DoBilling(s, step).Ok? && !Unlocks(s, OnBilling(step))
    ensures TableGrows(DoBilling(s, step).value.plans, s.records, DoBilling(s, step).value.records)
    ensures PlansLater(s.plans, DoBilling(s, step).value.plans)
  {
    hide RecordsOk, AgreementsOk, AwaitingOk, TableGrows, SameGeometry;
    hide B.CreateDraft, B.Backfill, B.Recreate, B.Renew, B.Recompute, B.SaveForm, B.Confirm, B.Reassign, B.EditPlan;
    BillingFrame(s, step);
    SamePlans(s.plans);
    match step
    case CreateDraft(a, r) => DraftKeeps(s, a, r);
    case Backfill(m, r) => BackfillKeeps(s, m, r);
    case Recreate(m, a, absent, r) => RecreateKeeps(s, m, a, absent, r);
    case Renew(m, p, month, r) => RenewKeeps(s, m, p, month, r);
    case Recompute(r) => RecomputeKeeps(s, r);
    case SaveForm(r, manual, reason, status) => FormStepKeeps(s, r, manual, reason, status);
    case Confirm(r) => ConfirmKeeps(s, r);
    case Reassign(r, p, month, today) => ReassignKeeps(s, r, p, month, today);
    case EditPlan(p, annual, isActive) =>
      EditPlanLater(s, p, annual, isActive);
      RecordsOkLater(s.plans, B.EditPlan(s, p, annual, isActive).value.plans, s.records);
      SameTable(B.EditPlan(s, p, annual, isActive).value.plans, s.records);
  }

  lemma SamePlans(p: map<int, Plan>)
    ensures PlansLater(p, p)
  {
  }

  lemma FormStepKeeps(s: State, r: int, manual: Option<int>, reason: string, status: RecordStatus)
    requires RecordsOk(s.plans, s.records) && B.SaveForm(s, r, manual, reason, status).Ok?
    requires !Unlocks(s, OnBilling(SaveForm(r, manual, reason, status)))
    ensures TableGrows(s.plans, s.records, B.SaveForm(s, r, manual, reason, status).value.records)
  {
    hide RecordsOk, TableGrows, Strip;
    FormKeeps(s, r, manual, reason, status);
  }

  // ---- invoice jobs ----

  lemma StampKeeps(s: State, r: int, sync: Sync, error: Option<ErrorCode>)
    requires RecordsOk(s.plans, s.records) && r in s.records && s.records[r].status == Confirmed && s.records[r].sync != Synced
    requires sync == Synced ==> s.records[r].final == 0
    ensures TableGrows(s.plans, s.records, I.Stamp(s, r, sync, error).records)
  {
    hide TableGrows, RecordOk, RecordLater;
    StampGrows(s.plans, s.records[r], sync, error);
    WriteGrows(s.plans, s.records, r, s.records[r].(sync := sync, error := error));
  }

  lemma EnqueueKeeps(s: State, r: int)
    requires RecordsOk(s.plans, s.records)
    ensures TableGrows(s.plans, s.records, I.Enqueue(s, r).records)
  {
    hide TableGrows, RecordsOk, I.Stamp;
    SameTable(s.plans, s.records);
    if r in s.records && s.records[r].status == Confirmed && s.records[r].sync != Synced {
      StampKeeps(s, r, PendingSync, None);
    }
  }

  lemma ButtonKeeps(s: State, r: int, confirmToo: bool)
    requires RecordsOk(s.plans, s.records) && I.PushButton(s, r, confirmToo).Ok?
    ensures TableGrows(s.plans, s.records, I.PushButton(s, r, confirmToo).value.records)
  {
    hide TableGrows, RecordsOk, I.Enqueue;
    var t := B.Confirm(s, r).value;
    ConfirmKeeps(s, r);
    TableOk(s.plans, s.records, t.records);
    EnqueueKeeps(t, r);
    TableTransitive(s.plans, s.records, t.records, I.Enqueue(t, r).records);
  }

  lemma TableOk(plans: map<int, Plan>, x: map<int, Record>, y: map<int, Record>)
    requires TableGrows(plans, x, y)
    ensures RecordsOk(plans, y)
  {
  }

  lemma PushKeeps(s: State, r: int, fates: I.PushFates)
    requires RecordsOk(s.plans, s.records)
    ensures TableGrows(s.plans, s.records, I.Push(s, r, fates).records)
  {
    hide TableGrows, RecordsOk, I.PushToProvider, I.Stamp;
    SameTable(s.plans, s.records);
    if && r in s.records && s.records[r].member in s.members && s.records[r].plan in s.plans
       && s.records[r].status == Confirmed && s.records[r].sync != Synced {
      if s.records[r].final == 0 {
        StampKeeps(s, r, Synced, None);
      } else {
        ProviderKeeps(s, r, fates);
      }
    }
  }

  lemma ProviderKeeps(s: State, r: int, fates: I.PushFates)
    requires RecordsOk(s.plans, s.records)
    requires r in s.records && s.records[r].member in s.members && s.records[r].plan in s.plans
    requires s.records[r].status == Confirmed && s.records[r].sync != Synced && s.records[r].final != 0
    ensures TableGrows(s.plans, s.records, I.PushToProvider(s, r, fates).records)
  {
    hide TableGrows, RecordsOk, I.PushRows, I.EnsureClient, I.DeskOf, B.Materialize, I.PushDone;
    var x, guardian := s.records[r], s.members[s.records[r].member].guardian;
    StampKeeps(s, r, PendingSync, None);
    if fates.product.Refused? || fates.product.ReplyLost? {
      StampKeeps(s, r, FailedSync, Some(if fates.product.Refused? then fates.product.code else Unavailable));
    }
    var (desk, client) := I.EnsureClient(I.DeskOf(s, guardian), guardian, fates.find, fates.create);
    if client.Failed? {
      StampKeeps(s, r, FailedSync, Some(client.code));
    }
    if B.Materialize(x, s.plans[x.plan]).Ok? {
      PushDoneKeeps(s, r, guardian, I.Work(B.Materialize(x, s.plans[x.plan]).value, desk), fates.rows);
    }
  }

  lemma PushDoneKeeps(s: State, r: int, guardian: int, w: I.Work, fates: seq<I.RowFates>)
    requires RecordsOk(s.plans, s.records) && r in s.records && s.records[r].plan in s.plans
    requires s.records[r].status == Confirmed && s.records[r].sync != Synced && s.records[r].final != 0
    requires B.Materialize(s.records[r], s.plans[s.records[r].plan]) == Ok(w.rows)
    ensures var (done, end) := I.PushRows(w, guardian, r, 0, None, fates);
            TableGrows(s.plans, s.records, I.PushDone(s, r, guardian, done, end).records)
  {
    hide TableGrows, RecordOk, I.PushRows, B.Materialize, RecordLater;
    var (done, end) := I.PushRows(w, guardian, r, 0, None, fates);
    var x := s.records[r];
    var y := I.PushDone(s, r, guardian, done, end).records[r];
    PushedGrows(s.plans, x, w, guardian, r, fates, y.sync, y.error);
    assert y == x.(rows := done.rows, sync := y.sync, error := y.error);
    WriteGrows(s.plans, s.records, r, y);
  }

  /** A row rewritten by a job. */
  lemma RowWriteKeeps(s: State, id: A.InvoiceId, row: Invoice)
    requires RecordsOk(s.plans, s.records) && id.record in s.records && id.index < |s.records[id.record].rows|
    requires RowOk(A.RowOf(s.records, id)) ==> RowLater(A.RowOf(s.records, id), row) && RowOk(row)
    ensures TableGrows(s.plans, s.records, I.WithRow(s, id, row).records)
  {
    hide TableGrows, RecordOk, RecordLater, RowOk, RowLater;
    var x := s.records[id.record];
    RowsOf(s.plans, x);
    RowGrows(s.plans, x, id.index, row);
    WriteGrows(s.plans, s.records, id.record, x.(rows := x.rows[id.index := row]));
  }

  lemma CancellationKeeps(s: State, id: A.InvoiceId, fate: I.Fate)
    requires RecordsOk(s.plans, s.records)
    ensures TableGrows(s.plans, s.records, I.RunCancellation(s, id, fate).records)
  {
    hide TableGrows, RecordsOk;
    SameTable(s.plans, s.records);
    if id.record in s.records && id.index < |s.records[id.record].rows| {
      var row := A.RowOf(s.records, id);
      if row.externalId.Some? && row.action != NoAction {
        RowWriteKeeps(s, id, row.(cancelStatus := CancelDone));
        RowWriteKeeps(s, id, row.(cancelStatus := CancelFailed));
      }
    }
  }

  lemma SendKeeps(s: State, id: A.InvoiceId, today: Date, hasEmail: bool, fate: I.Fate)
    requires RecordsOk(s.plans, s.records)
    ensures TableGrows(s.plans, s.records, I.SendDue(s, id, today, hasEmail, fate).records)
  {
    hide TableGrows, RecordsOk;
    SameTable(s.plans, s.records);
    if id.record in s.records && id.index < |s.records[id.record].rows| {
      RowWriteKeeps(s, id, I.SendRow(A.RowOf(s.records, id), today, hasEmail, fate));
    }
  }

  lemma PaymentKeeps(s: State, id: A.InvoiceId, payment: Payment)
    requires RecordsOk(s.plans, s.records)
    ensures TableGrows(s.plans, s.records, I.SyncPayment(s, id, payment).records)
  {
    hide TableGrows, RecordsOk, I.WithRow;
    SameTable(s.plans, s.records);
    if id.record in s.records && id.index < |s.records[id.record].rows| {
      RowWriteKeeps(s, id, A.RowOf(s.records, id).(payment := payment));
    }
  }

  lemma InvoiceStepKeepsRecords(s: State, step: InvoiceStep)
    requires RecordsOk(s.plans, s.records) && DoInvoice(s, step).Ok?
    ensures TableGrows(s.plans, s.records, DoInvoice(s, step).value.records)
  {
    hide RecordsOk, TableGrows, I.Enqueue, I.PushButton, I.Push, I.RunCancellation, I.SendDue, I.SyncPayment;
    SameTable(s.plans, s.records);
    match step
    case Enqueue(r) => EnqueueKeeps(s, r);
    case PushButton(r, confirmToo) => ButtonKeeps(s, r, confirmToo);
    case Push(r, fates) => PushKeeps(s, r, fates);
    case RunCancellation(id, fate) => CancellationKeeps(s, id, fate);
    case SendDue(id, today, hasEmail, fate) => SendKeeps(s, id, today, hasEmail, fate);
    case SyncPayment(id, payment) => PaymentKeeps(s, id, payment);
    case ArchiveClient(c) =>
  }

  lemma AgreementStepKeepsRecords(s: State, step: AgreementStep)
    requires RecordsOk(s.plans, s.records) && DoAgreement(s, step).Ok?
    ensures TableGrows(s.plans, s.records, DoAgreement(s, step).value.records)
  {
    hide RecordsOk, TableGrows, A.CancelAll, A.FirstRefusal, DoAgreement;
    SameTable(s.plans, s.records);
    AgreementFrame(s, step);
    if step.Discontinue? {
      DiscontinueKeeps(s, step);
    }
  }

  lemma DiscontinueKeeps(s: State, step: AgreementStep)
    requires RecordsOk(s.plans, s.records) && DoAgreement(s, step).Ok? && step.Discontinue?
    ensures TableGrows(s.plans, s.records, DoAgreement(s, step).value.records)
  {
    hide RecordsOk, TableGrows, A.CancelAll, A.FirstRefusal;
    CancelAllGrows(s.plans, s.records, s.agreements[step.a].member, step.ids, step.now);
  }

  /** Every step that does not unlock keeps every record in order and only lets it
      move forward; plans keep their geometry. */
  lemma StepKeepsRecords(s: State, step: Step)
    requires RecordsOk(s.plans, s.records) && AgreementsOk(s.plans, s.agreements) && AwaitingOk(s)
    requires !Unlocks(s, step)
    ensures var t := After(s, step);
            TableGrows(t.plans, s.records, t.records) && PlansLater(s.plans, t.plans)
  {
    hide RecordsOk, AgreementsOk, AwaitingOk, TableGrows, DoAgreement, DoBilling, DoInvoice, SameGeometry, Unlocks;
    SameTable(s.plans, s.records);
    SamePlans(s.plans);
    if Do(s, step).Ok? {
      match step
      case OnAgreement(x) =>
        AgreementStepKeepsRecords(s, x);
        AgreementFrame(s, x);
      case OnBilling(x) => BillingStepKeepsRecords(s, x);
      case OnInvoice(x) =>
        InvoiceStepKeepsRecords(s, x);
        InvoiceFrame(s, x);
    }
  }
}
