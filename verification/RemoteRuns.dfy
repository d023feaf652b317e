/** Every run keeps the provider and the club's rows in step. */
module RemoteRuns {
  import opened Wrappers
  import opened Calendar
  import opened Domain
  import opened RecordLife
  import opened RemoteLife
  import opened Links
  import opened Runs
  import A = AgreementSteps
  import B = BillingSteps
  import I = InvoiceSteps
  import opened Machine

  ghost predicate RemoteInv(s: State) {
    && RemoteOk(s.records, s.remote.invoices)
    && OneActiveClient(s.remote.clients) && StoredClientsOk(s.clientIds, s.remote.clients)
  }

  predicate ClientLater(x: RemoteClient, y: RemoteClient) {
    y.guardian == x.guardian && (!x.active ==> !y.active)
  }

  ghost predicate ClientsLater(x: seq<RemoteClient>, y: seq<RemoteClient>) {
    |x| <= |y| && forall c :: 0 <= c < |x| ==> ClientLater(x[c], y[c])
  }

  ghost predicate RemoteLater(x: Remote, y: Remote) {
    InvoicesLater(x.invoices, y.invoices) && ClientsLater(x.clients, y.clients)
  }

  ghost predicate RemoteGrows(s: State, t: State) {
    RemoteInv(t) && RemoteLater(s.remote, t.remote)
  }

  lemma RemoteLaterReflexive(x: Remote)
    ensures RemoteLater(x, x)
  {
  }

  lemma RemoteLaterTransitive(x: Remote, y: Remote, z: Remote)
    requires RemoteLater(x, y) && RemoteLater(y, z)
    ensures RemoteLater(x, z)
  {
    hide InvoicesLater;
    InvoicesLaterTransitive(x.invoices, y.invoices, z.invoices);
    assert forall c :: 0 <= c < |x.clients| ==> ClientLater(x.clients[c], y.clients[c]) && ClientLater(y.clients[c], z.clients[c]);
  }

  /** A step that leaves the provider alone and is quiet about the rows. */
  lemma QuietGrows(s: State, t: State)
    requires RemoteInv(s) && t.remote == s.remote && t.clientIds == s.clientIds && RecordsQuiet(s.records, t.records)
    ensures RemoteGrows(s, t)
  {
    hide RemoteOk, OneActiveClient, StoredClientsOk, RecordsQuiet;
    QuietKeepsRemote(s.records, t.records, s.remote.invoices);
    RemoteLaterReflexive(s.remote);
  }

  // ---- the quiet steps ----

  lemma SameRowsQuiet(x: map<int, Record>, r: int, y: Record)
    requires r in x && y.rows == x[r].rows
    ensures RecordsQuiet(x, x[r := y])
  {
  }

  lemma UnchangedQuiet(x: map<int, Record>)
    ensures RecordsQuiet(x, x)
  {
  }

  lemma AddedQuiet(s: State, t: State)
    requires AddsOne(s, t)
    ensures RecordsQuiet(s.records, t.records)
  {
    hide Linked, HasRecord;
    if t.records != s.records {
      var r, y :| r !in s.records && t.records == s.records[r := y] && y.rows == [];
    }
  }

  lemma CancelRowQuiet(row: Invoice, now: int)
    ensures RowQuiet(row, A.CancelRow(row, now))
  {
  }

  lemma CancelledQuiet(x: map<int, Record>, y: map<int, Record>, ids: seq<A.InvoiceId>, now: int)
    requires CancelsExactly(x, y, ids, now)
    ensures RecordsQuiet(x, y)
  {
    hide RowQuiet, A.CancelRow;
    forall r | r in y ensures r in x && RowsQuiet(x[r].rows, y[r].rows) {
      forall i | 0 <= i < |x[r].rows| ensures RowQuiet(x[r].rows[i], y[r].rows[i]) {
        var id := A.InvoiceId(r, i);
        CancelRowQuiet(x[r].rows[i], now);
        SameRowQuiet(x[r].rows[i]);
        assert A.RowOf(y, id) == if id in ids then A.CancelRow(A.RowOf(x, id), now) else A.RowOf(x, id);
      }
    }
  }

  lemma SameRowQuiet(row: Invoice)
    ensures RowQuiet(row, row)
  {
  }

  lemma RowWriteQuiet(s: State, id: A.InvoiceId, row: Invoice)
    requires id.record in s.records && id.index < |s.records[id.record].rows|
    requires RowQuiet(A.RowOf(s.records, id), row)
    ensures RecordsQuiet(s.records, I.WithRow(s, id, row).records)
  {
  }

  lemma ChangedQuiet(s: State, step: BillingStep)
    requires RecordsOk(s.plans, s.records) && DoBilling(s, step).Ok?
    requires step.Recompute? || step.SaveForm? || step.Confirm? || step.EditPlan?
    ensures RecordsQuiet(s.records, DoBilling(s, step).value.records)
  {
    hide RecordOk, RecordsQuiet, B.BaseFor;
    UnchangedQuiet(s.records);
    if !step.EditPlan? {
      SameRowsQuiet(s.records, step.r, DoBilling(s, step).value.records[step.r]);
    }
  }

  lemma ReassignQuiet(s: State, r: int, p: int, month: string, today: Day)
    requires RecordsOk(s.plans, s.records) && B.Reassign(s, r, p, month, today).Ok?
    ensures RecordsQuiet(s.records, B.Reassign(s, r, p, month, today).value.records)
  {
    hide RecordsQuiet, B.ReassignedMonth, B.PushedOrSent, B.BaseFor, RowsAsScheduled, CountOk;
    assert RecordOk(s.plans, s.records[r]);
    SameRowsQuiet(s.records, r, B.Reassign(s, r, p, month, today).value.records[r]);
  }

  lemma BillingQuiet(s: State, step: BillingStep)
    requires RecordsOk(s.plans, s.records) && DoBilling(s, step).Ok?
    ensures RecordsQuiet(s.records, DoBilling(s, step).value.records)
  {
    hide RecordsOk, RecordsQuiet, AddsOne, B.CreateDraft, B.Backfill, B.Recreate, B.Renew, B.Recompute, B.SaveForm, B.Confirm, B.Reassign, B.EditPlan;
    if AddsRecord(step) {
      NewRecordStep(s, step);
      AddedQuiet(s, DoBilling(s, step).value);
    } else if step.Reassign? {
      ReassignQuiet(s, step.r, step.p, step.month, step.today);
    } else {
      ChangedQuiet(s, step);
    }
  }

  lemma AgreementQuiet(s: State, step: AgreementStep)
    requires DoAgreement(s, step).Ok?
    ensures RecordsQuiet(s.records, DoAgreement(s, step).value.records)
  {
    hide RecordsQuiet, DoAgreement;
    AgreementFrame(s, step);
    UnchangedQuiet(s.records);
    if step.Discontinue? {
      DiscontinueQuiet(s, step);
    }
  }

  lemma DiscontinueQuiet(s: State, step: AgreementStep)
    requires DoAgreement(s, step).Ok? && step.Discontinue?
    ensures RecordsQuiet(s.records, DoAgreement(s, step).value.records)
  {
    hide RecordsQuiet, A.CancelAll, A.FirstRefusal, CancelsExactly;
    CancelAllExact(s.records, s.agreements[step.a].member, step.ids, step.now);
    CancelledQuiet(s.records, DoAgreement(s, step).value.records, step.ids, step.now);
  }

  // ---- the steps that talk to the provider ----

  lemma ArchiveClientGrows(s: State, c: nat)
    requires RemoteInv(s)
    ensures RemoteGrows(s, I.ArchiveClient(s, c))
  {
    hide RemoteOk;
    RemoteLaterReflexive(s.remote);
    var t := I.ArchiveClient(s, c);
    InvoicesLaterReflexive(s.remote.invoices);
    forall g | g in t.clientIds ensures ClientOk(t.remote.clients, g, Some(t.clientIds[g])) {
      assert ClientOk(s.remote.clients, g, Some(s.clientIds[g]));
    }
  }

  /** Archiving or cancelling the invoice behind a cancelled row. */
  lemma WithdrawnOk(records: map<int, Record>, invoices: seq<RemoteInvoice>, k: nat, active: bool, voided: bool)
    requires RemoteOk(records, invoices) && k < |invoices|
    requires (!invoices[k].active ==> !active) && (invoices[k].voided ==> voided)
    requires RowBehind(records, invoices[k].(active := false), k)
    ensures RemoteOk(records, invoices[k := invoices[k].(active := active, voided := voided)])
    ensures InvoicesLater(invoices, invoices[k := invoices[k].(active := active, voided := voided)])
  {
    var next := invoices[k := invoices[k].(active := active, voided := voided)];
    forall j | 0 <= j < |next| ensures RowBehind(records, next[j], j) {
      assert RowBehind(records, invoices[j], j);
    }
    forall r, i: nat | r in records && i < |records[r].rows| ensures IdOk(next, r, i, records[r].rows[i]) {
      assert IdOk(invoices, r, i, records[r].rows[i]);
    }
  }

  lemma CancelledInvoice(s: State, id: A.InvoiceId)
    requires RemoteOk(s.records, s.remote.invoices) && id.record in s.records && id.index < |s.records[id.record].rows|
    requires A.RowOf(s.records, id).externalId.Some? && A.RowOf(s.records, id).cancelledAt.Some?
    ensures var k := A.RowOf(s.records, id).externalId.value;
            k < |s.remote.invoices| && RowBehind(s.records, s.remote.invoices[k].(active := false), k)
  {
    var k := A.RowOf(s.records, id).externalId.value;
    assert IdOk(s.remote.invoices, id.record, id.index, s.records[id.record].rows[id.index]);
    assert RowBehind(s.records, s.remote.invoices[k], k);
  }

  /** The invoices after the provider carried out the cancellation of a row. */
  function Withdrawn(invoices: seq<RemoteInvoice>, row: Invoice): seq<RemoteInvoice>
    requires row.externalId.Some? && row.externalId.value < |invoices|
  {
    var k := row.externalId.value;
    invoices[k := if row.action == Archive then invoices[k].(active := false) else invoices[k].(voided := true)]
  }

  lemma DoneRowOk(records: map<int, Record>, invoices: seq<RemoteInvoice>, id: A.InvoiceId, status: CancelStatus)
    requires RemoteOk(records, invoices) && id.record in records && id.index < |records[id.record].rows|
    requires var row := A.RowOf(records, id);
             row.externalId.Some? && row.externalId.value < |invoices| &&
             (status == CancelDone ==> if row.action == Archive then !invoices[row.externalId.value].active else invoices[row.externalId.value].voided)
    ensures RemoteOk(WithRows(records, id.record, records[id.record].rows[id.index := A.RowOf(records, id).(cancelStatus := status)]), invoices)
  {
    hide NumbersDistinct;
    var y := WithRows(records, id.record, records[id.record].rows[id.index := A.RowOf(records, id).(cancelStatus := status)]);
    forall k | 0 <= k < |invoices| ensures RowBehind(y, invoices[k], k) {
      assert RowBehind(records, invoices[k], k);
    }
    forall r, i: nat | r in y && i < |y[r].rows| ensures IdOk(invoices, r, i, y[r].rows[i]) {
      assert r in records && i < |records[r].rows|;
      assert IdOk(invoices, r, i, records[r].rows[i]);
    }
  }

  lemma CancellationGrows(s: State, id: A.InvoiceId, fate: I.Fate)
    requires RemoteInv(s) && RecordsOk(s.plans, s.records)
    ensures RemoteGrows(s, I.RunCancellation(s, id, fate))
  {
    hide RemoteOk, OneActiveClient, StoredClientsOk, RecordOk, InvoicesLater, RowBehind, Withdrawn;
    RemoteLaterReflexive(s.remote);
    if id.record in s.records && id.index < |s.records[id.record].rows| {
      var row := A.RowOf(s.records, id);
      RowsOf(s.plans, s.records[id.record]);
      assert RowOk(row);
      if row.action != NoAction {
        CancelledInvoice(s, id);
        WithdrawnRow(s, id);
        var after := Withdrawn(s.remote.invoices, row);
        DoneRowOk(s.records, after, id, CancelDone);
        DoneRowOk(s.records, s.remote.invoices, id, CancelFailed);
        DoneRowOk(s.records, after, id, CancelFailed);
        CancellationIs(s, id, fate);
      }
    }
  }

  lemma WithdrawnRow(s: State, id: A.InvoiceId)
    requires RemoteOk(s.records, s.remote.invoices) && id.record in s.records && id.index < |s.records[id.record].rows|
    requires A.RowOf(s.records, id).externalId.Some? && A.RowOf(s.records, id).cancelledAt.Some?
    requires A.RowOf(s.records, id).externalId.value < |s.remote.invoices|
    ensures var row := A.RowOf(s.records, id);
            var after := Withdrawn(s.remote.invoices, row);
            && RemoteOk(s.records, after) && InvoicesLater(s.remote.invoices, after) && |after| == |s.remote.invoices|
            && (if row.action == Archive then !after[row.externalId.value].active else after[row.externalId.value].voided)
  {
    hide RemoteOk, InvoicesLater, RowBehind;
    var row := A.RowOf(s.records, id);
    var k := row.externalId.value;
    CancelledInvoice(s, id);
    var x := s.remote.invoices[k];
    WithdrawnOk(s.records, s.remote.invoices, k, x.active && row.action != Archive, x.voided || row.action != Archive);
  }

  /** The job, spelled out for a row that has a cancellation queued. */
  lemma CancellationIs(s: State, id: A.InvoiceId, fate: I.Fate)
    requires id.record in s.records && id.index < |s.records[id.record].rows|
    requires var row := A.RowOf(s.records, id);
             row.externalId.Some? && row.externalId.value < |s.remote.invoices| && row.action != NoAction
    ensures var row := A.RowOf(s.records, id);
            var rows := s.records[id.record].rows;
            var t := I.RunCancellation(s, id, fate);
            && t.clientIds == s.clientIds && t.remote.clients == s.remote.clients
            && t.remote.invoices == (if I.TakesEffect(fate) then Withdrawn(s.remote.invoices, row) else s.remote.invoices)
            && t.records == (match fate
                 case Answers => WithRows(s.records, id.record, rows[id.index := row.(cancelStatus := CancelDone)])
                 case Dies(_) => s.records
                 case _ => WithRows(s.records, id.record, rows[id.index := row.(cancelStatus := CancelFailed)]))
  {
  }

  lemma StoredClientStays(clientIds: map<int, nat>, x: seq<RemoteClient>, y: seq<RemoteClient>, guardian: int, client: Option<nat>)
    requires StoredClientsOk(clientIds, x) && x <= y && ClientOk(y, guardian, client)
    ensures StoredClientsOk(if client.Some? then clientIds[guardian := client.value] else clientIds - {guardian}, y)
    ensures ClientsLater(x, y)
  {
    var next := if client.Some? then clientIds[guardian := client.value] else clientIds - {guardian};
    forall g | g in next ensures ClientOk(y, g, Some(next[g])) {
      if g != guardian {
        assert ClientOk(x, g, Some(clientIds[g]));
      }
    }
  }

  /** Writing back what the provider's desk learned. */
  lemma StoreDeskGrows(s: State, u: State, guardian: int, desk: I.Desk)
    requires RemoteInv(s) && u.remote == s.remote && u.clientIds == s.clientIds
    requires RemoteOk(u.records, desk.remote.invoices) && s.remote.invoices <= desk.remote.invoices
    requires OneActiveClient(desk.remote.clients) && DeskOk(desk, guardian) && s.remote.clients <= desk.remote.clients
    ensures RemoteGrows(s, I.StoreDesk(u, guardian, desk))
  {
    hide RemoteOk, OneActiveClient, StoredClientsOk, InvoicesLater, ClientsLater;
    AddedLater(s.remote.invoices, desk.remote.invoices);
    StoredClientStays(s.clientIds, s.remote.clients, desk.remote.clients, guardian, desk.client);
  }

  lemma StampQuiet(s: State, r: int, sync: Sync, error: Option<ErrorCode>)
    requires r in s.records
    ensures RecordsQuiet(s.records, I.Stamp(s, r, sync, error).records)
  {
    hide RecordsQuiet;
    SameRowsQuiet(s.records, r, s.records[r].(sync := sync, error := error));
  }

  lemma DeskOfOk(s: State, guardian: int)
    requires StoredClientsOk(s.clientIds, s.remote.clients)
    ensures DeskOk(I.DeskOf(s, guardian), guardian)
  {
  }

  lemma MaterializedNew(x: Record, plan: Plan)
    requires B.Materialize(x, plan).Ok? && x.rows == []
    ensures forall i :: 0 <= i < |B.Materialize(x, plan).value| ==> B.Materialize(x, plan).value[i].externalId.None?
  {
    hide Schedule.InstallmentSchedule;
  }

  /** Rows materialized for a record that had none have no invoice behind them yet. */
  lemma FirstRowsOk(records: map<int, Record>, r: int, rows: seq<Invoice>, invoices: seq<RemoteInvoice>)
    requires RemoteOk(records, invoices) && r in records && records[r].rows == []
    requires forall i :: 0 <= i < |rows| ==> rows[i].externalId.None?
    ensures RemoteOk(WithRows(records, r, rows), invoices)
  {
    var y := WithRows(records, r, rows);
    forall k | 0 <= k < |invoices| ensures RowBehind(y, invoices[k], k) {
      assert RowBehind(records, invoices[k], k);
    }
    forall q, i: nat | q in y && i < |y[q].rows| ensures IdOk(invoices, q, i, y[q].rows[i]) {
      if q != r {
        assert IdOk(invoices, q, i, records[q].rows[i]);
      }
    }
  }

  lemma MaterializeKeepsRemote(s: State, r: int)
    requires RemoteOk(s.records, s.remote.invoices) && RecordsOk(s.plans, s.records)
    requires r in s.records && s.records[r].plan in s.plans && s.records[r].final != 0
    requires B.Materialize(s.records[r], s.plans[s.records[r].plan]).Ok?
    ensures var rows := B.Materialize(s.records[r], s.plans[s.records[r].plan]).value;
            RowsOk(rows) && RemoteOk(WithRows(s.records, r, rows), s.remote.invoices)
  {
    hide RemoteOk, RecordOk, B.Materialize;
    var x, plan := s.records[r], s.plans[s.records[r].plan];
    RowsOf(s.plans, x);
    MaterializedOk(x, plan);
    if x.rows == [] {
      MaterializedNew(x, plan);
      FirstRowsOk(s.records, r, B.Materialize(x, plan).value, s.remote.invoices);
    } else {
      MaterializedKeeps(x, plan);
      assert x.(rows := x.rows) == x;
      assert WithRows(s.records, r, x.rows) == s.records;
    }
  }

  lemma MaterializedKeeps(x: Record, plan: Plan)
    requires x.rows != [] && x.final != 0
    ensures B.Materialize(x, plan) == Ok(x.rows)
  {
  }

  lemma PushedRemote(s: State, r: int, guardian: int, desk: I.Desk, rows: seq<Invoice>, fates: seq<I.RowFates>)
    requires RemoteInv(s) && r in s.records && RowsOk(rows)
    requires desk.remote.invoices == s.remote.invoices && s.remote.clients <= desk.remote.clients
    requires OneActiveClient(desk.remote.clients) && DeskOk(desk, guardian)
    requires RemoteOk(WithRows(s.records, r, rows), s.remote.invoices)
    ensures var (w, end) := I.PushRows(I.Work(rows, desk), guardian, r, 0, None, fates);
            RemoteGrows(s, I.PushDone(s, r, guardian, w, end))
  {
    hide RemoteOk, OneActiveClient, StoredClientsOk, InvoicesLater, I.PushRows, RemoteGrows, DeskOk, RowsOk, RecordsQuiet, I.StoreDesk;
    var (w, end) := I.PushRows(I.Work(rows, desk), guardian, r, 0, None, fates);
    PushRowsKeepRemote(s.records, I.Work(rows, desk), guardian, r, 0, None, fates);
    DoneIs(s, r, guardian, w, end);
    var t := I.PushDone(s, r, guardian, w, end);
    var x, y := WithRows(s.records, r, w.rows), t.records;
    assert y == x[r := t.records[r]];
    SameRowsQuiet(x, r, t.records[r]);
    QuietKeepsRemote(x, y, w.desk.remote.invoices);
    StoreDeskGrows(s, s.(records := t.records), guardian, w.desk);
  }

  lemma DoneIs(s: State, r: int, guardian: int, w: I.Work, end: I.PushEnd)
    requires r in s.records
    ensures var t := I.PushDone(s, r, guardian, w, end);
            r in t.records && t.records[r].rows == w.rows && t == I.StoreDesk(s.(records := t.records), guardian, w.desk)
  {
  }

  lemma ProviderGrows(s: State, r: int, fates: I.PushFates)
    requires RemoteInv(s) && RecordsOk(s.plans, s.records)
    requires r in s.records && s.records[r].member in s.members && s.records[r].plan in s.plans && s.records[r].final != 0
    ensures RemoteGrows(s, I.PushToProvider(s, r, fates))
  {
    hide RemoteOk, OneActiveClient, StoredClientsOk, InvoicesLater, RemoteGrows, ClientOk, RecordOk, RecordsQuiet, RowsOk;
    hide I.PushRows, I.EnsureClient, I.DeskOf, B.Materialize, I.PushDone, I.StoreDesk, I.Stamp;
    var guardian := s.members[s.records[r].member].guardian;
    DeskOfOk(s, guardian);
    DeskIs(s, guardian);
    EnsureClientOk(I.DeskOf(s, guardian), guardian, fates.find, fates.create);
    var (desk, client) := I.EnsureClient(I.DeskOf(s, guardian), guardian, fates.find, fates.create);
    StampGrowsRemote(s, r, guardian, desk, PendingSync, None);
    match I.Seen(fates.product, I.Got(()))
    case Failed(code) => StampGrowsRemote(s, r, guardian, desk, FailedSync, Some(code));
    case StaleClient =>
    case Dead =>
    case Got(_) =>
      if client.Failed? {
        StampGrowsRemote(s, r, guardian, desk, FailedSync, Some(client.code));
      } else if client.Got? && B.Materialize(s.records[r], s.plans[s.records[r].plan]).Ok? {
        MaterializeKeepsRemote(s, r);
        PushedRemote(s, r, guardian, desk, B.Materialize(s.records[r], s.plans[s.records[r].plan]).value, fates.rows);
      }
  }

  lemma DeskIs(s: State, guardian: int)
    ensures I.DeskOf(s, guardian).remote == s.remote
  {
  }

  lemma StampGrowsRemote(s: State, r: int, guardian: int, desk: I.Desk, sync: Sync, error: Option<ErrorCode>)
    requires RemoteInv(s) && r in s.records
    requires desk.remote.invoices == s.remote.invoices && s.remote.clients <= desk.remote.clients
    requires OneActiveClient(desk.remote.clients) && DeskOk(desk, guardian)
    ensures RemoteGrows(s, I.Stamp(s, r, sync, error))
    ensures RemoteGrows(s, I.StoreDesk(I.Stamp(s, r, sync, error), guardian, desk))
  {
    hide RemoteOk, OneActiveClient, StoredClientsOk, InvoicesLater, RemoteGrows, DeskOk, RecordsQuiet, I.StoreDesk;
    var u := I.Stamp(s, r, sync, error);
    StampQuiet(s, r, sync, error);
    QuietGrows(s, u);
    QuietKeepsRemote(s.records, u.records, s.remote.invoices);
    StoreDeskGrows(s, u, guardian, desk);
  }

  lemma PushGrows(s: State, r: int, fates: I.PushFates)
    requires RemoteInv(s) && RecordsOk(s.plans, s.records)
    ensures RemoteGrows(s, I.Push(s, r, fates))
  {
    hide RemoteInv, RecordsOk, RemoteGrows, I.PushToProvider, RecordsQuiet, I.Stamp;
    UnchangedQuiet(s.records);
    QuietGrows(s, s);
    if && r in s.records && s.records[r].member in s.members && s.records[r].plan in s.plans
       && s.records[r].status == Confirmed && s.records[r].sync != Synced {
      if s.records[r].final == 0 {
        StampQuiet(s, r, Synced, None);
        StampFrame(s, r, Synced, None);
        QuietGrows(s, I.Stamp(s, r, Synced, None));
      } else {
        ProviderGrows(s, r, fates);
      }
    }
  }

  lemma StampFrame(s: State, r: int, sync: Sync, error: Option<ErrorCode>)
    requires r in s.records
    ensures I.Stamp(s, r, sync, error) == s.(records := I.Stamp(s, r, sync, error).records)
  {
  }

  lemma EnqueueIs(s: State, r: int)
    ensures var t := I.Enqueue(s, r);
            && t == s.(records := t.records)
            && (r in s.records ==> r in t.records && t.records == s.records[r := t.records[r]] && t.records[r].rows == s.records[r].rows)
            && (r !in s.records ==> t.records == s.records)
  {
  }

  lemma ConfirmIs(s: State, r: int)
    requires r in s.records
    ensures var t := B.Confirm(s, r);
            && t.Ok? && t.value == s.(records := t.value.records) && r in t.value.records
            && t.value.records == s.records[r := t.value.records[r]] && t.value.records[r].rows == s.records[r].rows
  {
  }

  lemma ButtonIs(s: State, r: int, confirmToo: bool)
    requires I.PushButton(s, r, confirmToo).Ok?
    ensures var t := I.PushButton(s, r, confirmToo).value;
            && t == s.(records := t.records) && r in s.records && r in t.records
            && t.records == s.records[r := t.records[r]] && t.records[r].rows == s.records[r].rows
  {
    hide I.Enqueue, B.Confirm;
    ConfirmIs(s, r);
    EnqueueIs(B.Confirm(s, r).value, r);
  }

  lemma ButtonQuiet(s: State, step: InvoiceStep)
    requires (step.Enqueue? || step.PushButton?) && DoInvoice(s, step).Ok?
    ensures var t := DoInvoice(s, step).value;
            RecordsQuiet(s.records, t.records) && t.remote == s.remote && t.clientIds == s.clientIds
  {
    hide RecordsQuiet, I.Enqueue, I.PushButton;
    UnchangedQuiet(s.records);
    EnqueueIs(s, step.r);
    if step.PushButton? {
      ButtonIs(s, step.r, step.confirmToo);
    }
    if step.r in s.records {
      SameRowsQuiet(s.records, step.r, DoInvoice(s, step).value.records[step.r]);
    }
  }

  lemma PaymentQuiet(s: State, id: A.InvoiceId, payment: Payment)
    ensures var t := I.SyncPayment(s, id, payment);
            RecordsQuiet(s.records, t.records) && t.remote == s.remote && t.clientIds == s.clientIds
  {
    hide RecordsQuiet;
    UnchangedQuiet(s.records);
    if id.record in s.records && id.index < |s.records[id.record].rows| {
      RowWriteQuiet(s, id, A.RowOf(s.records, id).(payment := payment));
    }
  }

  // ---- sending ----

  /** E-mailing the invoice behind an open row, in or past its due month. */
  lemma MailedOk(records: map<int, Record>, invoices: seq<RemoteInvoice>, k: nat, today: Date)
    requires RemoteOk(records, invoices) && k < |invoices|
    requires RowBehind(records, invoices[k].(emails := invoices[k].emails + [today]), k)
    ensures RemoteOk(records, I.Mailed(invoices, k, today)) && InvoicesLater(invoices, I.Mailed(invoices, k, today))
  {
    hide RowBehind;
    var next := I.Mailed(invoices, k, today);
    forall j | 0 <= j < |next| ensures RowBehind(records, next[j], j) {
      assert RowBehind(records, invoices[j], j);
    }
    forall r, i: nat | r in records && i < |records[r].rows| ensures IdOk(next, r, i, records[r].rows[i]) {
      assert IdOk(invoices, r, i, records[r].rows[i]);
    }
  }

  /** Writing back what a call about a known invoice came to. */
  lemma ToldRowOk(records: map<int, Record>, invoices: seq<RemoteInvoice>, id: A.InvoiceId, y: Invoice)
    requires RemoteOk(records, invoices) && id.record in records && id.index < |records[id.record].rows|
    requires RowQuiet(A.RowOf(records, id), y.(sentOn := A.RowOf(records, id).sentOn))
    requires IdOk(invoices, id.record, id.index, y)
    ensures RemoteOk(WithRows(records, id.record, records[id.record].rows[id.index := y]), invoices)
  {
    hide NumbersDistinct;
    var next := WithRows(records, id.record, records[id.record].rows[id.index := y]);
    forall k | 0 <= k < |invoices| ensures RowBehind(next, invoices[k], k) {
      assert RowBehind(records, invoices[k], k);
    }
    forall r, i: nat | r in next && i < |next[r].rows| ensures IdOk(invoices, r, i, next[r].rows[i]) {
      assert r in records && i < |records[r].rows|;
      assert IdOk(invoices, r, i, records[r].rows[i]);
    }
  }

  /** What a due row knows about its invoice at the provider. */
  lemma DueInvoice(s: State, id: A.InvoiceId, today: Date)
    requires RemoteOk(s.records, s.remote.invoices) && id.record in s.records && id.index < |s.records[id.record].rows|
    requires I.DueToSend(A.RowOf(s.records, id), today)
    ensures var row := A.RowOf(s.records, id);
            var k := row.externalId.value;
            && k < |s.remote.invoices| && I.Numbered(s.remote.invoices[k], id.record, id.index + 1)
            && RowBehind(s.records, s.remote.invoices[k].(emails := s.remote.invoices[k].emails + [today]), k)
  {
    var row := A.RowOf(s.records, id);
    assert IdOk(s.remote.invoices, id.record, id.index, row);
    assert RowBehind(s.records, s.remote.invoices[row.externalId.value], row.externalId.value);
  }

  lemma SendGrows(s: State, id: A.InvoiceId, today: Date, hasEmail: bool, fate: I.Fate)
    requires RemoteInv(s)
    ensures RemoteGrows(s, I.SendDue(s, id, today, hasEmail, fate))
  {
    hide RemoteOk, OneActiveClient, StoredClientsOk, InvoicesLater, RowBehind, I.DueToSend, IdOk;
    RemoteLaterReflexive(s.remote);
    InvoicesLaterReflexive(s.remote.invoices);
    if id.record in s.records && id.index < |s.records[id.record].rows| {
      var row, rows := A.RowOf(s.records, id), s.records[id.record].rows;
      assert WithRows(s.records, id.record, rows[id.index := row]) == s.records by {
        assert rows[id.index := row] == rows;
      }
      if I.DueToSend(row, today) && hasEmail {
        DueInvoice(s, id, today);
        HasId(row, today);
        MailedOk(s.records, s.remote.invoices, row.externalId.value, today);
        SentIdOk(s, id, today, fate);
        var invoices := if I.TakesEffect(fate) then I.Mailed(s.remote.invoices, row.externalId.value, today) else s.remote.invoices;
        ToldRowOk(s.records, invoices, id, I.SendRow(row, today, hasEmail, fate));
      }
    }
  }

  lemma HasId(row: Invoice, today: Date)
    requires I.DueToSend(row, today)
    ensures row.externalId.Some?
  {
  }

  lemma SentIdOk(s: State, id: A.InvoiceId, today: Date, fate: I.Fate)
    requires RemoteOk(s.records, s.remote.invoices) && id.record in s.records && id.index < |s.records[id.record].rows|
    requires I.DueToSend(A.RowOf(s.records, id), today)
    ensures var row := A.RowOf(s.records, id);
            var k := row.externalId.value;
            var invoices := if I.TakesEffect(fate) then I.Mailed(s.remote.invoices, k, today) else s.remote.invoices;
            IdOk(invoices, id.record, id.index, I.SendRow(row, today, true, fate))
  {
    hide NumbersDistinct, RowsBehind;
    var row := A.RowOf(s.records, id);
    var k := row.externalId.value;
    assert IdOk(s.remote.invoices, id.record, id.index, row);
    if fate == I.Answers {
      var x := I.Mailed(s.remote.invoices, k, today)[k];
      assert x.emails[|x.emails| - 1] == today;
    }
  }

  lemma InvoiceStepGrows(s: State, step: InvoiceStep)
    requires RemoteInv(s) && RecordsOk(s.plans, s.records) && DoInvoice(s, step).Ok?
    ensures RemoteGrows(s, DoInvoice(s, step).value)
  {
    hide RemoteInv, RecordsOk, RemoteGrows, RecordsQuiet, I.Enqueue, I.PushButton, I.Push, I.RunCancellation, I.SendDue, I.SyncPayment, I.ArchiveClient;
    match step
    case Push(r, fates) => PushGrows(s, r, fates);
    case RunCancellation(id, fate) => CancellationGrows(s, id, fate);
    case ArchiveClient(c) => ArchiveClientGrows(s, c);
    case SendDue(id, today, hasEmail, fate) => SendGrows(s, id, today, hasEmail, fate);
    case SyncPayment(id, payment) =>
      PaymentQuiet(s, id, payment);
      QuietGrows(s, DoInvoice(s, step).value);
    case _ =>
      ButtonQuiet(s, step);
      QuietGrows(s, DoInvoice(s, step).value);
  }

  /** Every step keeps one invoice per number, billing a row for its amount, and
      every stored id the id of its number. */
  lemma StepKeepsRemote(s: State, step: Step)
    requires RemoteInv(s) && RecordsOk(s.plans, s.records)
    ensures RemoteGrows(s, After(s, step))
  {
    hide RemoteInv, RecordsOk, RemoteGrows, RecordsQuiet, DoAgreement, DoBilling, DoInvoice;
    UnchangedQuiet(s.records);
    QuietGrows(s, s);
    if Do(s, step).Ok? {
      match step
      case OnAgreement(x) =>
        AgreementFrame(s, x);
        AgreementQuiet(s, x);
        QuietGrows(s, After(s, step));
      case OnBilling(x) =>
        BillingFrame(s, x);
        BillingQuiet(s, x);
        QuietGrows(s, After(s, step));
      case OnInvoice(x) => InvoiceStepGrows(s, x);
    }
  }

  /** From any consistent state, through every run of retries and lost replies. */
  lemma {:induction false} RunKeepsRemote(s: State, steps: seq<Step>)
    requires Inv(s) && RemoteInv(s) && Locked(s, steps)
    ensures RemoteGrows(s, Run(s, steps))
  {
    hide Inv, RemoteInv, After, Unlocks, RemoteLater;
    if steps == [] {
      RemoteLaterReflexive(s.remote);
    } else {
      var init := steps[..|steps| - 1];
      var mid := Run(s, init);
      RunKeepsRemote(s, init);
      RunMovesForward(s, init);
      InvGives(mid);
      StepKeepsRemote(mid, steps[|steps| - 1]);
      RemoteLaterTransitive(s.remote, mid.remote, Run(s, steps).remote);
    }
  }

  lemma InvGives(s: State)
    requires Inv(s)
    ensures RecordsOk(s.plans, s.records)
  {
  }

  lemma EveryRunKeepsRemote(s: State, steps: seq<Step>)
    requires Initial(s) && Locked(s, steps)
    ensures Inv(Run(s, steps)) && RemoteInv(Run(s, steps))
  {
    hide Inv, Locked, Run;
    InitialInv(s);
    RunMovesForward(s, steps);
    RunKeepsRemote(s, steps);
  }
}
