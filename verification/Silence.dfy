/** What the provider is asked to do for a row: no e-mail before its due month, and
    after its cancellation neither an e-mail nor a new invoice, whatever replies were lost. */
module Silence {
  import opened Wrappers
  import opened Calendar
  import opened Domain
  import opened RecordLife
  import opened RemoteLife
  import opened Runs
  import opened RemoteRuns
  import A = AgreementSteps
  import B = BillingSteps
  import I = InvoiceSteps
  import opened Machine

  /** A row of the table that was cancelled. */
  predicate Cancelled(records: map<int, Record>, r: int, i: int) {
    r in records && 0 <= i < |records[r].rows| && records[r].rows[i].cancelledAt.Some?
  }

  /** From `s` to `t` the provider did nothing for the rows cancelled in `s`: each of
      their invoices was there before and was not e-mailed since. */
  ghost predicate SilentSince(s: State, t: State) {
    forall k :: 0 <= k < |t.remote.invoices| ==>
      var x := t.remote.invoices[k];
      Cancelled(s.records, x.record, x.sequence - 1) ==> k < |s.remote.invoices| && x.emails == s.remote.invoices[k].emails
  }

  lemma SameInvoicesSilent(s: State, t: State)
    requires t.remote.invoices == s.remote.invoices
    ensures SilentSince(s, t)
  {
  }

  // ---- pushing ----

  /** Beyond the first `n` invoices there are only some for open rows of the record. */
  ghost predicate AddedForOpen(invoices: seq<RemoteInvoice>, n: nat, r: int, rows: seq<Invoice>) {
    forall k :: n <= k < |invoices| ==>
      invoices[k].record == r && 1 <= invoices[k].sequence <= |rows| && rows[invoices[k].sequence - 1].cancelledAt.None?
  }

  lemma OneAdded(desk: I.Desk, guardian: int, r: int, sequence: int, amount: int, f: I.RowFates)
    ensures var next := I.CreateWithRecovery(desk, guardian, r, sequence, amount, f).0;
            && desk.remote.invoices <= next.remote.invoices
            && forall k :: |desk.remote.invoices| <= k < |next.remote.invoices| ==> I.Numbered(next.remote.invoices[k], r, sequence)
  {
    hide I.FindClient, I.FindInvoice, I.NumberTaken;
  }

  lemma {:induction false} PushAddsForOpen(w: I.Work, guardian: int, r: int, i: nat, failed: Option<ErrorCode>, fates: seq<I.RowFates>)
    requires i <= |w.rows|
    ensures var done := I.PushRows(w, guardian, r, i, failed, fates).0;
            w.desk.remote.invoices <= done.desk.remote.invoices
            && AddedForOpen(done.desk.remote.invoices, |w.desk.remote.invoices|, r, w.rows)
    decreases |w.rows| - i
  {
    hide I.CreateWithRecovery, I.PushRows, AddedForOpen;
    OneTurn(w, guardian, r, i, failed, fates);
    NothingAdded(w.desk.remote.invoices, r, w.rows);
    if i < |w.rows| {
      if !I.Outstanding(w.rows[i]) {
        PushAddsForOpen(w, guardian, r, i + 1, failed, fates);
      } else {
        var (next, reply) := I.PushOne(w, guardian, r, i, I.FatesAt(fates, i));
        OneAdded(w.desk, guardian, r, i + 1, w.rows[i].amount, I.FatesAt(fates, i));
        OneAddedForOpen(w.desk.remote.invoices, next.desk.remote.invoices, r, w.rows, i);
        SameCancellations(w, guardian, r, i, I.FatesAt(fates, i));
        if reply.Got? {
          PushAddsForOpen(next, guardian, r, i + 1, failed, fates);
          AddedTwice(w.desk.remote.invoices, next.desk.remote.invoices, I.PushRows(next, guardian, r, i + 1, failed, fates).0.desk.remote.invoices, r, w.rows, next.rows);
        } else if reply.Failed? && !I.Retried(reply.code) {
          var first := if failed.Some? then failed else Some(reply.code);
          PushAddsForOpen(next, guardian, r, i + 1, first, fates);
          AddedTwice(w.desk.remote.invoices, next.desk.remote.invoices, I.PushRows(next, guardian, r, i + 1, first, fates).0.desk.remote.invoices, r, w.rows, next.rows);
        }
      }
    }
  }

  lemma OneTurn(w: I.Work, guardian: int, r: int, i: nat, failed: Option<ErrorCode>, fates: seq<I.RowFates>)
    requires i <= |w.rows|
    ensures i == |w.rows| ==> I.PushRows(w, guardian, r, i, failed, fates).0 == w
    ensures i < |w.rows| && !I.Outstanding(w.rows[i]) ==>
              I.PushRows(w, guardian, r, i, failed, fates) == I.PushRows(w, guardian, r, i + 1, failed, fates)
    ensures i < |w.rows| && I.Outstanding(w.rows[i]) ==>
              var (next, reply) := I.PushOne(w, guardian, r, i, I.FatesAt(fates, i));
              var first := if failed.Some? then failed else if reply.Failed? then Some(reply.code) else None;
              I.PushRows(w, guardian, r, i, failed, fates).0 ==
                if reply.Got? then I.PushRows(next, guardian, r, i + 1, failed, fates).0
                else if reply.Failed? && !I.Retried(reply.code) then I.PushRows(next, guardian, r, i + 1, first, fates).0
                else next
  {
    hide I.PushOne;
  }

  lemma NothingAdded(invoices: seq<RemoteInvoice>, r: int, rows: seq<Invoice>)
    ensures AddedForOpen(invoices, |invoices|, r, rows)
  {
  }

  lemma OneAddedForOpen(x: seq<RemoteInvoice>, y: seq<RemoteInvoice>, r: int, rows: seq<Invoice>, i: nat)
    requires i < |rows| && rows[i].cancelledAt.None?
    requires forall k :: |x| <= k < |y| ==> I.Numbered(y[k], r, i + 1)
    ensures AddedForOpen(y, |x|, r, rows)
  {
  }

  lemma AddedTwice(x: seq<RemoteInvoice>, y: seq<RemoteInvoice>, z: seq<RemoteInvoice>, r: int, rows: seq<Invoice>, next: seq<Invoice>)
    requires x <= y <= z && AddedForOpen(y, |x|, r, rows) && AddedForOpen(z, |y|, r, next)
    requires |next| == |rows| && forall j :: 0 <= j < |rows| ==> next[j].cancelledAt == rows[j].cancelledAt
    ensures AddedForOpen(z, |x|, r, rows)
  {
    forall k | |x| <= k < |z|
      ensures z[k].record == r && 1 <= z[k].sequence <= |rows| && rows[z[k].sequence - 1].cancelledAt.None?
    {
      assert k < |y| ==> z[k] == y[k];
    }
  }

  lemma SameCancellations(w: I.Work, guardian: int, r: int, i: nat, f: I.RowFates)
    requires i < |w.rows|
    ensures var next := I.PushOne(w, guardian, r, i, f).0;
            |next.rows| == |w.rows| && forall j :: 0 <= j < |w.rows| ==> next.rows[j].cancelledAt == w.rows[j].cancelledAt
  {
    hide I.CreateWithRecovery;
  }

  lemma EnsuringAddsNone(desk: I.Desk, guardian: int, find: I.Fate, create: I.Fate)
    ensures I.EnsureClient(desk, guardian, find, create).0.remote.invoices == desk.remote.invoices
  {
  }

  /** Rows handed to the loop: the record's own, or new ones if it had none. */
  predicate RowsToPush(x: Record, rows: seq<Invoice>) {
    x.rows != [] ==> rows == x.rows
  }

  lemma MaterializedToPush(x: Record, plan: Plan)
    requires x.final != 0 && B.Materialize(x, plan).Ok?
    ensures RowsToPush(x, B.Materialize(x, plan).value)
  {
  }

  lemma PushedSilent(s: State, t: State, r: int, rows: seq<Invoice>)
    requires r in s.records && RowsToPush(s.records[r], rows)
    requires s.remote.invoices <= t.remote.invoices
    requires AddedForOpen(t.remote.invoices, |s.remote.invoices|, r, rows)
    ensures SilentSince(s, t)
  {
  }

  lemma ProviderSilent(s: State, r: int, fates: I.PushFates)
    requires r in s.records && s.records[r].member in s.members && s.records[r].plan in s.plans && s.records[r].final != 0
    ensures SilentSince(s, I.PushToProvider(s, r, fates))
  {
    hide I.PushRows, I.EnsureClient, B.Materialize, SilentSince, RowsToPush, AddedForOpen;
    var x, guardian := s.records[r], s.members[s.records[r].member].guardian;
    var t := I.PushToProvider(s, r, fates);
    EnsuringAddsNone(I.DeskOf(s, guardian), guardian, fates.find, fates.create);
    var desk := I.EnsureClient(I.DeskOf(s, guardian), guardian, fates.find, fates.create).0;
    if B.Materialize(x, s.plans[x.plan]).Ok? {
      var rows := B.Materialize(x, s.plans[x.plan]).value;
      MaterializedToPush(x, s.plans[x.plan]);
      PushAddsForOpen(I.Work(rows, desk), guardian, r, 0, None, fates.rows);
      if t.remote.invoices != s.remote.invoices {
        PushedSilent(s, t, r, rows);
      }
    }
    if t.remote.invoices == s.remote.invoices {
      SameInvoicesSilent(s, t);
    }
  }

  /** A push adds invoices only for open rows of its record. */
  lemma PushSilent(s: State, r: int, fates: I.PushFates)
    ensures SilentSince(s, I.Push(s, r, fates))
  {
    hide I.PushToProvider, SilentSince;
    var t := I.Push(s, r, fates);
    if t.remote.invoices == s.remote.invoices {
      SameInvoicesSilent(s, t);
    } else {
      ProviderSilent(s, r, fates);
    }
  }

  // ---- the other jobs ----

  lemma SameEmailsSilent(s: State, t: State)
    requires |t.remote.invoices| == |s.remote.invoices|
    requires forall k :: 0 <= k < |s.remote.invoices| ==> t.remote.invoices[k].emails == s.remote.invoices[k].emails
    ensures SilentSince(s, t)
  {
  }

  lemma CancellationSilent(s: State, id: A.InvoiceId, fate: I.Fate)
    ensures SilentSince(s, I.RunCancellation(s, id, fate))
  {
    hide SilentSince, I.WithRow;
    SameEmailsSilent(s, I.RunCancellation(s, id, fate));
  }

  /** The sweep e-mails only invoices of open rows. */
  lemma SendSilent(s: State, id: A.InvoiceId, today: Date, hasEmail: bool, fate: I.Fate)
    requires RemoteInv(s)
    ensures SilentSince(s, I.SendDue(s, id, today, hasEmail, fate))
  {
    hide I.SendRow, NumbersDistinct, OneActiveClient, StoredClientsOk, RowsBehind;
    var t := I.SendDue(s, id, today, hasEmail, fate);
    if t.remote.invoices == s.remote.invoices {
      SameInvoicesSilent(s, t);
    } else {
      var row := A.RowOf(s.records, id);
      assert IdOk(s.remote.invoices, id.record, id.index, row);
    }
  }

  lemma InvoiceStepSilent(s: State, step: InvoiceStep)
    requires RemoteInv(s) && DoInvoice(s, step).Ok?
    ensures SilentSince(s, DoInvoice(s, step).value)
  {
    hide RemoteInv, SilentSince, I.Enqueue, I.PushButton, I.Push, I.RunCancellation, I.SendDue, I.SyncPayment, I.ArchiveClient;
    match step
    case Push(r, fates) => PushSilent(s, r, fates);
    case RunCancellation(id, fate) => CancellationSilent(s, id, fate);
    case SendDue(id, today, hasEmail, fate) => SendSilent(s, id, today, hasEmail, fate);
    case ArchiveClient(c) =>
      ArchivingKeepsInvoices(s, c);
      SameInvoicesSilent(s, I.ArchiveClient(s, c));
    case SyncPayment(id, payment) =>
      PaymentQuiet(s, id, payment);
      SameInvoicesSilent(s, I.SyncPayment(s, id, payment));
    case _ =>
      ButtonQuiet(s, step);
      SameInvoicesSilent(s, DoInvoice(s, step).value);
  }

  lemma ArchivingKeepsInvoices(s: State, c: nat)
    ensures I.ArchiveClient(s, c).remote.invoices == s.remote.invoices
  {
  }

  /** No step asks the provider for anything on behalf of a cancelled row. */
  lemma StepSilent(s: State, step: Step)
    requires RemoteInv(s)
    ensures SilentSince(s, After(s, step))
  {
    hide RemoteInv, SilentSince, DoAgreement, DoBilling, DoInvoice;
    if Do(s, step).Ok? {
      match step
      case OnAgreement(x) =>
        AgreementFrame(s, x);
        SameInvoicesSilent(s, After(s, step));
      case OnBilling(x) =>
        BillingFrame(s, x);
        SameInvoicesSilent(s, After(s, step));
      case OnInvoice(x) => InvoiceStepSilent(s, x);
    } else {
      SameInvoicesSilent(s, s);
    }
  }

  // ---- runs ----

  lemma StillCancelled(x: map<int, Record>, y: map<int, Record>, r: int, i: int)
    requires RecordsLater(x, y) && Cancelled(x, r, i)
    ensures Cancelled(y, r, i)
  {
    assert RecordLater(x[r], y[r]);
    assert RowLater(x[r].rows[i], y[r].rows[i]);
  }

  lemma SilentTransitive(s: State, t: State, u: State)
    requires SilentSince(s, t) && SilentSince(t, u)
    requires RecordsLater(s.records, t.records) && InvoicesLater(t.remote.invoices, u.remote.invoices)
    ensures SilentSince(s, u)
  {
    hide RecordsLater, Cancelled;
    forall k | 0 <= k < |u.remote.invoices|
      ensures var x := u.remote.invoices[k];
              Cancelled(s.records, x.record, x.sequence - 1) ==> k < |s.remote.invoices| && x.emails == s.remote.invoices[k].emails
    {
      var x := u.remote.invoices[k];
      if Cancelled(s.records, x.record, x.sequence - 1) {
        StillCancelled(s.records, t.records, x.record, x.sequence - 1);
        assert InvoiceLater(t.remote.invoices[k], x);
      }
    }
  }

  lemma {:induction false} RunSilent(s: State, steps: seq<Step>)
    requires Inv(s) && RemoteInv(s) && Locked(s, steps)
    ensures SilentSince(s, Run(s, steps))
  {
    hide Inv, RemoteInv, After, Unlocks, SilentSince, RecordsLater, InvoicesLater;
    if steps == [] {
      SameInvoicesSilent(s, s);
    } else {
      var init, step := steps[..|steps| - 1], steps[|steps| - 1];
      var mid := Run(s, init);
      RunSilent(s, init);
      RunMovesForward(s, init);
      RunKeepsRemote(s, init);
      InvGives(mid);
      StepKeepsRemote(mid, step);
      StepSilent(mid, step);
      SilentTransitive(s, mid, Run(s, steps));
    }
  }

  // ---- what that means ----

  /** Once a row is cancelled, through every later run and whatever replies are lost, the
      provider gets no new invoice with its number and e-mails none it has. */
  lemma CancelledRowsAreLeftAlone(s: State, steps: seq<Step>, r: int, i: nat, k: nat)
    requires Inv(s) && RemoteInv(s) && Locked(s, steps) && Cancelled(s.records, r, i)
    requires k < |Run(s, steps).remote.invoices| && I.Numbered(Run(s, steps).remote.invoices[k], r, i + 1)
    ensures k < |s.remote.invoices| && I.Numbered(s.remote.invoices[k], r, i + 1)
    ensures Run(s, steps).remote.invoices[k].emails == s.remote.invoices[k].emails
  {
    hide Run, Locked, Inv, OneActiveClient, StoredClientsOk, RemoteOk;
    RunSilent(s, steps);
    RunKeepsRemote(s, steps);
    assert InvoiceLater(s.remote.invoices[k], Run(s, steps).remote.invoices[k]);
  }

  /** In every reachable state each e-mail the provider sent, also one whose reply was
      lost, went out on or after the first day of its row's due month. */
  lemma NoEmailBeforeTheDueMonth(s: State, steps: seq<Step>, k: nat, j: nat)
    requires Initial(s) && Locked(s, steps)
    requires k < |Run(s, steps).remote.invoices| && j < |Run(s, steps).remote.invoices[k].emails|
    ensures var t := Run(s, steps);
            var x := t.remote.invoices[k];
            && x.record in t.records && 1 <= x.sequence <= |t.records[x.record].rows|
            && x.emails[j].Key() >= t.records[x.record].rows[x.sequence - 1].due.FirstOfMonth().Key()
  {
    hide Run, Locked, Initial, Inv, OneActiveClient, StoredClientsOk, NumbersDistinct, IdsOk;
    EveryRunKeepsRemote(s, steps);
    assert RowBehind(Run(s, steps).records, Run(s, steps).remote.invoices[k], k);
  }

  /** A row is marked sent on a day its own invoice was e-mailed. */
  lemma SentMeansEmailed(s: State, steps: seq<Step>, r: int, i: nat)
    requires Initial(s) && Locked(s, steps)
    requires r in Run(s, steps).records && i < |Run(s, steps).records[r].rows| && Run(s, steps).records[r].rows[i].sentOn.Some?
    ensures var t := Run(s, steps);
            var row := t.records[r].rows[i];
            && row.externalId.Some? && row.externalId.value < |t.remote.invoices|
            && I.Numbered(t.remote.invoices[row.externalId.value], r, i + 1)
            && row.sentOn.value in t.remote.invoices[row.externalId.value].emails
  {
    hide Run, Locked, Initial, OneActiveClient, StoredClientsOk, NumbersDistinct, RowsBehind, RowsAsScheduled, CountOk, AmountsOk, StatusOk;
    EveryRunKeepsRemote(s, steps);
    var t := Run(s, steps);
    assert RecordOk(t.plans, t.records[r]);
    assert RowOk(t.records[r].rows[i]);
    assert IdOk(t.remote.invoices, r, i, t.records[r].rows[i]);
  }

  /** What the sweep makes the provider e-mail: the invoice of a row that is open and
      still a draft, in or past its due month, when the guardian has an address and the
      call takes effect; nothing else. */
  lemma EmailedExactly(s: State, id: A.InvoiceId, today: Date, hasEmail: bool, fate: I.Fate)
    requires RemoteInv(s) && RecordsOk(s.plans, s.records)
    requires id.record in s.records && id.index < |s.records[id.record].rows|
    ensures var row, t := A.RowOf(s.records, id), I.SendDue(s, id, today, hasEmail, fate);
            && (t.remote.invoices != s.remote.invoices <==>
                  && row.cancelledAt.None? && row.externalId.Some? && row.sentOn.None? && hasEmail
                  && today.Key() >= row.due.FirstOfMonth().Key()
                  && fate in {I.Answers, I.ReplyLost, I.Dies(true)})
            && (t.remote.invoices != s.remote.invoices ==>
                  && row.externalId.value < |s.remote.invoices|
                  && t.remote.invoices == I.Mailed(s.remote.invoices, row.externalId.value, today))
  {
    hide I.SendRow, NumbersDistinct, OneActiveClient, StoredClientsOk, RowsBehind, RowsAsScheduled, CountOk, AmountsOk, StatusOk;
    var row := A.RowOf(s.records, id);
    assert RecordOk(s.plans, s.records[id.record]);
    assert RowOk(row);
    assert IdOk(s.remote.invoices, id.record, id.index, row);
    if row.externalId.Some? {
      var k := row.externalId.value;
      var x := s.remote.invoices[k];
      assert |I.Mailed(s.remote.invoices, k, today)[k].emails| == |x.emails| + 1;
    }
  }
}
