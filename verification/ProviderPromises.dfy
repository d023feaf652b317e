/** What retries, lost replies and stale clients can and cannot do to the invoices
    at the provider. */
module ProviderPromises {
  import opened Wrappers
  import opened Text
  import opened Money
  import opened Calendar
  import opened Domain
  import opened RecordLife
  import opened RemoteLife
  import opened AgreementLife
  import opened RecordRuns
  import opened Links
  import opened Runs
  import opened RemoteRuns
  import opened Promises
  import A = AgreementSteps
  import B = BillingSteps
  import I = InvoiceSteps
  import AgreementNumbers
  import opened Machine

  // ---- one invoice per number ----

  /** Whatever the provider answered: a number belongs to one invoice, that invoice
      bills a row of the record for its amount, and a stored id is the id of it. */
  lemma OneInvoicePerNumber(s: State, steps: seq<Step>, j: nat, k: nat)
    requires Initial(s) && Locked(s, steps)
    requires j < |Run(s, steps).remote.invoices| && k < |Run(s, steps).remote.invoices|
    ensures var t := Run(s, steps);
            var x, y := t.remote.invoices[j], t.remote.invoices[k];
            && (x.record == y.record && x.sequence == y.sequence ==> j == k)
            && x.record in t.records && 1 <= x.sequence <= |t.records[x.record].rows|
            && x.amount == t.records[x.record].rows[x.sequence - 1].amount
            && (t.records[x.record].rows[x.sequence - 1].externalId.Some? ==>
                  t.records[x.record].rows[x.sequence - 1].externalId == Some(j))
  {
    hide Run, Locked, Initial, Inv, OneActiveClient, StoredClientsOk, NumbersDistinct;
    EveryRunKeepsRemote(s, steps);
    var t := Run(s, steps);
    var x, y := t.remote.invoices[j], t.remote.invoices[k];
    assert RowBehind(t.records, x, j) && RowBehind(t.records, y, k);
    var i := x.sequence - 1;
    var row := t.records[x.record].rows[i];
    assert IdOk(t.remote.invoices, x.record, i, row);
    if y.record == x.record && y.sequence == x.sequence {
      SameNumber(t.remote.invoices, j, k, x.record, x.sequence);
    }
    if row.externalId.Some? {
      SameNumber(t.remote.invoices, j, row.externalId.value, x.record, x.sequence);
    }
  }

  lemma SameNumber(invoices: seq<RemoteInvoice>, j: nat, k: nat, r: int, sequence: int)
    requires NumbersDistinct(invoices) && j < |invoices| && k < |invoices|
    requires I.Numbered(invoices[j], r, sequence) && I.Numbered(invoices[k], r, sequence)
    ensures j == k
  {
  }

  /** A guardian never has two active clients, even after lost replies, and a stored
      client id is that guardian's. */
  lemma OneClientPerGuardian(s: State, steps: seq<Step>, b: nat, c: nat, g: int)
    requires Initial(s) && Locked(s, steps)
    requires b < |Run(s, steps).remote.clients| && c < |Run(s, steps).remote.clients|
    ensures var clients := Run(s, steps).remote.clients;
            clients[b].active && clients[c].active && clients[b].guardian == clients[c].guardian ==> b == c
    ensures g in Run(s, steps).clientIds ==> ClientOk(Run(s, steps).remote.clients, g, Some(Run(s, steps).clientIds[g]))
  {
    hide Run, Locked, Initial, Inv, RemoteOk, ClientOk;
    EveryRunKeepsRemote(s, steps);
  }

  /** An external id, once stored, is never exchanged for another. */
  lemma IdsNeverChange(s: State, steps: seq<Step>, r: int, i: nat)
    requires Inv(s) && Locked(s, steps) && r in s.records && i < |s.records[r].rows| && s.records[r].rows[i].externalId.Some?
    ensures r in Run(s, steps).records && i < |Run(s, steps).records[r].rows|
    ensures Run(s, steps).records[r].rows[i].externalId == s.records[r].rows[i].externalId
  {
    hide Run, Locked, Inv;
    RunMovesForward(s, steps);
    assert RecordLater(s.records[r], Run(s, steps).records[r]);
    assert RowLater(s.records[r].rows[i], Run(s, steps).records[r].rows[i]);
  }

  // ---- what the provider bills ----

  function Live(x: RemoteInvoice, r: int): int {
    if x.record == r && x.active && !x.voided then x.amount else 0
  }

  /** What the provider has in circulation for a record. */
  function RemoteTotal(invoices: seq<RemoteInvoice>, r: int): int {
    if invoices == [] then 0
    else RemoteTotal(invoices[..|invoices| - 1], r) + Live(invoices[|invoices| - 1], r)
  }

  function UpTo(x: RemoteInvoice, r: int, n: int): int {
    if x.sequence <= n then Live(x, r) else 0
  }

  function TotalUpTo(invoices: seq<RemoteInvoice>, r: int, n: int): int {
    if invoices == [] then 0
    else TotalUpTo(invoices[..|invoices| - 1], r, n) + UpTo(invoices[|invoices| - 1], r, n)
  }

  function At(x: RemoteInvoice, r: int, n: int): int {
    if x.sequence == n then Live(x, r) else 0
  }

  function TotalAt(invoices: seq<RemoteInvoice>, r: int, n: int): int {
    if invoices == [] then 0
    else TotalAt(invoices[..|invoices| - 1], r, n) + At(invoices[|invoices| - 1], r, n)
  }

  /** The provider still has a live invoice with this number. */
  predicate LiveAt(invoices: seq<RemoteInvoice>, r: int, n: int) {
    exists k :: 0 <= k < |invoices| && I.Numbered(invoices[k], r, n) && invoices[k].active && !invoices[k].voided
  }

  /** What counts of a record: its open rows, and the cancelled ones still live. */
  function Counted(invoices: seq<RemoteInvoice>, r: int, rows: seq<Invoice>): seq<int> {
    seq(|rows|, i requires 0 <= i < |rows| =>
      if rows[i].cancelledAt.None? || LiveAt(invoices, r, i + 1) then rows[i].amount else 0)
  }

  lemma {:induction false} OneMoreNumber(invoices: seq<RemoteInvoice>, r: int, n: int)
    ensures TotalUpTo(invoices, r, n + 1) == TotalUpTo(invoices, r, n) + TotalAt(invoices, r, n + 1)
  {
    hide Live;
    if invoices != [] {
      OneMoreNumber(invoices[..|invoices| - 1], r, n);
    }
  }

  /** A number that no invoice has adds nothing. */
  lemma {:induction false} FreeNumber(invoices: seq<RemoteInvoice>, r: int, n: int)
    requires forall k :: 0 <= k < |invoices| ==> !I.Numbered(invoices[k], r, n)
    ensures TotalAt(invoices, r, n) == 0
  {
    if invoices != [] {
      var last := |invoices| - 1;
      assert !I.Numbered(invoices[last], r, n);
      assert forall k :: 0 <= k < last ==> invoices[..last][k] == invoices[k];
      FreeNumber(invoices[..last], r, n);
    }
  }

  /** One number adds its one invoice, if that is live. */
  lemma {:induction false} TakenNumber(invoices: seq<RemoteInvoice>, r: int, n: int, k: nat)
    requires NumbersDistinct(invoices) && k < |invoices| && I.Numbered(invoices[k], r, n)
    ensures TotalAt(invoices, r, n) == Live(invoices[k], r)
  {
    var last := |invoices| - 1;
    var init := invoices[..last];
    if k == last {
      forall j | 0 <= j < last ensures !I.Numbered(init[j], r, n) {
        assert !I.Numbered(invoices[j], invoices[last].record, invoices[last].sequence);
      }
      FreeNumber(init, r, n);
    } else {
      assert !I.Numbered(invoices[k], invoices[last].record, invoices[last].sequence);
      assert NumbersDistinct(init);
      assert invoices[k] == init[k];
      TakenNumber(init, r, n, k);
    }
  }

  /** One row of the record: what its number adds is what counts of it. */
  lemma OneRowAdds(records: map<int, Record>, invoices: seq<RemoteInvoice>, r: int, i: nat)
    requires RemoteOk(records, invoices) && r in records && i < |records[r].rows|
    requires records[r].rows[i].cancelledAt.None? ==> records[r].rows[i].externalId.Some?
    ensures TotalAt(invoices, r, i + 1) == Counted(invoices, r, records[r].rows)[i]
  {
    hide NumbersDistinct, RowsBehind;
    var row := records[r].rows[i];
    assert IdOk(invoices, r, i, row);
    if k: nat :| k < |invoices| && I.Numbered(invoices[k], r, i + 1) {
      TakenNumber(invoices, r, i + 1, k);
      BehindRow(records, invoices, k);
      forall j: nat | j < |invoices| && I.Numbered(invoices[j], r, i + 1) ensures j == k {
        SameNumber(invoices, j, k, r, i + 1);
      }
    } else {
      FreeNumber(invoices, r, i + 1);
    }
  }

  lemma BehindRow(records: map<int, Record>, invoices: seq<RemoteInvoice>, k: nat)
    requires RowsBehind(records, invoices) && k < |invoices|
    ensures RowBehind(records, invoices[k], k)
  {
  }

  lemma {:induction false} NumbersAddUp(records: map<int, Record>, invoices: seq<RemoteInvoice>, r: int, n: nat)
    requires RemoteOk(records, invoices) && r in records && n <= |records[r].rows|
    requires forall i :: 0 <= i < |records[r].rows| && records[r].rows[i].cancelledAt.None? ==> records[r].rows[i].externalId.Some?
    ensures TotalUpTo(invoices, r, n) == Sum(Counted(invoices, r, records[r].rows)[..n])
  {
    hide RemoteOk, LiveAt;
    var counted := Counted(invoices, r, records[r].rows);
    if n == 0 {
      NoNumbersYet(records, invoices, r) by {
        RowsAreBehind(records, invoices);
      }
      assert counted[..0] == [];
    } else {
      NumbersAddUp(records, invoices, r, n - 1);
      OneMoreNumber(invoices, r, n - 1);
      OneRowAdds(records, invoices, r, n - 1);
      assert counted[..n][..n - 1] == counted[..n - 1];
    }
  }

  lemma RowsAreBehind(records: map<int, Record>, invoices: seq<RemoteInvoice>)
    requires RemoteOk(records, invoices)
    ensures RowsBehind(records, invoices)
  {
  }

  lemma NoNumbersYet(records: map<int, Record>, invoices: seq<RemoteInvoice>, r: int)
    requires RowsBehind(records, invoices)
    ensures TotalUpTo(invoices, r, 0) == 0
  {
    forall k | 0 <= k < |invoices| ensures UpTo(invoices[k], r, 0) == 0 {
      assert RowBehind(records, invoices[k], k);
    }
    AllZero(invoices, r, 0);
  }

  lemma {:induction false} AllZero(invoices: seq<RemoteInvoice>, r: int, n: int)
    requires forall k :: 0 <= k < |invoices| ==> UpTo(invoices[k], r, n) == 0
    ensures TotalUpTo(invoices, r, n) == 0
  {
    hide UpTo;
    if invoices != [] {
      AllZero(invoices[..|invoices| - 1], r, n);
    }
  }

  lemma {:induction false} WholeTotal(invoices: seq<RemoteInvoice>, r: int, n: int)
    requires forall k :: 0 <= k < |invoices| ==> Live(invoices[k], r) == UpTo(invoices[k], r, n)
    ensures RemoteTotal(invoices, r) == TotalUpTo(invoices, r, n)
  {
    hide UpTo, Live;
    if invoices != [] {
      WholeTotal(invoices[..|invoices| - 1], r, n);
    }
  }

  /** In every consistent state, what the provider has in circulation for a synced
      record is exactly its open rows and those cancelled rows whose invoice is live. */
  lemma SyncedMeansBilledExactly(s: State, r: int)
    requires Inv(s) && RemoteInv(s) && r in s.records && s.records[r].sync == Synced
    ensures RemoteTotal(s.remote.invoices, r) == Sum(Counted(s.remote.invoices, r, s.records[r].rows))
  {
    hide OneRecordEach, AllLinked, AgreementsOk, AgreementsHaveMembers, AwaitingOk, OneActiveClient, StoredClientsOk, NumbersDistinct, IdsOk;
    hide RowsAsScheduled, CountOk, AmountsOk;
    var x, invoices := s.records[r], s.remote.invoices;
    assert RecordOk(s.plans, x);
    if x.rows != [] {
      RowsAddUp(s.plans, x);
    }
    forall i | 0 <= i < |x.rows| && x.rows[i].cancelledAt.None? ensures x.rows[i].externalId.Some? {
      assert !I.Outstanding(x.rows[i]);
    }
    NumbersAddUp(s.records, invoices, r, |x.rows|);
    assert Counted(invoices, r, x.rows)[..|x.rows|] == Counted(invoices, r, x.rows);
    forall k | 0 <= k < |invoices| ensures Live(invoices[k], r) == UpTo(invoices[k], r, |x.rows|) {
      assert RowBehind(s.records, invoices[k], k);
    }
    WholeTotal(invoices, r, |x.rows|);
  }

  /** Without a cancelled row that is the record's total, to the cent. */
  lemma UncancelledMeansBilledInFull(s: State, r: int)
    requires Inv(s) && RemoteInv(s) && r in s.records && s.records[r].sync == Synced
    requires forall i :: 0 <= i < |s.records[r].rows| ==> s.records[r].rows[i].cancelledAt.None?
    ensures RemoteTotal(s.remote.invoices, r) == s.records[r].final
  {
    hide OneRecordEach, AllLinked, AgreementsOk, AgreementsHaveMembers, AwaitingOk, RemoteInv, RecordOk, LiveAt;
    SyncedMeansBilledExactly(s, r);
    TotalOfRows(s.plans, s.records[r]);
    assert Counted(s.remote.invoices, r, s.records[r].rows) == RowAmounts(s.records[r].rows);
  }

  lemma TotalOfRows(plans: map<int, Plan>, x: Record)
    requires RecordOk(plans, x) && x.sync == Synced
    ensures Sum(RowAmounts(x.rows)) == x.final
  {
    hide RowsAsScheduled, CountOk, AmountsOk;
    if x.rows != [] {
      RowsAddUp(plans, x);
    } else {
      assert RowAmounts(x.rows) == [];
    }
  }

  // ---- a push that the provider answers ----

  lemma HealthyCreate(records: map<int, Record>, desk: I.Desk, guardian: int, r: int, sequence: int, amount: int)
    requires RemoteOk(records, desk.remote.invoices) && Billed(records, r, sequence, amount) && desk.client.Some?
    ensures var (next, reply) := I.CreateWithRecovery(desk, guardian, r, sequence, amount, I.HEALTHY);
            reply.Got? && next.client.Some?
  {
    hide RemoteOk;
    if I.NumberTaken(desk.remote, r, sequence) {
      var k :| 0 <= k < |desk.remote.invoices| && I.Numbered(desk.remote.invoices[k], r, sequence);
      OpenRowIsLive(records, desk.remote.invoices, r, sequence, amount, k);
    }
  }

  lemma {:induction false} HealthyRows(records: map<int, Record>, w: I.Work, guardian: int, r: int, i: nat)
    requires r in records && i <= |w.rows| && RowsOk(w.rows) && w.desk.client.Some?
    requires RemoteOk(WithRows(records, r, w.rows), w.desk.remote.invoices)
    requires OneActiveClient(w.desk.remote.clients) && DeskOk(w.desk, guardian)
    ensures I.PushRows(w, guardian, r, i, None, []).1 == I.Finished(None)
    decreases |w.rows| - i
  {
    hide RemoteOk, OneActiveClient, I.CreateWithRecovery, InvoicesLater, RowOk, DeskOk;
    if i < |w.rows| {
      if !I.Outstanding(w.rows[i]) {
        HealthyRows(records, w, guardian, r, i + 1);
      } else {
        var amount := w.rows[i].amount;
        var now := WithRows(records, r, w.rows);
        assert I.FatesAt([], i) == I.HEALTHY;
        HealthyCreate(now, w.desk, guardian, r, i + 1, amount);
        CreateWithRecoveryOk(now, w.desk, guardian, r, i + 1, amount, I.HEALTHY);
        var (desk, reply) := I.CreateWithRecovery(w.desk, guardian, r, i + 1, amount, I.HEALTHY);
        var id := reply.value;
        NotQueuedYet(w.rows[i]);
        RowPushedOk(records, desk.remote.invoices, r, w.rows, i, id);
        NextRowsOk(w.rows, i, id);
        HealthyRows(records, I.Work(w.rows[i := I.RowPushed(w.rows[i], id)], desk), guardian, r, i + 1);
      }
    }
  }

  const HEALTHY_PUSH := I.PushFates(I.Answers, I.Answers, I.Answers, [])

  lemma HealthyProvider(s: State, r: int)
    requires Inv(s) && RemoteInv(s)
    requires r in s.records && s.records[r].member in s.members && s.records[r].plan in s.plans && s.records[r].final != 0
    ensures r in I.PushToProvider(s, r, HEALTHY_PUSH).records
    ensures I.PushToProvider(s, r, HEALTHY_PUSH).records[r].sync == Synced <==>
              B.Materialize(s.records[r], s.plans[s.records[r].plan]).Ok?
    ensures I.PushToProvider(s, r, HEALTHY_PUSH).records[r].sync in {Synced, PendingSync}
  {
    hide RecordsOk, OneRecordEach, AllLinked, AgreementsOk, AgreementsHaveMembers, AwaitingOk, StoredClientsOk, RemoteOk, OneActiveClient;
    hide I.PushRows, I.EnsureClient, I.DeskOf, B.Materialize, RowsOk, ClientOk;
    var guardian := s.members[s.records[r].member].guardian;
    DeskOfOk(s, guardian);
    DeskIs(s, guardian);
    EnsureClientOk(I.DeskOf(s, guardian), guardian, I.Answers, I.Answers);
    HealthyClient(I.DeskOf(s, guardian), guardian);
    var (desk, client) := I.EnsureClient(I.DeskOf(s, guardian), guardian, I.Answers, I.Answers);
    if B.Materialize(s.records[r], s.plans[s.records[r].plan]).Ok? {
      MaterializeKeepsRemote(s, r);
      HealthyRows(s.records, I.Work(B.Materialize(s.records[r], s.plans[s.records[r].plan]).value, desk), guardian, r, 0);
    }
  }

  lemma HealthyClient(desk: I.Desk, guardian: int)
    ensures I.EnsureClient(desk, guardian, I.Answers, I.Answers).1.Got?
  {
  }

  /** One push that the provider answers throughout syncs a confirmed record in every
      reachable state, exactly when it was synced, is for nothing, or its rows exist
      or can be scheduled; no earlier failure is in the way. */
  lemma HealthyPushSyncs(s: State, r: int)
    requires Inv(s) && RemoteInv(s) && r in s.records && s.records[r].status == Confirmed
    ensures r in I.Push(s, r, HEALTHY_PUSH).records
    ensures var x := s.records[r];
            I.Push(s, r, HEALTHY_PUSH).records[r].sync == Synced <==>
            x.sync == Synced || x.final == 0 || x.rows != [] ||
            (x.plan in s.plans && Schedule.InstallmentSchedule(s.plans[x.plan], x.final, x.month, x.count).Ok?)
  {
    hide OneRecordEach, AgreementsHaveMembers, AgreementsOk, AwaitingOk, I.PushToProvider, RemoteInv;
    hide Schedule.InstallmentSchedule, RowsAsScheduled, CountOk, AmountsOk, RowsOk, StatusOk;
    var x := s.records[r];
    assert Linked(s, x) && RecordOk(s.plans, x);
    if x.sync != Synced && x.final != 0 {
      HealthyProvider(s, r);
    }
  }

  /** A record that a push could not schedule is left pending, and from then on neither
      queueing nor the push button does anything for it: the job that would clear the
      status is never queued again. */
  lemma PendingIsStuckExactly(s: State, r: int, confirmToo: bool)
    requires Inv(s) && RemoteInv(s) && r in s.records && s.records[r].status == Confirmed
    ensures r in I.Push(s, r, HEALTHY_PUSH).records
    ensures var x, t := s.records[r], I.Push(s, r, HEALTHY_PUSH);
            && (t.records[r].sync == PendingSync <==>
                  x.sync != Synced && x.final != 0 && x.rows == [] &&
                  Schedule.InstallmentSchedule(s.plans[x.plan], x.final, x.month, x.count).Err?)
            && (t.records[r].sync == PendingSync ==> I.Enqueue(t, r) == t && I.PushButton(t, r, confirmToo) == Ok(t))
  {
    hide OneRecordEach, AgreementsHaveMembers, AgreementsOk, AwaitingOk, I.PushToProvider, RemoteInv;
    hide Schedule.InstallmentSchedule, RowsAsScheduled, CountOk, AmountsOk, RowsOk, StatusOk;
    var x := s.records[r];
    assert Linked(s, x) && RecordOk(s.plans, x);
    HealthyPushSyncs(s, r);
    if x.sync != Synced && x.final != 0 {
      HealthyProvider(s, r);
    }
    var t := I.Push(s, r, HEALTHY_PUSH);
    StillConfirmed(s, r);
    if t.records[r].sync == PendingSync {
      PressedAgain(t, r, confirmToo);
    }
  }

  lemma StillConfirmed(s: State, r: int)
    requires r in s.records
    ensures var t := I.Push(s, r, HEALTHY_PUSH);
            r in t.records && t.records[r].status == s.records[r].status
  {
    hide I.PushToProvider;
  }

  /** The button works on a confirmed record, and on a draft only with the request to
      confirm it. It leaves the record confirmed and synced if it was, else pending, and
      pressing again changes nothing. */
  lemma ButtonTwiceIsOnce(s: State, r: int, confirmToo: bool, again: bool)
    ensures I.PushButton(s, r, confirmToo).Ok? <==> r in s.records && (s.records[r].status == RecordStatus.Draft ==> confirmToo)
    ensures I.PushButton(s, r, confirmToo).Ok? ==>
            var t := I.PushButton(s, r, confirmToo).value;
            && r in t.records && t.records[r].status == Confirmed && t.records[r].sync in {PendingSync, Synced}
            && (t.records[r].sync == Synced <==> s.records[r].sync == Synced)
            && t == s.(records := s.records[r := s.records[r].(status := Confirmed, sync := t.records[r].sync, error := t.records[r].error)])
            && I.PushButton(t, r, again) == Ok(t) && I.Enqueue(t, r) == t
  {
    hide I.PushButton;
    PressedOnce(s, r, confirmToo);
    if I.PushButton(s, r, confirmToo).Ok? {
      PressedAgain(I.PushButton(s, r, confirmToo).value, r, again);
    }
  }

  lemma PressedOnce(s: State, r: int, confirmToo: bool)
    ensures I.PushButton(s, r, confirmToo).Ok? <==> r in s.records && (s.records[r].status == RecordStatus.Draft ==> confirmToo)
    ensures I.PushButton(s, r, confirmToo).Ok? ==>
              var t := I.PushButton(s, r, confirmToo).value;
              && r in t.records && t.records[r].status == Confirmed && t.records[r].sync in {PendingSync, Synced}
              && (t.records[r].sync == Synced <==> s.records[r].sync == Synced)
              && t == s.(records := s.records[r := s.records[r].(status := Confirmed, sync := t.records[r].sync, error := t.records[r].error)])
  {
    hide I.Enqueue, B.Confirm;
    if r in s.records {
      ConfirmedRecord(s, r);
      QueuedRecord(B.Confirm(s, r).value, r);
    }
  }

  lemma ConfirmedRecord(s: State, r: int)
    requires r in s.records
    ensures B.Confirm(s, r) == Ok(s.(records := s.records[r := s.records[r].(status := Confirmed)]))
  {
    assert s.records[r].status == Confirmed ==> s.records[r := s.records[r].(status := Confirmed)] == s.records;
  }

  lemma QueuedRecord(s: State, r: int)
    requires r in s.records && s.records[r].status == Confirmed
    ensures I.Enqueue(s, r) == if s.records[r].sync in {Synced, PendingSync} then s
                               else s.(records := s.records[r := s.records[r].(sync := PendingSync, error := None)])
  {
  }

  lemma PressedAgain(s: State, r: int, again: bool)
    requires r in s.records && s.records[r].status == Confirmed && s.records[r].sync in {PendingSync, Synced}
    ensures I.PushButton(s, r, again) == Ok(s) && I.Enqueue(s, r) == s
  {
  }

  // ---- what a cancellation can miss ----

  /** A finished cancellation has taken the invoice out of circulation. */
  lemma FinishedCancellationsAreOut(s: State, r: int, i: nat)
    requires RemoteInv(s) && RecordsOk(s.plans, s.records) && r in s.records && i < |s.records[r].rows|
    requires s.records[r].rows[i].cancelStatus == CancelDone
    ensures s.records[r].rows[i].externalId.Some? && s.records[r].rows[i].externalId.value < |s.remote.invoices|
    ensures var x := s.remote.invoices[s.records[r].rows[i].externalId.value];
            I.Numbered(x, r, i + 1) && (!x.active || x.voided)
  {
    hide NumbersDistinct, RowsBehind, OneActiveClient, StoredClientsOk, RowsAsScheduled, CountOk, AmountsOk, StatusOk;
    assert RecordOk(s.plans, s.records[r]);
    assert RowOk(s.records[r].rows[i]);
    assert IdOk(s.remote.invoices, r, i, s.records[r].rows[i]);
  }

  /** An invoice whose reply was lost and whose row was then cancelled is never taken
      out of circulation: no later step of any run knows its id. */
  lemma LostInvoiceStaysLive(s: State, steps: seq<Step>, r: int, i: nat, k: nat)
    requires Inv(s) && RemoteInv(s) && Locked(s, steps) && r in s.records && i < |s.records[r].rows|
    requires s.records[r].rows[i].cancelledAt.Some? && s.records[r].rows[i].externalId.None?
    requires k < |s.remote.invoices| && I.Numbered(s.remote.invoices[k], r, i + 1)
    ensures k < |Run(s, steps).remote.invoices|
    ensures var x := Run(s, steps).remote.invoices[k];
            I.Numbered(x, r, i + 1) && x.active && !x.voided && x.amount == s.records[r].rows[i].amount
  {
    hide Run, Locked, Inv, OneActiveClient, StoredClientsOk, NumbersDistinct, IdsOk;
    RunMovesForward(s, steps);
    RunKeepsRemote(s, steps);
    CancelledRowsStaySilent(s, steps, r, i);
    var t := Run(s, steps);
    assert InvoiceLater(s.remote.invoices[k], t.remote.invoices[k]);
    assert RowBehind(s.records, s.remote.invoices[k], k);
    assert RowBehind(t.records, t.remote.invoices[k], k);
  }

  /** The exact condition: once the provider answered the cancellation job of a cancelled
      row, its number is out of circulation if and only if the row knew an id or the
      provider never had an invoice with the number. */
  lemma CancellationWithdrawsExactly(s: State, r: int, i: nat)
    requires Inv(s) && RemoteInv(s) && r in s.records && i < |s.records[r].rows| && s.records[r].rows[i].cancelledAt.Some?
    ensures !LiveAt(I.RunCancellation(s, A.InvoiceId(r, i), I.Answers).remote.invoices, r, i + 1) <==>
              s.records[r].rows[i].externalId.Some? || !I.NumberTaken(s.remote, r, i + 1)
  {
    hide OneRecordEach, AllLinked, AgreementsOk, AgreementsHaveMembers, AwaitingOk, OneActiveClient, StoredClientsOk, NumbersDistinct, I.RunCancellation;
    hide RowsAsScheduled, CountOk, AmountsOk, StatusOk;
    var id, row := A.InvoiceId(r, i), s.records[r].rows[i];
    assert RecordOk(s.plans, s.records[r]);
    assert RowOk(row) && IdOk(s.remote.invoices, r, i, row);
    if row.externalId.Some? {
      var k := row.externalId.value;
      CancellationIs(s, id, I.Answers);
      var after := I.RunCancellation(s, id, I.Answers).remote.invoices;
      forall j: nat | j < |after| && I.Numbered(after[j], r, i + 1) ensures j == k {
        SameNumber(s.remote.invoices, j, k, r, i + 1);
      }
    } else {
      NothingToCancel(s, id);
      if k: nat :| k < |s.remote.invoices| && I.Numbered(s.remote.invoices[k], r, i + 1) {
        assert RowBehind(s.records, s.remote.invoices[k], k);
      }
    }
  }

  /** The job of a cancelled row with an id: the provider archives a created invoice and
      voids a sent one whenever the call is carried out, and the row learns that it is done
      exactly when the provider answers. A worker's death leaves the job to be run again. */
  lemma CancellationOutcomeExactly(s: State, id: A.InvoiceId, fate: I.Fate)
    requires Inv(s) && RemoteInv(s) && id.record in s.records && id.index < |s.records[id.record].rows|
    requires A.RowOf(s.records, id).externalId.Some? && A.RowOf(s.records, id).cancelledAt.Some?
    ensures A.RowOf(s.records, id).externalId.value < |s.remote.invoices|
    ensures var row, t := A.RowOf(s.records, id), I.RunCancellation(s, id, fate);
            var k := row.externalId.value;
            var x := s.remote.invoices[k];
            && t == s.(records := t.records, remote := s.remote.(invoices := t.remote.invoices))
            && id.record in t.records && id.index < |t.records[id.record].rows|
            && A.RowOf(t.records, id) == row.(cancelStatus :=
                 if fate == I.Answers then CancelDone else if fate.Dies? then row.cancelStatus else CancelFailed)
            && t.remote.invoices ==
                 if fate in {I.Answers, I.ReplyLost, I.Dies(true)}
                 then s.remote.invoices[k := if row.sentOn.None? then x.(active := false) else x.(voided := true)]
                 else s.remote.invoices
  {
    hide OneRecordEach, AllLinked, AgreementsOk, AgreementsHaveMembers, AwaitingOk, OneActiveClient, StoredClientsOk, NumbersDistinct, RowsBehind;
    hide RowsAsScheduled, CountOk, AmountsOk, StatusOk;
    var row := A.RowOf(s.records, id);
    assert RecordOk(s.plans, s.records[id.record]);
    assert RowOk(s.records[id.record].rows[id.index]);
    assert IdOk(s.remote.invoices, id.record, id.index, s.records[id.record].rows[id.index]);
    assert s.records[id.record].rows[id.index := row] == s.records[id.record].rows;
  }

  /** Archiving a client at the provider makes its stored id stale and touches nothing else. */
  lemma ArchivingExactly(s: State, g: int)
    requires RemoteInv(s) && g in s.clientIds
    ensures var t := I.ArchiveClient(s, s.clientIds[g]);
            && t == s.(remote := s.remote.(clients := t.remote.clients)) && |t.remote.clients| == |s.remote.clients|
            && s.clientIds[g] < |s.remote.clients| && !I.ActiveClient(t.remote, t.clientIds[g])
            && forall c :: 0 <= c < |s.remote.clients| && c != s.clientIds[g] ==> t.remote.clients[c] == s.remote.clients[c]
  {
    hide OneActiveClient, RemoteOk;
  }

  lemma NothingToCancel(s: State, id: A.InvoiceId)
    requires id.record in s.records && id.index < |s.records[id.record].rows| && A.RowOf(s.records, id).externalId.None?
    ensures I.RunCancellation(s, id, I.Answers) == s
  {
  }

  // ---- the number as text ----

  /** f"{prefix}-{record.pk}-{sequence}" */
  function NumberText(prefix: string, record: nat, sequence: nat): string {
    prefix + "-" + Digits(record) + "-" + Digits(sequence)
  }

  /** With one prefix, a number names one record and one sequence: the provider's
      uniqueness of texts is uniqueness of rows. */
  lemma NumberTextInjective(prefix: string, r: nat, i: nat, q: nat, j: nat)
    requires NumberText(prefix, r, i) == NumberText(prefix, q, j)
    ensures r == q && i == j
  {
    hide Digits;
    var a, b := Digits(r) + "-" + Digits(i), Digits(q) + "-" + Digits(j);
    var k := |prefix| + 1;
    assert NumberText(prefix, r, i) == prefix + "-" + a && NumberText(prefix, q, j) == prefix + "-" + b;
    assert (prefix + "-" + a)[k..] == a && (prefix + "-" + b)[k..] == b;
    AgreementNumbers.FindAfterDigits(Digits(r), Digits(i));
    AgreementNumbers.FindAfterDigits(Digits(q), Digits(j));
    assert a[..|Digits(r)|] == Digits(r) && b[..|Digits(q)|] == Digits(q);
    assert a[|Digits(r)| + 1..] == Digits(i) && b[|Digits(q)| + 1..] == Digits(j);
    ValueDigits(r);
    ValueDigits(q);
    ValueDigits(i);
    ValueDigits(j);
  }
}
