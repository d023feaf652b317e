/** What holds between the club's rows and the provider, whatever the provider
    answers and however often a job is retried. */
module RemoteLife {
  import opened Wrappers
  import opened Domain
  import opened InvoiceSteps
  import opened RecordLife

  // ---- invoices ----

  ghost predicate NumbersDistinct(invoices: seq<RemoteInvoice>) {
    forall j, k :: 0 <= j < k < |invoices| ==> !Numbered(invoices[j], invoices[k].record, invoices[k].sequence)
  }

  /** An invoice bills a row of the club, for its amount; it was e-mailed only from the
      first day of the row's due month on; it is archived or cancelled only if the row
      knows it and was cancelled. */
  predicate RowBehind(records: map<int, Record>, x: RemoteInvoice, k: nat) {
    && x.record in records && 1 <= x.sequence <= |records[x.record].rows|
    && var row := records[x.record].rows[x.sequence - 1];
    && x.amount == row.amount
    && (forall j :: 0 <= j < |x.emails| ==> x.emails[j].Key() >= row.due.FirstOfMonth().Key())
    && (!x.active || x.voided ==> row.externalId == Some(k) && row.cancelledAt.Some?)
  }

  /** A stored id is the id of the invoice with this row's number; a row marked sent was
      e-mailed that day; a finished cancellation has taken the invoice out of circulation. */
  predicate IdOk(invoices: seq<RemoteInvoice>, r: int, i: nat, row: Invoice) {
    row.externalId.Some? ==>
      && row.externalId.value < |invoices|
      && var x := invoices[row.externalId.value];
      && Numbered(x, r, i + 1)
      && (row.sentOn.Some? ==> row.sentOn.value in x.emails)
      && (row.cancelStatus == CancelDone ==> if row.action == Archive then !x.active else x.voided)
  }

  ghost predicate RowsBehind(records: map<int, Record>, invoices: seq<RemoteInvoice>) {
    forall k :: 0 <= k < |invoices| ==> RowBehind(records, invoices[k], k)
  }

  ghost predicate IdsOk(records: map<int, Record>, invoices: seq<RemoteInvoice>) {
    forall r, i: nat :: r in records && i < |records[r].rows| ==> IdOk(invoices, r, i, records[r].rows[i])
  }

  ghost predicate RemoteOk(records: map<int, Record>, invoices: seq<RemoteInvoice>) {
    NumbersDistinct(invoices) && RowsBehind(records, invoices) && IdsOk(records, invoices)
  }

  /** What stays of an invoice: everything but its being archived or cancelled, and
      its having been e-mailed. */
  predicate InvoiceLater(x: RemoteInvoice, y: RemoteInvoice) {
    && y == x.(active := y.active, voided := y.voided, emails := y.emails)
    && x.emails <= y.emails
    && (!x.active ==> !y.active) && (x.voided ==> y.voided)
  }

  ghost predicate InvoicesLater(x: seq<RemoteInvoice>, y: seq<RemoteInvoice>) {
    |x| <= |y| && forall k :: 0 <= k < |x| ==> InvoiceLater(x[k], y[k])
  }

  // ---- clients ----

  ghost predicate OneActiveClient(clients: seq<RemoteClient>) {
    forall j, k :: 0 <= j < k < |clients| && clients[j].active && clients[k].active ==> clients[j].guardian != clients[k].guardian
  }

  predicate ClientOk(clients: seq<RemoteClient>, guardian: int, client: Option<nat>) {
    client.Some? ==> client.value < |clients| && clients[client.value].guardian == guardian
  }

  ghost predicate StoredClientsOk(clientIds: map<int, nat>, clients: seq<RemoteClient>) {
    forall g :: g in clientIds ==> ClientOk(clients, g, Some(clientIds[g]))
  }

  // ---- changes that do not concern the provider ----

  predicate RowQuiet(x: Invoice, y: Invoice) {
    && y.due == x.due && y.amount == x.amount && y.externalId == x.externalId && y.sentOn == x.sentOn
    && (x.cancelledAt.Some? ==> y.cancelledAt.Some?)
    && (y.cancelStatus == CancelDone ==> x.cancelStatus == CancelDone && y.action == x.action)
  }

  predicate RowsQuiet(x: seq<Invoice>, y: seq<Invoice>) {
    |x| == |y| && forall i :: 0 <= i < |x| ==> RowQuiet(x[i], y[i])
  }

  ghost predicate RecordsQuiet(x: map<int, Record>, y: map<int, Record>) {
    && (forall r :: r in x ==> r in y)
    && (forall r :: r in y ==> if r in x then RowsQuiet(x[r].rows, y[r].rows) else y[r].rows == [])
  }

  lemma QuietKeepsRemote(x: map<int, Record>, y: map<int, Record>, invoices: seq<RemoteInvoice>)
    requires RemoteOk(x, invoices) && RecordsQuiet(x, y)
    ensures RemoteOk(y, invoices)
  {
    hide RowQuiet;
    forall k | 0 <= k < |invoices| ensures RowBehind(y, invoices[k], k) {
      var r := invoices[k].record;
      assert RowBehind(x, invoices[k], k);
      assert RowsQuiet(x[r].rows, y[r].rows);
      QuietRowBehind(x, y, invoices[k], k);
    }
    forall r, i: nat | r in y && i < |y[r].rows| ensures IdOk(invoices, r, i, y[r].rows[i]) {
      assert r in x && RowsQuiet(x[r].rows, y[r].rows);
      assert IdOk(invoices, r, i, x[r].rows[i]);
      QuietIdOk(invoices, r, i, x[r].rows[i], y[r].rows[i]);
    }
  }

  lemma QuietRowBehind(x: map<int, Record>, y: map<int, Record>, invoice: RemoteInvoice, k: nat)
    requires RowBehind(x, invoice, k) && invoice.record in y
    requires RowsQuiet(x[invoice.record].rows, y[invoice.record].rows)
    ensures RowBehind(y, invoice, k)
  {
  }

  lemma QuietIdOk(invoices: seq<RemoteInvoice>, r: int, i: nat, x: Invoice, y: Invoice)
    requires IdOk(invoices, r, i, x) && RowQuiet(x, y)
    ensures IdOk(invoices, r, i, y)
  {
  }

  // ---- one call ----

  lemma ClientFound(clients: seq<RemoteClient>, guardian: int)
    requires OneActiveClient(clients) && FindClient(clients, guardian, 0).None?
    ensures OneActiveClient(clients + [RemoteClient(guardian, true)])
  {
    var next := clients + [RemoteClient(guardian, true)];
    forall j, k | 0 <= j < k < |next| && next[j].active && next[k].active ensures next[j].guardian != next[k].guardian {
      if k == |clients| {
        assert clients[j] != RemoteClient(guardian, true);
      }
    }
  }

  /** Looking a client up before creating one keeps at most one active client per
      guardian, even when the reply of an earlier creation was lost. */
  lemma EnsureClientOk(desk: Desk, guardian: int, find: Fate, create: Fate)
    requires OneActiveClient(desk.remote.clients) && ClientOk(desk.remote.clients, guardian, desk.client)
    ensures var (next, reply) := EnsureClient(desk, guardian, find, create);
            && OneActiveClient(next.remote.clients) && ClientOk(next.remote.clients, guardian, next.client)
            && next.remote.invoices == desk.remote.invoices
            && desk.remote.clients <= next.remote.clients
            && (reply.Got? ==> next.client.Some?)
  {
    hide OneActiveClient;
    if desk.client.None? && FindClient(desk.remote.clients, guardian, 0).None? {
      ClientFound(desk.remote.clients, guardian);
    }
  }

  lemma AppendKeepsRemote(records: map<int, Record>, invoices: seq<RemoteInvoice>, x: RemoteInvoice)
    requires RemoteOk(records, invoices) && RowBehind(records, x, |invoices|)
    requires !exists k :: 0 <= k < |invoices| && Numbered(invoices[k], x.record, x.sequence)
    ensures RemoteOk(records, invoices + [x])
  {
    hide RowBehind;
    var next := invoices + [x];
    forall r, i: nat | r in records && i < |records[r].rows| ensures IdOk(next, r, i, records[r].rows[i]) {
      assert IdOk(invoices, r, i, records[r].rows[i]);
    }
    forall k | 0 <= k < |next| ensures RowBehind(records, next[k], k) {
      assert k < |invoices| ==> RowBehind(records, invoices[k], k);
    }
  }

  /** The row a creation is for: open, and carrying the amount that is billed. */
  predicate Billed(records: map<int, Record>, r: int, sequence: int, amount: int) {
    && r in records && 1 <= sequence <= |records[r].rows|
    && Outstanding(records[r].rows[sequence - 1]) && records[r].rows[sequence - 1].amount == amount
  }

  predicate Recovered(invoices: seq<RemoteInvoice>, reply: Reply<nat>, r: int, sequence: int) {
    reply.Got? ==>
      reply.value < |invoices| && Numbered(invoices[reply.value], r, sequence) && invoices[reply.value].active && !invoices[reply.value].voided
  }

  /** An invoice of an open row is live: only cancelled rows have lost theirs. */
  lemma OpenRowIsLive(records: map<int, Record>, invoices: seq<RemoteInvoice>, r: int, sequence: int, amount: int, k: nat)
    requires RemoteOk(records, invoices) && Billed(records, r, sequence, amount)
    requires k < |invoices| && Numbered(invoices[k], r, sequence)
    ensures invoices[k].active && !invoices[k].voided
  {
    assert RowBehind(records, invoices[k], k);
  }

  lemma CreateInvoiceOk(records: map<int, Record>, remote: Remote, r: int, sequence: int, amount: int,
                        client: Option<nat>, post: Fate, lookup: Fate)
    requires RemoteOk(records, remote.invoices) && Billed(records, r, sequence, amount)
    ensures var (next, reply) := CreateInvoice(remote, r, sequence, amount, client, post, lookup);
            && RemoteOk(records, next.invoices) && remote.invoices <= next.invoices
            && next.clients == remote.clients && Recovered(next.invoices, reply, r, sequence)
            && (next != remote ==>
                  && client.Some? && |next.invoices| == |remote.invoices| + 1
                  && var x := next.invoices[|remote.invoices|];
                  && Numbered(x, r, sequence) && x.amount == amount && x.client == client.value && x.active && x.emails == [])
  {
    hide RemoteOk;
    if NumberTaken(remote, r, sequence) {
      var found := FindInvoice(remote.invoices, r, sequence, 0);
      if found.Some? {
        OpenRowIsLive(records, remote.invoices, r, sequence, amount, found.value);
      }
    } else if client.Some? && ActiveClient(remote, client.value) {
      AppendKeepsRemote(records, remote.invoices, RemoteInvoice(r, sequence, amount, client.value, true, false, []));
    }
  }

  lemma InvoicesLaterTransitive(x: seq<RemoteInvoice>, y: seq<RemoteInvoice>, z: seq<RemoteInvoice>)
    requires InvoicesLater(x, y) && InvoicesLater(y, z)
    ensures InvoicesLater(x, z)
  {
    assert forall k :: 0 <= k < |x| ==> InvoiceLater(x[k], y[k]) && InvoiceLater(y[k], z[k]);
  }

  predicate DeskOk(desk: Desk, guardian: int) {
    ClientOk(desk.remote.clients, guardian, desk.client)
  }

  lemma CreateWithRecoveryOk(records: map<int, Record>, desk: Desk, guardian: int, r: int, sequence: int, amount: int, f: RowFates)
    requires RemoteOk(records, desk.remote.invoices) && Billed(records, r, sequence, amount)
    requires OneActiveClient(desk.remote.clients) && DeskOk(desk, guardian)
    ensures var (next, reply) := CreateWithRecovery(desk, guardian, r, sequence, amount, f);
            && RemoteOk(records, next.remote.invoices) && desk.remote.invoices <= next.remote.invoices
            && OneActiveClient(next.remote.clients) && DeskOk(next, guardian) && desk.remote.clients <= next.remote.clients
            && Recovered(next.remote.invoices, reply, r, sequence)
  {
    hide RemoteOk, OneActiveClient, CreateInvoice, EnsureClient, Billed;
    CreateInvoiceOk(records, desk.remote, r, sequence, amount, desk.client, f.post, f.lookup);
    var (remote, reply) := CreateInvoice(desk.remote, r, sequence, amount, desk.client, f.post, f.lookup);
    if reply == StaleClient {
      var cleared := Desk(None, remote);
      EnsureClientOk(cleared, guardian, f.find, f.create);
      var (renewed, client) := EnsureClient(cleared, guardian, f.find, f.create);
      if client.Got? {
        CreateInvoiceOk(records, renewed.remote, r, sequence, amount, renewed.client, f.repost, f.relookup);
      }
    }
  }

  // ---- the loop over the rows ----

  /** A table of records in which one record has these rows. */
  function WithRows(records: map<int, Record>, r: int, rows: seq<Invoice>): map<int, Record>
    requires r in records
  {
    records[r := records[r].(rows := rows)]
  }

  lemma RowPushedOk(records: map<int, Record>, invoices: seq<RemoteInvoice>, r: int, rows: seq<Invoice>, i: nat, id: nat)
    requires r in records && i < |rows| && Outstanding(rows[i])
    requires RemoteOk(WithRows(records, r, rows), invoices)
    requires rows[i].cancelStatus == NotQueued && rows[i].sentOn.None?
    requires id < |invoices| && Numbered(invoices[id], r, i + 1)
    ensures RemoteOk(WithRows(records, r, rows[i := RowPushed(rows[i], id)]), invoices)
  {
    hide NumbersDistinct;
    var x, y := WithRows(records, r, rows), WithRows(records, r, rows[i := RowPushed(rows[i], id)]);
    forall k | 0 <= k < |invoices| ensures RowBehind(y, invoices[k], k) {
      assert RowBehind(x, invoices[k], k);
    }
    forall q, j: nat | q in y && j < |y[q].rows| ensures IdOk(invoices, q, j, y[q].rows[j]) {
      assert q in x && j < |x[q].rows|;
      assert IdOk(invoices, q, j, x[q].rows[j]);
    }
  }

  lemma RowFailedOk(records: map<int, Record>, invoices: seq<RemoteInvoice>, r: int, rows: seq<Invoice>, i: nat, code: ErrorCode)
    requires r in records && i < |rows|
    requires RemoteOk(WithRows(records, r, rows), invoices)
    ensures RemoteOk(WithRows(records, r, rows[i := RowFailed(rows[i], code)]), invoices)
  {
    hide RemoteOk;
    var x, y := WithRows(records, r, rows), WithRows(records, r, rows[i := RowFailed(rows[i], code)]);
    assert RecordsQuiet(x, y);
    QuietKeepsRemote(x, y, invoices);
  }

  lemma {:induction false} PushRowsKeepRemote(records: map<int, Record>, w: Work, guardian: int, r: int, i: nat,
                                              failed: Option<ErrorCode>, fates: seq<RowFates>)
    requires r in records && i <= |w.rows| && RowsOk(w.rows)
    requires RemoteOk(WithRows(records, r, w.rows), w.desk.remote.invoices)
    requires OneActiveClient(w.desk.remote.clients) && DeskOk(w.desk, guardian)
    ensures var (done, end) := PushRows(w, guardian, r, i, failed, fates);
            && RemoteOk(WithRows(records, r, done.rows), done.desk.remote.invoices)
            && w.desk.remote.invoices <= done.desk.remote.invoices
            && OneActiveClient(done.desk.remote.clients) && DeskOk(done.desk, guardian)
            && w.desk.remote.clients <= done.desk.remote.clients
    decreases |w.rows| - i
  {
    hide RemoteOk, OneActiveClient, CreateWithRecovery, RowOk, DeskOk;
    if i < |w.rows| {
      if !Outstanding(w.rows[i]) {
        PushRowsKeepRemote(records, w, guardian, r, i + 1, failed, fates);
      } else {
        var amount, f := w.rows[i].amount, FatesAt(fates, i);
        CreateWithRecoveryOk(WithRows(records, r, w.rows), w.desk, guardian, r, i + 1, amount, f);
        var (desk, reply) := CreateWithRecovery(w.desk, guardian, r, i + 1, amount, f);
        match reply
        case Dead =>
        case StaleClient =>
        case Got(id) =>
          NotQueuedYet(w.rows[i]);
          RowPushedOk(records, desk.remote.invoices, r, w.rows, i, id);
          var next := Work(w.rows[i := RowPushed(w.rows[i], id)], desk);
          NextRowsOk(w.rows, i, id);
          PushRowsKeepRemote(records, next, guardian, r, i + 1, failed, fates);
        case Failed(code) =>
          RowFailedOk(records, desk.remote.invoices, r, w.rows, i, code);
          FailedRowsOk(w.rows, i, code);
          var next := Work(w.rows[i := RowFailed(w.rows[i], code)], desk);
          if !Retried(code) {
            var first := if failed.Some? then failed else Some(code);
            PushRowsKeepRemote(records, next, guardian, r, i + 1, first, fates);
          }
      }
    }
  }

  /** Invoices that were only added to are the same invoices later. */
  lemma AddedLater(x: seq<RemoteInvoice>, y: seq<RemoteInvoice>)
    requires x <= y
    ensures InvoicesLater(x, y)
  {
  }

  lemma InvoicesLaterReflexive(x: seq<RemoteInvoice>)
    ensures InvoicesLater(x, x)
  {
  }

  lemma NotQueuedYet(row: Invoice)
    requires RowOk(row) && Outstanding(row)
    ensures row.cancelStatus == NotQueued && row.sentOn.None?
  {
  }

  lemma NextRowsOk(rows: seq<Invoice>, i: nat, id: nat)
    requires RowsOk(rows) && i < |rows| && Outstanding(rows[i])
    ensures RowsOk(rows[i := RowPushed(rows[i], id)])
  {
  }

  lemma FailedRowsOk(rows: seq<Invoice>, i: nat, code: ErrorCode)
    requires RowsOk(rows) && i < |rows| && Outstanding(rows[i])
    ensures RowsOk(rows[i := RowFailed(rows[i], code)])
  {
  }
}
