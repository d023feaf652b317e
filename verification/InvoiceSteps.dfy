/** The push, cancellation, sending and payment jobs against a provider whose
    answers are arbitrary. */
module InvoiceSteps {
  import opened Wrappers
  import opened Calendar
  import opened Domain
  import opened BillingSteps
  import opened AgreementSteps

  // ---- one call to the provider ----

  /** How one call goes: answered, refused without effect, carried out with the
      reply lost, or cut short by the worker's death before or after its effect. */
  datatype Fate = Answers | Refused(code: ErrorCode) | ReplyLost | Dies(done: bool)

  datatype Reply<+T> = Got(value: T) | Failed(code: ErrorCode) | StaleClient | Dead

  predicate Retried(code: ErrorCode) {
    code == Unavailable
  }

  predicate TakesEffect(fate: Fate) {
    fate == Answers || fate == ReplyLost || fate == Dies(true)
  }

  /** What the caller sees of a call the provider answered with `answer`. */
  function Seen<T>(fate: Fate, answer: Reply<T>): Reply<T> {
    match fate
    case Answers => answer
    case Refused(code) => Failed(code)
    case ReplyLost => Failed(Unavailable)
    case Dies(_) => Dead
  }

  // ---- clients ----

  function FindClient(clients: seq<RemoteClient>, guardian: int, from: nat): (c: Option<nat>)
    requires from <= |clients|
    ensures c.Some? ==> from <= c.value < |clients| && clients[c.value] == RemoteClient(guardian, true)
    ensures c.None? ==> forall k :: from <= k < |clients| ==> clients[k] != RemoteClient(guardian, true)
    decreases |clients| - from
  {
    if from == |clients| then None
    else if clients[from] == RemoteClient(guardian, true) then Some(from)
    else FindClient(clients, guardian, from + 1)
  }

  /** The provider's side of one job: its rows and the guardian's stored client. */
  datatype Desk = Desk(client: Option<nat>, remote: Remote)

  /** ensure_client: reuse the active client of this guardian, else create one. */
  function EnsureRemoteClient(remote: Remote, guardian: int, find: Fate, create: Fate): (Remote, Reply<nat>) {
    var found := FindClient(remote.clients, guardian, 0);
    if find != Answers then (remote, Seen(find, StaleClient))
    else if found.Some? then (remote, Got(found.value))
    else
      var next := if TakesEffect(create) then remote.(clients := remote.clients + [RemoteClient(guardian, true)]) else remote;
      (next, Seen(create, Got(|remote.clients|)))
  }

  /** _ensure_client_id: the stored id, or the provider's, stored once known. */
  function EnsureClient(desk: Desk, guardian: int, find: Fate, create: Fate): (Desk, Reply<nat>) {
    if desk.client.Some? then (desk, Got(desk.client.value))
    else
      var (remote, reply) := EnsureRemoteClient(desk.remote, guardian, find, create);
      (Desk(if reply.Got? then Some(reply.value) else None, remote), reply)
  }

  // ---- invoices ----

  predicate Numbered(x: RemoteInvoice, record: int, sequence: int) {
    x.record == record && x.sequence == sequence
  }

  predicate NumberTaken(remote: Remote, record: int, sequence: int) {
    exists k :: 0 <= k < |remote.invoices| && Numbered(remote.invoices[k], record, sequence)
  }

  /** The recovery lookup, among active rows only. */
  function FindInvoice(invoices: seq<RemoteInvoice>, record: int, sequence: int, from: nat): (k: Option<nat>)
    requires from <= |invoices|
    ensures k.Some? ==> from <= k.value < |invoices| && Numbered(invoices[k.value], record, sequence) && invoices[k.value].active
    ensures k.None? ==> forall j :: from <= j < |invoices| && invoices[j].active ==> !Numbered(invoices[j], record, sequence)
    decreases |invoices| - from
  {
    if from == |invoices| then None
    else if Numbered(invoices[from], record, sequence) && invoices[from].active then Some(from)
    else FindInvoice(invoices, record, sequence, from + 1)
  }

  predicate ActiveClient(remote: Remote, client: nat) {
    client < |remote.clients| && remote.clients[client].active
  }

  /** create_invoice: a number that is taken is recovered by lookup; a blank client
      is refused and an archived one reported as stale; else an invoice is added. */
  function CreateInvoice(remote: Remote, record: int, sequence: int, amount: int, client: Option<nat>, post: Fate, lookup: Fate)
    : (Remote, Reply<nat>)
  {
    if NumberTaken(remote, record, sequence) then
      if post != Answers then (remote, Seen(post, Failed(Misconfigured)))
      else
        var found := FindInvoice(remote.invoices, record, sequence, 0);
        (remote, Seen(lookup, if found.Some? then Got(found.value) else Failed(Misconfigured)))
    else if client.None? then (remote, Seen(post, Failed(Misconfigured)))
    else if !ActiveClient(remote, client.value) then (remote, Seen(post, StaleClient))
    else
      var next := if TakesEffect(post)
                  then remote.(invoices := remote.invoices + [RemoteInvoice(record, sequence, amount, client.value, true, false, [])])
                  else remote;
      (next, Seen(post, Got(|remote.invoices|)))
  }

  /** The fates of the calls one row can make. */
  datatype RowFates = RowFates(post: Fate, lookup: Fate, find: Fate, create: Fate, repost: Fate, relookup: Fate)

  const HEALTHY := RowFates(Answers, Answers, Answers, Answers, Answers, Answers)

  /** The one retry after the stored client id was cleared. */
  function RetryWithFreshClient(desk: Desk, guardian: int, record: int, sequence: int, amount: int, f: RowFates)
    : (Desk, Reply<nat>)
  {
    var (renewed, client) := EnsureClient(desk, guardian, f.find, f.create);
    match client
    case Failed(code) => (renewed, Failed(code))
    case StaleClient => (renewed, Failed(Misconfigured))
    case Dead => (renewed, Dead)
    case Got(_) =>
      var (last, again) := CreateInvoice(renewed.remote, record, sequence, amount, renewed.client, f.repost, f.relookup);
      (renewed.(remote := last), if again == StaleClient then Failed(Misconfigured) else again)
  }

  /** Create the invoice; on a stale client forget the stored id, get a fresh client
      and try once more. */
  function CreateWithRecovery(desk: Desk, guardian: int, record: int, sequence: int, amount: int, f: RowFates)
    : (Desk, Reply<nat>)
  {
    var (remote, reply) := CreateInvoice(desk.remote, record, sequence, amount, desk.client, f.post, f.lookup);
    if reply != StaleClient then (desk.(remote := remote), reply)
    else RetryWithFreshClient(Desk(None, remote), guardian, record, sequence, amount, f)
  }

  // ---- the push job ----

  datatype PushEnd = Finished(failed: Option<ErrorCode>) | Raised(code: ErrorCode) | Killed

  datatype Work = Work(rows: seq<Invoice>, desk: Desk)

  predicate Outstanding(row: Invoice) {
    row.cancelledAt.None? && row.externalId.None?
  }

  function FatesAt(fates: seq<RowFates>, i: nat): RowFates {
    if i < |fates| then fates[i] else HEALTHY
  }

  function RowPushed(row: Invoice, id: nat): Invoice {
    row.(externalId := Some(id), status := Created, error := None)
  }

  function RowFailed(row: Invoice, code: ErrorCode): Invoice {
    row.(status := PushFailed, error := Some(code))
  }

  /** One row: create its invoice and write what came of it onto the row. */
  function PushOne(w: Work, guardian: int, record: int, i: nat, f: RowFates): (r: (Work, Reply<nat>))
    requires i < |w.rows|
    ensures |r.0.rows| == |w.rows|
  {
    var (desk, reply) := CreateWithRecovery(w.desk, guardian, record, i + 1, w.rows[i].amount, f);
    var rows := match reply
      case Got(id) => w.rows[i := RowPushed(w.rows[i], id)]
      case Failed(code) => w.rows[i := RowFailed(w.rows[i], code)]
      case StaleClient => w.rows
      case Dead => w.rows;
    (Work(rows, desk), reply)
  }

  /** The loop over the rows from index `i`: skip what is cancelled or has an id,
      stop on a transient error, remember the first permanent one. */
  function PushRows(w: Work, guardian: int, record: int, i: nat, failed: Option<ErrorCode>, fates: seq<RowFates>)
    : (Work, PushEnd)
    requires i <= |w.rows|
    decreases |w.rows| - i
  {
    if i == |w.rows| then (w, Finished(failed))
    else if !Outstanding(w.rows[i]) then PushRows(w, guardian, record, i + 1, failed, fates)
    else
      var (next, reply) := PushOne(w, guardian, record, i, FatesAt(fates, i));
      match reply
      case Dead => (next, Killed)
      case StaleClient => (next, Killed)
      case Got(id) => PushRows(next, guardian, record, i + 1, failed, fates)
      case Failed(code) =>
        if Retried(code) then (next, Raised(code))
        else PushRows(next, guardian, record, i + 1, if failed.Some? then failed else Some(code), fates)
  }

  /** What the end of the loop makes of the record's sync status. */
  function RollUp(end: PushEnd): (Sync, Option<ErrorCode>) {
    match end
    case Finished(None) => (Synced, None)
    case Finished(Some(code)) => (FailedSync, Some(code))
    case Raised(code) => (FailedSync, Some(code))
    case Killed => (PendingSync, None)
  }

  datatype PushFates = PushFates(product: Fate, find: Fate, create: Fate, rows: seq<RowFates>)

  function DeskOf(s: State, guardian: int): Desk {
    Desk(if guardian in s.clientIds then Some(s.clientIds[guardian]) else None, s.remote)
  }

  function StoreDesk(s: State, guardian: int, desk: Desk): State {
    s.(clientIds := if desk.client.Some? then s.clientIds[guardian := desk.client.value] else s.clientIds - {guardian},
       remote := desk.remote)
  }

  function Stamp(s: State, r: int, sync: Sync, error: Option<ErrorCode>): State
    requires r in s.records
  {
    s.(records := s.records[r := s.records[r].(sync := sync, error := error)])
  }

  /** Of the records a push writes one: its rows and its sync status. */
  predicate PushWrites(x: map<int, Record>, y: map<int, Record>, r: int)
    requires r in x
  {
    r in y && y == x[r := x[r].(rows := y[r].rows, sync := y[r].sync, error := y[r].error)]
  }

  /** push_billing_record. A zero total is synced locally; an error before the rows
      fails the record; a schedule that cannot be derived leaves it pending. */
  function Push(s: State, r: int, f: PushFates): State {
    if r !in s.records || s.records[r].member !in s.members || s.records[r].plan !in s.plans then s
    else if s.records[r].status != Confirmed || s.records[r].sync == Synced then s
    else if s.records[r].final == 0 then Stamp(s, r, Synced, None)
    else PushToProvider(s, r, f)
  }

  /** The part of a push that calls the provider: product, client, rows. */
  function PushToProvider(s: State, r: int, f: PushFates): (t: State)
    requires r in s.records && s.records[r].member in s.members && s.records[r].plan in s.plans
    ensures t == s.(records := t.records, clientIds := t.clientIds, remote := t.remote)
    ensures PushWrites(s.records, t.records, r)
  {
    var pending := Stamp(s, r, PendingSync, None);
    var guardian := s.members[s.records[r].member].guardian;
    match Seen(f.product, Got(()))
    case Failed(code) => Stamp(s, r, FailedSync, Some(code))
    case StaleClient => pending
    case Dead => pending
    case Got(_) =>
      var (desk, client) := EnsureClient(DeskOf(s, guardian), guardian, f.find, f.create);
      match client
      case Failed(code) => StoreDesk(Stamp(s, r, FailedSync, Some(code)), guardian, desk)
      case StaleClient => StoreDesk(pending, guardian, desk)
      case Dead => StoreDesk(pending, guardian, desk)
      case Got(_) => PushFromDesk(s, r, guardian, desk, f.rows)
  }

  /** The rows of a push, once the client is known; a schedule that cannot be derived
      leaves the record pending. */
  function PushFromDesk(s: State, r: int, guardian: int, desk: Desk, fates: seq<RowFates>): (t: State)
    requires r in s.records && s.records[r].plan in s.plans
    ensures t == s.(records := t.records, clientIds := t.clientIds, remote := t.remote)
    ensures PushWrites(s.records, t.records, r)
  {
    match Materialize(s.records[r], s.plans[s.records[r].plan])
    case Err(_) => StoreDesk(Stamp(s, r, PendingSync, None), guardian, desk)
    case Ok(rows) =>
      var (w, end) := PushRows(Work(rows, desk), guardian, r, 0, None, fates);
      PushDone(s, r, guardian, w, end)
  }

  /** The roll-up of the loop onto the record. */
  function PushDone(s: State, r: int, guardian: int, w: Work, end: PushEnd): (t: State)
    requires r in s.records
    ensures t == s.(records := t.records, clientIds := t.clientIds, remote := t.remote)
    ensures PushWrites(s.records, t.records, r)
  {
    var (sync, error) := RollUp(end);
    StoreDesk(s.(records := s.records[r := s.records[r].(rows := w.rows, sync := sync, error := error)]), guardian, w.desk)
  }

  function Enqueue(s: State, r: int): State {
    if r !in s.records || s.records[r].status != Confirmed || s.records[r].sync in {Synced, PendingSync} then s
    else Stamp(s, r, PendingSync, None)
  }

  /** The push button: confirms a draft only on explicit request. */
  function PushButton(s: State, r: int, confirmToo: bool): Result<State> {
    if r !in s.records then Err(Missing)
    else if s.records[r].status == RecordStatus.Draft && !confirmToo then Err(NotAllowed)
    else
      var t := Confirm(s, r).value;
      Ok(if t.records[r].sync == Synced then t else Enqueue(t, r))
  }

  // ---- cancellation, sending and payments ----

  function WithRow(s: State, id: InvoiceId, row: Invoice): (t: State)
    requires id.record in s.records && id.index < |s.records[id.record].rows|
    ensures t == s.(records := t.records)
  {
    s.(records := s.records[id.record := s.records[id.record].(rows := s.records[id.record].rows[id.index := row])])
  }

  /** The archive or cancel job that a cancelled row queued. */
  function RunCancellation(s: State, id: InvoiceId, fate: Fate): State {
    if id.record !in s.records || id.index >= |s.records[id.record].rows| then s
    else
      var row := RowOf(s.records, id);
      if row.externalId.None? || row.action == NoAction then s
      else
        var k := row.externalId.value;
        var t := if TakesEffect(fate) && k < |s.remote.invoices|
                 then s.(remote := s.remote.(invoices := s.remote.invoices[k :=
                   if row.action == Archive then s.remote.invoices[k].(active := false)
                   else s.remote.invoices[k].(voided := true)]))
                 else s;
        match Seen(fate, Got(()))
        case Got(_) => WithRow(t, id, row.(cancelStatus := CancelDone))
        case Failed(_) => WithRow(t, id, row.(cancelStatus := CancelFailed))
        case StaleClient => t
        case Dead => t
  }

  predicate DueToSend(row: Invoice, today: Date) {
    && row.cancelledAt.None? && row.externalId.Some? && row.status == Created
    && today.Key() >= row.due.FirstOfMonth().Key()
  }

  function SendRow(row: Invoice, today: Date, hasEmail: bool, fate: Fate): Invoice {
    if !DueToSend(row, today) || !hasEmail then row
    else
      match Seen(fate, Got(()))
      case Got(_) => row.(status := Emailed, sentOn := Some(today), error := None)
      case Failed(code) => row.(error := Some(code))
      case StaleClient => row
      case Dead => row
  }

  /** What the provider has e-mailed after sending invoice `k` today. */
  function Mailed(invoices: seq<RemoteInvoice>, k: nat, today: Date): seq<RemoteInvoice> {
    if k < |invoices| then invoices[k := invoices[k].(emails := invoices[k].emails + [today])] else invoices
  }

  /** One row of the nightly sweep. The provider sends the e-mail whenever the call
      takes effect, whether or not the reply comes back. */
  function SendDue(s: State, id: InvoiceId, today: Date, hasEmail: bool, fate: Fate): State {
    if id.record !in s.records || id.index >= |s.records[id.record].rows| then s
    else
      var row := RowOf(s.records, id);
      var t := if DueToSend(row, today) && hasEmail && TakesEffect(fate)
               then s.(remote := s.remote.(invoices := Mailed(s.remote.invoices, row.externalId.value, today)))
               else s;
      WithRow(t, id, SendRow(row, today, hasEmail, fate))
  }

  /** The nightly sweep over the rows it reaches, in order. */
  function Sweep(s: State, ids: seq<InvoiceId>, today: Date, emails: seq<bool>, fates: seq<Fate>): State
    requires |emails| == |ids| == |fates|
  {
    if ids == [] then s
    else
      var n := |ids| - 1;
      SendDue(Sweep(s, ids[..n], today, emails[..n], fates[..n]), ids[n], today, emails[n], fates[n])
  }

  /** The payment projection, for rows the provider knows. */
  function SyncPayment(s: State, id: InvoiceId, payment: Payment): State {
    if id.record !in s.records || id.index >= |s.records[id.record].rows| then s
    else
      var row := RowOf(s.records, id);
      if row.externalId.None? then s else WithRow(s, id, row.(payment := payment))
  }

  /** Someone archives a client at the provider; the stored id goes stale. */
  function ArchiveClient(s: State, c: nat): State {
    if c >= |s.remote.clients| then s
    else s.(remote := s.remote.(clients := s.remote.clients[c := s.remote.clients[c].(active := false)]))
  }
}
