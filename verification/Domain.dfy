/** The rows of the club's tables and of the invoicing provider. */
module Domain {
  import opened Wrappers
  import opened Money
  import opened Calendar

  datatype AgreementState = Generated | Sent | Signed | Void | Superseded | Discontinued

  datatype Agreement = Agreement(
    member: int,
    isCurrent: bool,
    state: AgreementState,
    plan: Option<int>,
    month: string,
    signedAt: Option<int>
  )

  /** What a signing hands to the draft creation that follows it. */
  datatype Intent = Intent(plan: int, month: string)

  datatype PaymentMode = Upfront | Installments

  /** A member with what billing reads of its source application. */
  datatype Member = Member(
    guardian: int,
    discontinued: bool,
    leavesOn: Option<Date>,
    optedOut: bool,
    preferredMode: Option<PaymentMode>
  )

  datatype ErrorCode = Unavailable | AuthFailed | Misconfigured | NotFound | ProviderError

  datatype RowStatus = NotPushed | PushFailed | Created | Emailed

  datatype Payment = Unknown | Unpaid | PartlyPaid | FullyPaid

  datatype CancelAction = NoAction | Archive | Cancel

  datatype CancelStatus = NotQueued | Queued | CancelFailed | CancelDone

  /** One BillingInvoice; its sequence is its index in the record, from 1. */
  datatype Invoice = Invoice(
    due: Date,
    amount: int,
    externalId: Option<nat>,
    status: RowStatus,
    error: Option<ErrorCode>,
    sentOn: Option<Date>,
    payment: Payment,
    cancelledAt: Option<int>,
    action: CancelAction,
    cancelStatus: CancelStatus
  )

  datatype RecordStatus = Draft | Confirmed

  datatype Sync = NotSynced | PendingSync | FailedSync | Synced

  datatype Record = Record(
    member: int,
    plan: int,
    agreement: Option<int>,
    season: string,
    base: int,
    percent: Percent,
    discount: int,
    final: int,
    mode: PaymentMode,
    optOut: bool,
    month: string,
    count: Option<int>,
    manual: Option<int>,
    reason: string,
    status: RecordStatus,
    sync: Sync,
    error: Option<ErrorCode>,
    rows: seq<Invoice>
  )

  // ---- the provider ----

  /** An invoice the provider holds, with the days it was e-mailed; its id is its index. */
  datatype RemoteInvoice = RemoteInvoice(
    record: int,
    sequence: int,
    amount: int,
    client: nat,
    active: bool,
    voided: bool,
    emails: seq<Date>
  )

  datatype RemoteClient = RemoteClient(guardian: int, active: bool)

  datatype Remote = Remote(invoices: seq<RemoteInvoice>, clients: seq<RemoteClient>)

  // ---- everything together ----

  datatype State = State(
    plans: map<int, Plan>,
    defaultPlan: Option<int>,
    members: map<int, Member>,
    agreements: map<int, Agreement>,
    awaiting: map<int, Intent>,
    records: map<int, Record>,
    clientIds: map<int, nat>,
    remote: Remote
  )

  ghost predicate IsCurrent(agreements: map<int, Agreement>, m: int, a: int) {
    a in agreements && agreements[a].member == m && agreements[a].isCurrent
  }

  /** The partial unique constraint on the current agreement of a member. */
  ghost predicate OneCurrent(agreements: map<int, Agreement>) {
    forall m, a, b :: IsCurrent(agreements, m, a) && IsCurrent(agreements, m, b) ==> a == b
  }

  ghost function CurrentOf(agreements: map<int, Agreement>, m: int): (c: Option<int>)
    ensures c.Some? ==> IsCurrent(agreements, m, c.value)
    ensures c.None? ==> forall a :: !IsCurrent(agreements, m, a)
  {
    if a :| IsCurrent(agreements, m, a) then Some(a) else None
  }

  ghost predicate IsRecordOf(records: map<int, Record>, m: int, season: string, r: int) {
    r in records && records[r].member == m && records[r].season == season
  }

  ghost predicate HasRecord(records: map<int, Record>, m: int, season: string) {
    exists r :: IsRecordOf(records, m, season, r)
  }

  /** The unique constraint on (member, season). */
  ghost predicate OneRecordEach(records: map<int, Record>) {
    forall m, season, r, q :: IsRecordOf(records, m, season, r) && IsRecordOf(records, m, season, q) ==> r == q
  }
}
