/** What each agreement service does to the tables: creating, setting up, sending,
    signing, voiding, regenerating, amending and discontinuing. */
module AgreementSteps {
  import opened Wrappers
  import opened Text
  import opened Calendar
  import opened Schedule
  import opened Domain
  import opened BillingSteps

  /** The default plan and its first month, when that month is in the plan's year. */
  function DefaultSetup(s: State, today: Date): (Option<int>, string)
    requires ValidDate(today)
  {
    if s.defaultPlan.None? || s.defaultPlan.value !in s.plans || !s.plans[s.defaultPlan.value].isActive then (None, "")
    else
      var plan := s.plans[s.defaultPlan.value];
      match NormalizeMonth(plan, DeriveFirstBillingMonth(plan, today))
      case Err(_) => (None, "")
      case Ok(n) =>
        match SeasonStartYear(plan.season)
        case Err(_) => (None, "")
        case Ok(y) => if MonthYear(n) == Some(y) then (s.defaultPlan, n) else (None, "")
  }

  ghost function CreateAgreement(s: State, m: int, a: int, today: Date): Result<State>
    requires ValidDate(today)
  {
    if m !in s.members then Err(Missing)
    else
      var current := CurrentOf(s.agreements, m);
      if current.Some? && s.agreements[current.value].state != Void then Ok(s)
      else if a in s.agreements then Err(Duplicate)
      else
        var archived := if current.None? then s.agreements
                        else s.agreements[current.value := s.agreements[current.value].(isCurrent := false)];
        var (plan, month) := DefaultSetup(s, today);
        Ok(s.(agreements := archived[a := Agreement(m, true, Generated, plan, month, None)]))
  }

  ghost function Regenerate(s: State, m: int, a: int, today: Date): Result<State>
    requires ValidDate(today)
  {
    var current := CurrentOf(s.agreements, m);
    if current.None? then Err(Missing)
    else if s.agreements[current.value].state != Void then Err(NotAllowed)
    else CreateAgreement(s, m, a, today)
  }

  /** The month that setting up a plan stores: normalized, in the plan's own year,
      not before today's floor, and with a schedule that can be dated. */
  function SetupMonth(plan: Plan, month: string, today: Date): Result<string>
    requires ValidDate(today)
  {
    if month == "" then Err(BadMonth)
    else if !plan.isActive then Err(NotAllowed)
    else
      match NormalizeMonth(plan, month)
      case Err(e) => Err(e)
      case Ok(n) =>
        if StrLess(n, DeriveFirstBillingMonth(plan, today)) then Err(NotAllowed)
        else
          match SeasonStartYear(plan.season)
          case Err(e) => Err(e)
          case Ok(y) =>
            if MonthYear(n) != Some(y) then Err(NotAllowed)
            else
              match CalendarYearCount(plan, n)
              case Err(e) => Err(e)
              case Ok(_) => Ok(n)
  }

  function SetBillingSetup(s: State, a: int, p: int, month: string, today: Date): Result<State>
    requires ValidDate(today)
  {
    if a !in s.agreements || p !in s.plans then Err(Missing)
    else if s.agreements[a].state in {Signed, Superseded, Discontinued} then Err(WrongState)
    else
      match SetupMonth(s.plans[p], month, today)
      case Err(e) => Err(e)
      case Ok(n) => Ok(s.(agreements := s.agreements[a := s.agreements[a].(plan := Some(p), month := n)]))
  }

  function MarkSent(s: State, a: int): Result<State> {
    if a !in s.agreements then Err(Missing)
    else if s.agreements[a].state != Generated then Err(WrongState)
    else Ok(s.(agreements := s.agreements[a := s.agreements[a].(state := Sent)]))
  }

  /** The guards of signing, all checked before the row is touched. */
  function SignGuard(s: State, a: int): Result<Intent> {
    if a !in s.agreements then Err(Missing)
    else
      var x := s.agreements[a];
      if x.state !in {Generated, Sent} then Err(WrongState)
      else if x.plan.None? || x.plan.value !in s.plans then Err(NotAllowed)
      else if x.month == "" then Err(BadMonth)
      else
        var plan := s.plans[x.plan.value];
        if !plan.isActive then Err(NotAllowed)
        else if SeasonStartYear(plan.season).Err? || NormalizeMonth(plan, x.month).Err? then Err(NotAllowed)
        else if MonthYear(NormalizeMonth(plan, x.month).value) != Some(SeasonStartYear(plan.season).value) then Err(NotAllowed)
        else Ok(Intent(x.plan.value, x.month))
  }

  /** Stamp and save; the draft creation is a step of its own. */
  function Sign(s: State, a: int, now: int): Result<State> {
    match SignGuard(s, a)
    case Err(e) => Err(e)
    case Ok(intent) =>
      Ok(s.(agreements := s.agreements[a := s.agreements[a].(state := Signed, signedAt := Some(now))],
            awaiting := s.awaiting[a := intent]))
  }

  function VoidAgreement(s: State, a: int): Result<State> {
    if a !in s.agreements then Err(Missing)
    else if s.agreements[a].state == Void then Ok(s)
    else Ok(s.(agreements := s.agreements[a := s.agreements[a].(state := Void)]))
  }

  /** The signed row is superseded; a fresh current row takes its plan and month. */
  function Amend(s: State, a: int, b: int): Result<State> {
    if a !in s.agreements then Err(Missing)
    else if s.agreements[a].state != Signed then Err(WrongState)
    else if b in s.agreements then Err(Duplicate)
    else
      var x := s.agreements[a];
      Ok(s.(agreements := s.agreements[a := x.(state := Superseded, isCurrent := false)]
                                      [b := Agreement(x.member, true, Generated, x.plan, x.month, None)]))
  }

  // ---- discontinuing, with the invoices staff selected ----

  datatype InvoiceId = InvoiceId(record: int, index: nat)

  predicate Owned(records: map<int, Record>, m: int, id: InvoiceId) {
    id.record in records && records[id.record].member == m && id.index < |records[id.record].rows|
  }

  function RowOf(records: map<int, Record>, id: InvoiceId): Invoice
    requires id.record in records && id.index < |records[id.record].rows|
  {
    records[id.record].rows[id.index]
  }

  /** Why a selected row cannot be cancelled, if so. */
  function RowRefusal(row: Invoice): Option<Error> {
    if row.payment in {FullyPaid, PartlyPaid} then Some(Paid)
    else if row.externalId.None? && row.sentOn.Some? then Some(WrongState)
    else if row.externalId.Some? && row.status !in {Created, Emailed} then Some(WrongState)
    else None
  }

  function CancelRow(row: Invoice, now: int): Invoice {
    if row.externalId.None? && row.sentOn.None? then row.(cancelledAt := Some(now))
    else row.(cancelledAt := Some(now),
              action := if row.status == Created then Archive else Cancel,
              cancelStatus := Queued)
  }

  predicate Distinct(ids: seq<InvoiceId>) {
    forall i, j :: 0 <= i < j < |ids| ==> ids[i] != ids[j]
  }

  predicate Selectable(records: map<int, Record>, m: int, ids: seq<InvoiceId>) {
    Distinct(ids) && forall i :: 0 <= i < |ids| ==> Owned(records, m, ids[i])
  }

  function FirstRefusal(records: map<int, Record>, m: int, ids: seq<InvoiceId>): Option<Error>
    requires forall i :: 0 <= i < |ids| ==> Owned(records, m, ids[i])
  {
    if ids == [] then None
    else
      var id := ids[0];
      assert Owned(records, m, id);
      var refusal := RowRefusal(RowOf(records, id));
      if refusal.Some? then refusal else FirstRefusal(records, m, ids[1..])
  }

  function CancelOne(records: map<int, Record>, id: InvoiceId, now: int): map<int, Record>
    requires id.record in records && id.index < |records[id.record].rows|
  {
    var x := records[id.record];
    records[id.record := x.(rows := x.rows[id.index := CancelRow(x.rows[id.index], now)])]
  }

  /** Every row is checked before the first one is written. */
  function CancelSelection(records: map<int, Record>, m: int, ids: seq<InvoiceId>, now: int): Result<map<int, Record>> {
    if !Selectable(records, m, ids) then Err(Foreign)
    else
      match FirstRefusal(records, m, ids)
      case Some(e) => Err(e)
      case None => Ok(CancelAll(records, m, ids, now))
  }

  function CancelAll(records: map<int, Record>, m: int, ids: seq<InvoiceId>, now: int): (r: map<int, Record>)
    requires forall i :: 0 <= i < |ids| ==> Owned(records, m, ids[i])
    ensures forall id :: Owned(records, m, id) ==> Owned(r, m, id)
  {
    if ids == [] then records
    else CancelOne(CancelAll(records, m, ids[..|ids| - 1], now), ids[|ids| - 1], now)
  }

  function Discontinue(s: State, a: int, leavesOn: Date, ids: seq<InvoiceId>, now: int): Result<State> {
    if a !in s.agreements || s.agreements[a].member !in s.members then Err(Missing)
    else if s.agreements[a].state != Signed then Err(WrongState)
    else
      var m := s.agreements[a].member;
      match CancelSelection(s.records, m, ids, now)
      case Err(e) => Err(e)
      case Ok(records) =>
        Ok(s.(records := records,
              agreements := s.agreements[a := s.agreements[a].(state := Discontinued)],
              members := s.members[m := s.members[m].(discontinued := true, leavesOn := Some(leavesOn))]))
  }
}
