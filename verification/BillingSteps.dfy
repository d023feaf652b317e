/** What each billing service does to the tables: drafting, recomputing,
    overriding, confirming, reassigning, renewing and recreating records. */
module BillingSteps {
  import opened Wrappers
  import opened Text
  import opened Money
  import opened Calendar
  import opened Schedule
  import opened Domain
  import opened Tier

  /** int(text.split("-")[0]) */
  function MonthYear(text: string): Option<int> {
    ParseInt(text[..Find(text, '-')])
  }

  lemma MonthYearOfFormat(m: Month)
    requires m.year >= 0 && m.Valid()
    ensures MonthYear(FormatMonth(m)) == Some(m.year)
  {
    hide ParseInt;
    var y, text := Pad(m.year, 4), FormatMonth(m);
    assert forall j :: 0 <= j < |y| ==> text[j] == y[j] && IsDigit(y[j]);
    assert text[|y|] == '-';
    assert Find(text, '-') == |y|;
    assert text[..|y|] == y;
    ParsePad(m.year, 4);
  }

  // ---- amounts ----

  function FirstDue(plan: Plan, month: string): Result<Date> {
    match InstallmentSchedule(plan, 0, month, None)
    case Err(e) => Err(e)
    case Ok(entries) => if entries == [] then Err(BadDate) else Ok(entries[0].due)
  }

  function Net(base: int, percent: Percent): int {
    base - Discount(base, percent)
  }

  /** The full annual amount, or the partial base of the saved count. */
  function BaseFor(plan: Plan, count: Option<int>): int {
    match count
    case None => plan.annual
    case Some(k) => PartialBase(plan.annual, plan.installmentCount, k)
  }

  function NewRecord(m: int, member: Member, p: int, plan: Plan, agreement: Option<int>, month: string,
                     count: Option<int>, percent: Percent): Record
  {
    var base := BaseFor(plan, count);
    Record(m, p, agreement, plan.season, base, percent, Discount(base, percent), Net(base, percent),
           if member.preferredMode.Some? then member.preferredMode.value else Installments,
           member.optedOut, month, count, None, "", RecordStatus.Draft, NotSynced, None, [])
  }

  /** The snapshotted percent: the family tier, or nothing for who opted out. */
  ghost function SnapshotPercent(s: State, season: Option<string>, firstDue: Date, m: int): Percent
    requires m in s.members
  {
    if s.members[m].optedOut then 0 else TierPercent(FamilyTier(s, season, firstDue, m))
  }

  /** A record with the tier of its family and, from a given month, the count and
      partial base of the calendar year. */
  ghost function TieredRecord(s: State, m: int, p: int, agreement: int, month: string): Result<Record>
    requires m in s.members && p in s.plans
  {
    var plan := s.plans[p];
    match FirstDue(plan, month)
    case Err(e) => Err(e)
    case Ok(due) =>
      var percent := SnapshotPercent(s, Some(plan.season), due, m);
      if month == "" then Ok(NewRecord(m, s.members[m], p, plan, Some(agreement), month, None, percent))
      else
        match CalendarYearCount(plan, month)
        case Err(e) => Err(e)
        case Ok(k) => Ok(NewRecord(m, s.members[m], p, plan, Some(agreement), month, Some(k), percent))
  }

  // ---- creating records ----

  /** The draft that follows a signing, from what the signing captured. */
  ghost function CreateDraft(s: State, a: int, r: int): Result<State> {
    if a !in s.awaiting || a !in s.agreements || s.awaiting[a].plan !in s.plans || s.agreements[a].member !in s.members
    then Err(Missing)
    else
      var m, intent := s.agreements[a].member, s.awaiting[a];
      if HasRecord(s.records, m, s.plans[intent.plan].season) then Ok(s.(awaiting := s.awaiting - {a}))
      else if r in s.records then Err(Duplicate)
      else
        match TieredRecord(s, m, intent.plan, a, intent.month)
        case Err(e) => Err(e)
        case Ok(record) => Ok(s.(records := s.records[r := record], awaiting := s.awaiting - {a}))
  }

  ghost predicate IsLatestActive(plans: map<int, Plan>, p: int) {
    p in plans && plans[p].isActive && forall q :: q in plans && plans[q].isActive ==> q <= p
  }

  /** The call without an agreement: the latest active plan at full price. */
  ghost function Backfill(s: State, m: int, r: int): Result<State> {
    if m !in s.members then Err(Missing)
    else if p :| IsLatestActive(s.plans, p) then
      if HasRecord(s.records, m, s.plans[p].season) then Ok(s)
      else if r in s.records then Err(Duplicate)
      else Ok(s.(records := s.records[r := NewRecord(m, s.members[m], p, s.plans[p], None, "", None, 0)]))
    else Ok(s)
  }

  ghost function Recreate(s: State, m: int, a: int, confirmedAbsent: bool, r: int): Result<State> {
    if !confirmedAbsent then Err(NotAllowed)
    else if a !in s.agreements || m !in s.members then Err(Missing)
    else if s.agreements[a].state != Signed || s.agreements[a].member != m then Err(WrongState)
    else if s.agreements[a].plan.None? || s.agreements[a].plan.value !in s.plans then Err(NotAllowed)
    else if HasRecord(s.records, m, s.plans[s.agreements[a].plan.value].season) || r in s.records then Err(Duplicate)
    else
      match TieredRecord(s, m, s.agreements[a].plan.value, a, s.agreements[a].month)
      case Err(e) => Err(e)
      case Ok(record) => Ok(s.(records := s.records[r := record]))
  }

  /** Renewal ranks the family over all seasons and bills the full year. */
  ghost function Renew(s: State, m: int, p: int, month: string, r: int): Result<State> {
    if m !in s.members || p !in s.plans then Err(Missing)
    else if ParseMonth(month).Err? then Err(BadMonth)
    else if HasRecord(s.records, m, s.plans[p].season) then Ok(s)
    else if r in s.records then Err(Duplicate)
    else
      match FirstDue(s.plans[p], month)
      case Err(e) => Err(e)
      case Ok(due) =>
        var percent := SnapshotPercent(s, None, due, m);
        Ok(s.(records := s.records[r := NewRecord(m, s.members[m], p, s.plans[p], CurrentOf(s.agreements, m), month, None, percent)]))
  }

  // ---- changing records ----

  function Natural(x: Record): int {
    if x.manual.Some? then x.manual.value else Net(x.base, x.percent)
  }

  function Rebased(x: Record, base: int): Record {
    var y := x.(base := base, discount := Discount(base, x.percent));
    y.(final := Natural(y))
  }

  /** Recompute a draft from its plan as it is now; a confirmed record is locked. */
  function Recompute(s: State, r: int): Result<State> {
    if r !in s.records || s.records[r].plan !in s.plans then Err(Missing)
    else if s.records[r].status != RecordStatus.Draft then Ok(s)
    else
      var x := s.records[r];
      Ok(s.(records := s.records[r := Rebased(x, BaseFor(s.plans[x.plan], x.count))]))
  }

  /** The staff form: override, reason and status. */
  function SaveForm(s: State, r: int, manual: Option<int>, reason: string, status: RecordStatus): Result<State> {
    if r !in s.records then Err(Missing)
    else
      var x := s.records[r];
      if manual.Some? && Strip(reason) == "" then Err(NotAllowed)
      else if x.status != RecordStatus.Draft && (x.manual != manual || x.reason != Strip(reason)) then Err(NotAllowed)
      else Ok(s.(records := s.records[r := x.(
        manual := manual, reason := Strip(reason), status := status,
        final := if manual.Some? then manual.value else x.base - x.discount)]))
  }

  function Confirm(s: State, r: int): Result<State> {
    if r !in s.records then Err(Missing)
    else if s.records[r].status == RecordStatus.Draft then
      Ok(s.(records := s.records[r := s.records[r].(status := Confirmed)]))
    else Ok(s)
  }

  predicate PushedOrSent(rows: seq<Invoice>) {
    exists i :: 0 <= i < |rows| && (rows[i].externalId.Some? || rows[i].sentOn.Some?)
  }

  /** A given month normalized and checked against the plan and today's floor, with
      its calendar-year count; a blank one keeps the full year. */
  function ReassignedMonth(plan: Plan, month: string, today: Date): Result<(string, Option<int>)>
    requires ValidDate(today)
  {
    if month == "" then Ok(("", None))
    else
      match NormalizeMonth(plan, month)
      case Err(e) => Err(e)
      case Ok(n) =>
        match SeasonStartYear(plan.season)
        case Err(e) => Err(e)
        case Ok(y) =>
          if MonthYear(n) != Some(y) then Err(NotAllowed)
          else if StrLess(n, DeriveFirstBillingMonth(plan, today)) then Err(NotAllowed)
          else
            match CalendarYearCount(plan, n)
            case Err(e) => Err(e)
            case Ok(k) => Ok((n, Some(k)))
  }

  function Reassigned(x: Record, p: int, plan: Plan, month: string, count: Option<int>): Record {
    Rebased(x.(plan := p, season := plan.season, month := month, count := count, rows := []), BaseFor(plan, count))
  }

  ghost function Reassign(s: State, r: int, p: int, month: string, today: Date): Result<State>
    requires ValidDate(today)
  {
    if r !in s.records || p !in s.plans then Err(Missing)
    else
      var x, plan := s.records[r], s.plans[p];
      if x.status != RecordStatus.Draft then Err(WrongState)
      else if PushedOrSent(x.rows) then Err(NotAllowed)
      else
        match ReassignedMonth(plan, month, today)
        case Err(e) => Err(e)
        case Ok((n, count)) =>
          if exists q :: q != r && IsRecordOf(s.records, x.member, plan.season, q) then Err(Duplicate)
          else
            var moved := s.(records := s.records[r := Reassigned(x, p, plan, n, count)]);
            if x.agreement.Some? && x.agreement.value in s.agreements then
              Ok(moved.(agreements := s.agreements[x.agreement.value :=
                s.agreements[x.agreement.value].(plan := Some(p), month := n)]))
            else Ok(moved)
  }

  /** A staff edit of a plan's price or activity. */
  function EditPlan(s: State, p: int, annual: int, isActive: bool): Result<State> {
    if p !in s.plans then Err(Missing)
    else if s.defaultPlan == Some(p) && !isActive then Err(NotAllowed)
    else Ok(s.(plans := s.plans[p := s.plans[p].(annual := annual, isActive := isActive)]))
  }

  // ---- invoice rows ----

  function NewRow(due: Date, amount: int): Invoice {
    Invoice(due, amount, None, NotPushed, None, None, Unknown, None, NoAction, NotQueued)
  }

  /** The rows of a record: none for a zero total, the existing ones if there are
      any, else one up front or one per scheduled installment. */
  function Materialize(x: Record, plan: Plan): Result<seq<Invoice>> {
    if x.final == 0 then Ok([])
    else if x.rows != [] then Ok(x.rows)
    else
      match InstallmentSchedule(plan, x.final, x.month, x.count)
      case Err(e) => Err(e)
      case Ok(entries) =>
        if x.mode == Upfront && entries != [] then Ok([NewRow(entries[0].due, x.final)])
        else Ok(seq(|entries|, i requires 0 <= i < |entries| => NewRow(entries[i].due, entries[i].amount)))
  }
}
