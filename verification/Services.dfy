/** The services as they run: methods that update the tables in place, each tied to
    the step it makes. */
module Services {
  import opened Wrappers
  import opened Keys
  import opened Text
  import opened Money
  import opened Calendar
  import opened Schedule
  import opened Domain
  import opened Tier
  import A = AgreementSteps
  import B = BillingSteps
  import I = InvoiceSteps
  import M = Machine
  import opened Calls

  /** A step carried out in place: done as specified, or refused with nothing changed. */
  ghost predicate Carried(before: State, step: Result<State>, after: State, r: Result<()>) {
    match step
    case Ok(t) => r == Ok(()) && after == t
    case Err(e) => r == Err(e) && after == before
  }

  class Club {
    var plans: map<int, Plan>
    var defaultPlan: Option<int>
    var members: map<int, Member>
    var agreements: map<int, Agreement>
    var awaiting: map<int, Intent>
    var records: map<int, Record>
    var clientIds: map<int, nat>
    var remote: Remote

    function Tables(): State
      reads this
    {
      State(plans, defaultPlan, members, agreements, awaiting, records, clientIds, remote)
    }

    // ---- agreements ----

    method GetCurrentAgreement(m: int) returns (current: Option<int>)
      requires OneCurrent(agreements)
      ensures current == CurrentOf(agreements, m)
    {
      var rest := agreements.Keys;
      while rest != {}
        invariant rest <= agreements.Keys
        invariant forall a :: IsCurrent(agreements, m, a) ==> a in rest
      {
        NonEmpty(rest);
        var a :| a in rest;
        if agreements[a].member == m && agreements[a].isCurrent {
          assert IsCurrent(agreements, m, a);
          return Some(a);
        }
        rest := rest - {a};
      }
      return None;
    }

    /** The default plan and month, when that month normalizes into the plan's year. */
    method PreselectSetup(today: Date) returns (plan: Option<int>, month: string)
      requires ValidDate(today)
      ensures (plan, month) == A.DefaultSetup(Tables(), today)
    {
      if defaultPlan.None? || defaultPlan.value !in plans || !plans[defaultPlan.value].isActive {
        return None, "";
      }
      var p := plans[defaultPlan.value];
      var normalized := NormalizeFirstBillingMonth(p, DeriveFirstBillingMonth(p, today));
      if normalized.Err? {
        return None, "";
      }
      var seasonYear := SeasonStartYear(p.season);
      if seasonYear.Err? || B.MonthYear(normalized.value) != Some(seasonYear.value) {
        return None, "";
      }
      return defaultPlan, normalized.value;
    }

    method CreateAgreementForMember(m: int, a: int, today: Date) returns (r: Result<()>)
      requires ValidDate(today) && OneCurrent(agreements)
      modifies `agreements
      ensures Carried(old(Tables()), A.CreateAgreement(old(Tables()), m, a, today), Tables(), r)
      ensures Kept(old(Tables()), Tables())
    {
      hide Kept, A.DefaultSetup, OneCurrent;
      AgreementKept(Tables(), M.CreateAgreement(m, a, today));
      if m !in members {
        return Err(Missing);
      }
      var current := GetCurrentAgreement(m);
      if current.Some? && agreements[current.value].state != Void {
        return Ok(());
      }
      if a in agreements {
        return Err(Duplicate);
      }
      var plan, month := PreselectSetup(today);
      if current.Some? {
        agreements := agreements[current.value := agreements[current.value].(isCurrent := false)];
      }
      agreements := agreements[a := Agreement(m, true, Generated, plan, month, None)];
      return Ok(());
    }

    method RegenerateAgreement(m: int, a: int, today: Date) returns (r: Result<()>)
      requires ValidDate(today) && OneCurrent(agreements)
      modifies `agreements
      ensures Carried(old(Tables()), A.Regenerate(old(Tables()), m, a, today), Tables(), r)
      ensures Kept(old(Tables()), Tables())
    {
      hide Kept, A.CreateAgreement, OneCurrent;
      AgreementKept(Tables(), M.Regenerate(m, a, today));
      var current := GetCurrentAgreement(m);
      if current.None? {
        return Err(Missing);
      }
      if agreements[current.value].state != Void {
        return Err(NotAllowed);
      }
      r := CreateAgreementForMember(m, a, today);
    }

    method SetBillingSetup(a: int, p: int, month: string, today: Date) returns (r: Result<()>)
      requires ValidDate(today)
      modifies `agreements
      ensures Carried(old(Tables()), A.SetBillingSetup(old(Tables()), a, p, month, today), Tables(), r)
      ensures Kept(old(Tables()), Tables())
    {
      hide Kept, NormalizeMonth, CalendarYearCount, SeasonStartYear, B.MonthYear, DeriveFirstBillingMonth, StrLess;
      AgreementKept(Tables(), M.SetBillingSetup(a, p, month, today));
      if a !in agreements || p !in plans {
        return Err(Missing);
      }
      if agreements[a].state in {Signed, Superseded, Discontinued} {
        return Err(WrongState);
      }
      if month == "" {
        return Err(BadMonth);
      }
      if !plans[p].isActive {
        return Err(NotAllowed);
      }
      var normalized := NormalizeFirstBillingMonth(plans[p], month);
      if normalized.Err? {
        return Err(normalized.error);
      }
      if StrLess(normalized.value, DeriveFirstBillingMonth(plans[p], today)) {
        return Err(NotAllowed);
      }
      var seasonYear := SeasonStartYear(plans[p].season);
      if seasonYear.Err? {
        return Err(seasonYear.error);
      }
      if B.MonthYear(normalized.value) != Some(seasonYear.value) {
        return Err(NotAllowed);
      }
      var count := CountCalendarYearBillableInstallments(plans[p], normalized.value);
      if count.Err? {
        return Err(count.error);
      }
      agreements := agreements[a := agreements[a].(plan := Some(p), month := normalized.value)];
      return Ok(());
    }

    method MarkAgreementSent(a: int) returns (r: Result<()>)
      modifies `agreements
      ensures Carried(old(Tables()), A.MarkSent(old(Tables()), a), Tables(), r)
      ensures Kept(old(Tables()), Tables())
    {
      hide Kept;
      AgreementKept(Tables(), M.MarkSent(a));
      if a !in agreements {
        return Err(Missing);
      }
      if agreements[a].state != Generated {
        return Err(WrongState);
      }
      agreements := agreements[a := agreements[a].(state := Sent)];
      return Ok(());
    }

    method MarkAgreementSigned(a: int, now: int) returns (r: Result<()>)
      modifies `agreements, `awaiting
      ensures Carried(old(Tables()), A.Sign(old(Tables()), a, now), Tables(), r)
      ensures Kept(old(Tables()), Tables())
    {
      hide Kept, NormalizeMonth, SeasonStartYear, B.MonthYear;
      AgreementKept(Tables(), M.Sign(a, now));
      if a !in agreements {
        return Err(Missing);
      }
      var x := agreements[a];
      if x.state !in {Generated, Sent} {
        return Err(WrongState);
      }
      if x.plan.None? || x.plan.value !in plans {
        return Err(NotAllowed);
      }
      if x.month == "" {
        return Err(BadMonth);
      }
      var plan := plans[x.plan.value];
      if !plan.isActive {
        return Err(NotAllowed);
      }
      var seasonYear := SeasonStartYear(plan.season);
      if seasonYear.Err? {
        return Err(NotAllowed);
      }
      var normalized := NormalizeFirstBillingMonth(plan, x.month);
      if normalized.Err? || B.MonthYear(normalized.value) != Some(seasonYear.value) {
        return Err(NotAllowed);
      }
      agreements := agreements[a := x.(state := Signed, signedAt := Some(now))];
      awaiting := awaiting[a := Intent(x.plan.value, x.month)];
      return Ok(());
    }

    method VoidAgreement(a: int) returns (r: Result<()>)
      modifies `agreements
      ensures Carried(old(Tables()), A.VoidAgreement(old(Tables()), a), Tables(), r)
      ensures Kept(old(Tables()), Tables())
    {
      hide Kept;
      AgreementKept(Tables(), M.VoidAgreement(a));
      if a !in agreements {
        return Err(Missing);
      }
      if agreements[a].state == Void {
        return Ok(());
      }
      agreements := agreements[a := agreements[a].(state := Void)];
      return Ok(());
    }

    method StartMaterialAmendment(a: int, b: int) returns (r: Result<()>)
      modifies `agreements
      ensures Carried(old(Tables()), A.Amend(old(Tables()), a, b), Tables(), r)
      ensures Kept(old(Tables()), Tables())
    {
      hide Kept;
      AgreementKept(Tables(), M.Amend(a, b));
      if a !in agreements {
        return Err(Missing);
      }
      if agreements[a].state != Signed {
        return Err(WrongState);
      }
      if b in agreements {
        return Err(Duplicate);
      }
      var x := agreements[a];
      agreements := agreements[a := x.(state := Superseded, isCurrent := false)];
      agreements := agreements[b := Agreement(x.member, true, Generated, x.plan, x.month, None)];
      return Ok(());
    }

    /** Every selected row is checked before the first one is written. */
    method CreateDiscontinuationAdjustments(m: int, ids: seq<A.InvoiceId>, now: int) returns (r: Result<()>)
      modifies `records
      ensures match A.CancelSelection(old(records), m, ids, now)
              case Ok(cancelled) => r == Ok(()) && records == cancelled
              case Err(e) => r == Err(e) && records == old(records)
    {
      hide A.RowRefusal, A.CancelRow;
      if !A.Selectable(records, m, ids) {
        return Err(Foreign);
      }
      for i := 0 to |ids|
        invariant A.FirstRefusal(records, m, ids) == A.FirstRefusal(records, m, ids[i..])
      {
        assert A.Owned(records, m, ids[i]);
        assert ids[i..][0] == ids[i] && ids[i..][1..] == ids[i + 1..];
        var refusal := A.RowRefusal(A.RowOf(records, ids[i]));
        if refusal.Some? {
          return Err(refusal.value);
        }
      }
      for i := 0 to |ids|
        invariant records == A.CancelAll(old(records), m, ids[..i], now)
      {
        assert A.Owned(old(records), m, ids[i]);
        assert A.Owned(records, m, ids[i]);
        assert ids[..i + 1][..i] == ids[..i];
        var x := records[ids[i].record];
        records := records[ids[i].record := x.(rows := x.rows[ids[i].index := A.CancelRow(x.rows[ids[i].index], now)])];
      }
      assert ids[..|ids|] == ids;
      return Ok(());
    }

    method DiscontinueAgreement(a: int, leavesOn: Date, ids: seq<A.InvoiceId>, now: int) returns (r: Result<()>)
      modifies `agreements, `members, `records
      ensures Carried(old(Tables()), A.Discontinue(old(Tables()), a, leavesOn, ids, now), Tables(), r)
      ensures Kept(old(Tables()), Tables())
    {
      hide Kept, A.CancelSelection;
      AgreementKept(Tables(), M.Discontinue(a, leavesOn, ids, now));
      if a !in agreements || agreements[a].member !in members {
        return Err(Missing);
      }
      if agreements[a].state != Signed {
        return Err(WrongState);
      }
      var m := agreements[a].member;
      r := CreateDiscontinuationAdjustments(m, ids, now);
      if r.Err? {
        return r;
      }
      agreements := agreements[a := agreements[a].(state := Discontinued)];
      members := members[m := members[m].(discontinued := true, leavesOn := Some(leavesOn))];
    }

    // ---- billing records ----

    method FindRecord(m: int, season: string) returns (found: bool)
      ensures found <==> HasRecord(records, m, season)
    {
      var rest := records.Keys;
      while rest != {}
        invariant rest <= records.Keys
        invariant forall r :: IsRecordOf(records, m, season, r) ==> r in rest
      {
        NonEmpty(rest);
        var r :| r in rest;
        if records[r].member == m && records[r].season == season {
          assert IsRecordOf(records, m, season, r);
          return true;
        }
        rest := rest - {r};
      }
      return false;
    }

    method FirstBillableDueDate(plan: Plan, month: string) returns (due: Result<Date>)
      ensures due == B.FirstDue(plan, month)
    {
      hide InstallmentSchedule;
      var schedule := DeriveInstallmentSchedule(plan, 0, month, None);
      match schedule
      case Err(e) => return Err(e);
      case Ok(entries) => return if entries == [] then Err(BadDate) else Ok(entries[0].due);
    }

    /** The percent a new record snapshots: the family's tier, or nothing on opt-out. */
    method TieredPercent(m: int, season: Option<string>, due: Date) returns (percent: Percent)
      requires m in members && OneCurrent(agreements)
      ensures percent == B.SnapshotPercent(Tables(), season, due, m)
    {
      hide FamilyTier, OneCurrent;
      var tier := ComputeFamilyTier(Tables(), season, due, m);
      percent := if members[m].optedOut then 0 else TierPercent(tier);
    }

    /** The record of an agreement: from a given month the calendar year's count and
        partial base, with the family's tier on top. */
    method TieredRecord(m: int, p: int, a: int, month: string) returns (record: Result<Record>)
      requires m in members && p in plans && OneCurrent(agreements)
      ensures record == B.TieredRecord(Tables(), m, p, a, month)
    {
      hide InstallmentSchedule, B.SnapshotPercent, B.NewRecord, OneCurrent, CountOpen;
      var plan := plans[p];
      var count: Option<int> := None;
      if month != "" {
        var counted := CountCalendarYearBillableInstallments(plan, month);
        SameFailure(plan, month);
        if counted.Err? {
          return Err(counted.error);
        }
        count := Some(counted.value);
      }
      var due := FirstBillableDueDate(plan, month);
      if due.Err? {
        return Err(due.error);
      }
      var percent := TieredPercent(m, Some(plan.season), due.value);
      return Ok(B.NewRecord(m, members[m], p, plan, Some(a), month, count, percent));
    }

    method CreateDraftBilling(a: int, r: int) returns (done: Result<()>)
      requires OneCurrent(agreements)
      modifies `records, `awaiting
      ensures Carried(old(Tables()), B.CreateDraft(old(Tables()), a, r), Tables(), done)
      ensures Kept(old(Tables()), Tables())
    {
      hide Kept, B.TieredRecord, OneCurrent, HasRecord;
      BillingKept(Tables(), M.CreateDraft(a, r));
      if a !in awaiting || a !in agreements || awaiting[a].plan !in plans || agreements[a].member !in members {
        return Err(Missing);
      }
      var m, intent := agreements[a].member, awaiting[a];
      var existing := FindRecord(m, plans[intent.plan].season);
      if existing {
        awaiting := awaiting - {a};
        return Ok(());
      }
      if r in records {
        return Err(Duplicate);
      }
      var record := TieredRecord(m, intent.plan, a, intent.month);
      if record.Err? {
        return Err(record.error);
      }
      records := records[r := record.value];
      awaiting := awaiting - {a};
      return Ok(());
    }

    method RecreateMissingRecord(m: int, a: int, confirmedAbsent: bool, r: int) returns (done: Result<()>)
      requires OneCurrent(agreements)
      modifies `records
      ensures Carried(old(Tables()), B.Recreate(old(Tables()), m, a, confirmedAbsent, r), Tables(), done)
      ensures Kept(old(Tables()), Tables())
    {
      hide Kept, B.TieredRecord, OneCurrent, HasRecord;
      BillingKept(Tables(), M.Recreate(m, a, confirmedAbsent, r));
      if !confirmedAbsent {
        return Err(NotAllowed);
      }
      if a !in agreements || m !in members {
        return Err(Missing);
      }
      var x := agreements[a];
      if x.state != Signed || x.member != m {
        return Err(WrongState);
      }
      if x.plan.None? || x.plan.value !in plans {
        return Err(NotAllowed);
      }
      var existing := FindRecord(m, plans[x.plan.value].season);
      if existing || r in records {
        return Err(Duplicate);
      }
      var record := TieredRecord(m, x.plan.value, a, x.month);
      if record.Err? {
        return Err(record.error);
      }
      records := records[r := record.value];
      return Ok(());
    }

    method RenewMemberBilling(m: int, p: int, month: string, r: int) returns (done: Result<()>)
      requires OneCurrent(agreements)
      modifies `records
      ensures Carried(old(Tables()), B.Renew(old(Tables()), m, p, month, r), Tables(), done)
      ensures Kept(old(Tables()), Tables())
    {
      hide Kept, B.FirstDue, OneCurrent, HasRecord, B.SnapshotPercent, B.NewRecord, ParseMonth;
      BillingKept(Tables(), M.Renew(m, p, month, r));
      if m !in members || p !in plans {
        return Err(Missing);
      }
      if ParseMonth(month).Err? {
        return Err(BadMonth);
      }
      var existing := FindRecord(m, plans[p].season);
      if existing {
        return Ok(());
      }
      if r in records {
        return Err(Duplicate);
      }
      var due := FirstBillableDueDate(plans[p], month);
      if due.Err? {
        return Err(due.error);
      }
      var percent := TieredPercent(m, None, due.value);
      var current := GetCurrentAgreement(m);
      records := records[r := B.NewRecord(m, members[m], p, plans[p], current, month, None, percent)];
      return Ok(());
    }

    method RecomputeBillingRecord(r: int) returns (done: Result<()>)
      modifies `records
      ensures Carried(old(Tables()), B.Recompute(old(Tables()), r), Tables(), done)
      ensures Kept(old(Tables()), Tables())
    {
      hide Kept, PartialBase, Discount;
      BillingKept(Tables(), M.Recompute(r));
      if r !in records || records[r].plan !in plans {
        return Err(Missing);
      }
      if records[r].status != RecordStatus.Draft {
        return Ok(());
      }
      var x, plan := records[r], plans[records[r].plan];
      x := x.(base := if x.count.Some? then PartialBase(plan.annual, plan.installmentCount, x.count.value) else plan.annual);
      x := x.(discount := Discount(x.base, x.percent));
      x := x.(final := if x.manual.Some? then x.manual.value else x.base - x.discount);
      records := records[r := x];
      return Ok(());
    }

    method SaveRecordForm(r: int, manual: Option<int>, reason: string, status: RecordStatus) returns (done: Result<()>)
      modifies `records
      ensures Carried(old(Tables()), B.SaveForm(old(Tables()), r, manual, reason, status), Tables(), done)
      ensures !M.Unlocks(old(Tables()), M.OnBilling(M.SaveForm(r, manual, reason, status))) ==> Kept(old(Tables()), Tables())
    {
      hide Kept, Strip;
      BillingKept(Tables(), M.SaveForm(r, manual, reason, status));
      if r !in records {
        return Err(Missing);
      }
      var x, stripped := records[r], Strip(reason);
      if manual.Some? && stripped == "" {
        return Err(NotAllowed);
      }
      if x.status != RecordStatus.Draft && (x.manual != manual || x.reason != stripped) {
        return Err(NotAllowed);
      }
      x := x.(reason := stripped);
      x := x.(final := if manual.Some? then manual.value else x.base - x.discount);
      x := x.(manual := manual, status := status);
      records := records[r := x];
      return Ok(());
    }

    method ConfirmRecord(r: int) returns (done: Result<()>)
      modifies `records
      ensures Carried(old(Tables()), B.Confirm(old(Tables()), r), Tables(), done)
      ensures Kept(old(Tables()), Tables())
    {
      hide Kept;
      BillingKept(Tables(), M.Confirm(r));
      if r !in records {
        return Err(Missing);
      }
      if records[r].status == RecordStatus.Draft {
        records := records[r := records[r].(status := Confirmed)];
      }
      return Ok(());
    }

    /** The month, count and floor checks of a reassignment, before any write. */
    method CheckReassignedMonth(plan: Plan, month: string, today: Date) returns (checked: Result<(string, Option<int>)>)
      requires ValidDate(today)
      ensures checked == B.ReassignedMonth(plan, month, today)
    {
      hide NormalizeMonth, CalendarYearCount, SeasonStartYear, B.MonthYear, DeriveFirstBillingMonth, StrLess;
      if month == "" {
        return Ok(("", None));
      }
      var normalized := NormalizeFirstBillingMonth(plan, month);
      if normalized.Err? {
        return Err(normalized.error);
      }
      var seasonYear := SeasonStartYear(plan.season);
      if seasonYear.Err? {
        return Err(seasonYear.error);
      }
      if B.MonthYear(normalized.value) != Some(seasonYear.value) || StrLess(normalized.value, DeriveFirstBillingMonth(plan, today)) {
        return Err(NotAllowed);
      }
      var count := CountCalendarYearBillableInstallments(plan, normalized.value);
      if count.Err? {
        return Err(count.error);
      }
      return Ok((normalized.value, Some(count.value)));
    }

    /** Whether another record of the member already has the season. */
    method SeasonTaken(r: int, m: int, season: string) returns (taken: bool)
      ensures taken <==> exists q :: q != r && IsRecordOf(records, m, season, q)
    {
      var rest := records.Keys - {r};
      while rest != {}
        invariant rest <= records.Keys - {r}
        invariant forall q :: q != r && IsRecordOf(records, m, season, q) ==> q in rest
      {
        NonEmpty(rest);
        var q :| q in rest;
        if records[q].member == m && records[q].season == season {
          assert IsRecordOf(records, m, season, q);
          return true;
        }
        rest := rest - {q};
      }
      return false;
    }

    /** The record on its new plan, priced anew under the percent it snapshot. */
    method MovedRecord(record: Record, p: int, plan: Plan, month: string, count: Option<int>) returns (x: Record)
      ensures x == B.Reassigned(record, p, plan, month, count)
      ensures x.agreement == record.agreement && x.month == month
    {
      hide PartialBase, Discount;
      x := record.(rows := []);
      x := x.(base := if count.Some? then PartialBase(plan.annual, plan.installmentCount, count.value) else plan.annual);
      x := x.(plan := p, season := plan.season, month := month, count := count);
      x := x.(discount := Discount(x.base, x.percent));
      x := x.(final := if x.manual.Some? then x.manual.value else x.base - x.discount);
    }

    method ReassignDraftRecord(r: int, p: int, month: string, today: Date) returns (done: Result<()>)
      requires ValidDate(today)
      modifies `records, `agreements
      ensures Carried(old(Tables()), B.Reassign(old(Tables()), r, p, month, today), Tables(), done)
      ensures Kept(old(Tables()), Tables())
    {
      hide Kept, B.ReassignedMonth, B.PushedOrSent, B.Reassigned, IsRecordOf;
      ReassignKept(Tables(), r, p, month, today);
      if r !in records || p !in plans {
        return Err(Missing);
      }
      var x, plan := records[r], plans[p];
      if x.status != RecordStatus.Draft {
        return Err(WrongState);
      }
      if B.PushedOrSent(x.rows) {
        return Err(NotAllowed);
      }
      var checked := CheckReassignedMonth(plan, month, today);
      if checked.Err? {
        return Err(checked.error);
      }
      var (normalized, count) := checked.value;
      var taken := SeasonTaken(r, x.member, plan.season);
      if taken {
        return Err(Duplicate);
      }
      x := MovedRecord(x, p, plan, normalized, count);
      records := records[r := x];
      if x.agreement.Some? && x.agreement.value in agreements {
        var a := x.agreement.value;
        agreements := agreements[a := agreements[a].(plan := Some(p), month := x.month)];
      }
      return Ok(());
    }

    /** The active plan with the largest key, if there is one. */
    method LatestActivePlan() returns (latest: Option<int>)
      ensures latest.Some? ==> B.IsLatestActive(plans, latest.value)
      ensures latest.None? ==> forall p :: !B.IsLatestActive(plans, p)
    {
      latest := None;
      var rest := plans.Keys;
      while rest != {}
        invariant rest <= plans.Keys
        invariant latest.Some? ==> latest.value in plans && plans[latest.value].isActive
        invariant forall q :: q in plans && plans[q].isActive && q !in rest ==> latest.Some? && q <= latest.value
      {
        NonEmpty(rest);
        var p :| p in rest;
        if plans[p].isActive && (latest.None? || latest.value < p) {
          latest := Some(p);
        }
        rest := rest - {p};
      }
    }

    method BackfillBilling(m: int, r: int) returns (done: Result<()>)
      modifies `records
      ensures Carried(old(Tables()), B.Backfill(old(Tables()), m, r), Tables(), done)
      ensures Kept(old(Tables()), Tables())
    {
      hide Kept, HasRecord, B.NewRecord;
      BillingKept(Tables(), M.Backfill(m, r));
      if m !in members {
        return Err(Missing);
      }
      var latest := LatestActivePlan();
      if latest.None? {
        return Ok(());
      }
      var p := latest.value;
      assert forall q :: B.IsLatestActive(plans, q) ==> q == p;
      var existing := FindRecord(m, plans[p].season);
      if existing {
        return Ok(());
      }
      if r in records {
        return Err(Duplicate);
      }
      records := records[r := B.NewRecord(m, members[m], p, plans[p], None, "", None, 0)];
      return Ok(());
    }

    // ---- invoice rows and the provider ----

    /** Create the missing rows of a record, one by one. */
    method MaterializeInstallments(r: int) returns (rows: Result<seq<Invoice>>)
      requires r in records && records[r].plan in plans
      modifies `records
      ensures rows == B.Materialize(old(records[r]), plans[old(records[r]).plan])
      ensures records == if rows.Ok? && rows.value != [] then old(records)[r := old(records[r]).(rows := rows.value)] else old(records)
    {
      hide InstallmentSchedule;
      var x := records[r];
      if x.final == 0 {
        return Ok([]);
      }
      if x.rows != [] {
        assert records[r := x.(rows := x.rows)] == records;
        return Ok(x.rows);
      }
      var derived := DeriveInstallmentSchedule(plans[x.plan], x.final, x.month, x.count);
      if derived.Err? {
        return Err(derived.error);
      }
      var schedule := derived.value;
      if x.mode == Upfront && schedule != [] {
        schedule := [Entry(schedule[0].due, x.final)];
      }
      assert records == if schedule[..0] == [] then records else records[r := x];
      for i := 0 to |schedule|
        invariant r in records && records == old(records)[r := x.(rows := records[r].rows)]
        invariant |records[r].rows| == i
        invariant forall k :: 0 <= k < i ==> records[r].rows[k] == B.NewRow(schedule[k].due, schedule[k].amount)
      {
        var row := B.NewRow(schedule[i].due, schedule[i].amount);
        records := records[r := records[r].(rows := records[r].rows + [row])];
      }
      rows := Ok(records[r].rows);
      assert rows.value == B.Materialize(x, plans[x.plan]).value;
    }

    /** The stored client of a guardian, or the provider's, stored once known. */
    method EnsureClientId(guardian: int, find: I.Fate, create: I.Fate) returns (reply: I.Reply<nat>)
      modifies `clientIds, `remote
      ensures var (desk, expected) := I.EnsureClient(I.DeskOf(old(Tables()), guardian), guardian, find, create);
              reply == expected && Tables() == I.StoreDesk(old(Tables()), guardian, desk)
    {
      if guardian in clientIds {
        assert clientIds[guardian := clientIds[guardian]] == clientIds;
        return I.Got(clientIds[guardian]);
      }
      assert clientIds - {guardian} == clientIds;
      var answer := EnsureClientAtProvider(guardian, find, create);
      if answer.Got? {
        clientIds := clientIds[guardian := answer.value];
      }
      return answer;
    }

    /** ensure_client: reuse the active client of this guardian, else create one. */
    method EnsureClientAtProvider(guardian: int, find: I.Fate, create: I.Fate) returns (reply: I.Reply<nat>)
      modifies `remote
      ensures (remote, reply) == I.EnsureRemoteClient(old(remote), guardian, find, create)
    {
      hide I.FindClient;
      if find != I.Answers {
        return I.Seen(find, I.StaleClient);
      }
      var existing := FindClientIdByPk(remote.clients, guardian);
      if existing.Some? {
        return I.Got(existing.value);
      }
      var id := |remote.clients|;
      if I.TakesEffect(create) {
        remote := remote.(clients := remote.clients + [RemoteClient(guardian, true)]);
      }
      return I.Seen(create, I.Got(id));
    }

    /** create_invoice: post it; if its number is taken, recover the id by lookup. */
    method CreateInvoiceAtProvider(r: int, sequence: int, amount: int, client: Option<nat>, post: I.Fate, lookup: I.Fate)
      returns (reply: I.Reply<nat>)
      modifies `remote
      ensures (remote, reply) == I.CreateInvoice(old(remote), r, sequence, amount, client, post, lookup)
    {
      hide I.FindInvoice, I.NumberTaken;
      if I.NumberTaken(remote, r, sequence) {
        if post != I.Answers {
          return I.Seen(post, I.Failed(Misconfigured));
        }
        var existing := FindInvoiceIdByNumber(remote.invoices, r, sequence);
        return I.Seen(lookup, if existing.Some? then I.Got(existing.value) else I.Failed(Misconfigured));
      }
      if client.None? {
        return I.Seen(post, I.Failed(Misconfigured));
      }
      if !I.ActiveClient(remote, client.value) {
        return I.Seen(post, I.StaleClient);
      }
      var id := |remote.invoices|;
      if I.TakesEffect(post) {
        remote := remote.(invoices := remote.invoices + [RemoteInvoice(r, sequence, amount, client.value, true, false, [])]);
      }
      return I.Seen(post, I.Got(id));
    }

    /** Forget the stale id, get a fresh client and retry the creation. */
    method RetryWithFreshClient(guardian: int, r: int, sequence: int, amount: int, f: I.RowFates) returns (reply: I.Reply<nat>)
      requires guardian !in clientIds
      modifies `clientIds, `remote
      ensures var (desk, expected) := I.RetryWithFreshClient(I.Desk(None, old(remote)), guardian, r, sequence, amount, f);
              reply == expected && Tables() == I.StoreDesk(old(Tables()), guardian, desk)
    {
      hide I.CreateInvoice, I.EnsureClient;
      assert I.DeskOf(Tables(), guardian) == I.Desk(None, remote);
      reply := EnsureClientId(guardian, f.find, f.create);
      if !reply.Got? {
        return if reply == I.StaleClient then I.Failed(Misconfigured) else reply;
      }
      StoredDesk(old(Tables()), guardian, I.EnsureClient(I.Desk(None, old(remote)), guardian, f.find, f.create).0);
      reply := CreateInvoiceAtProvider(r, sequence, amount, I.DeskOf(Tables(), guardian).client, f.repost, f.relookup);
      return if reply == I.StaleClient then I.Failed(Misconfigured) else reply;
    }

    /** Create an invoice, recovering once from a stale client id. */
    method CreateInvoiceWithRecovery(guardian: int, r: int, sequence: int, amount: int, f: I.RowFates) returns (reply: I.Reply<nat>)
      modifies `clientIds, `remote
      ensures var (desk, expected) := I.CreateWithRecovery(I.DeskOf(old(Tables()), guardian), guardian, r, sequence, amount, f);
              reply == expected && Tables() == I.StoreDesk(old(Tables()), guardian, desk)
    {
      hide I.CreateInvoice, I.RetryWithFreshClient;
      KeptClient(clientIds, guardian);
      reply := CreateInvoiceAtProvider(r, sequence, amount, I.DeskOf(Tables(), guardian).client, f.post, f.lookup);
      if reply != I.StaleClient {
        return;
      }
      clientIds := clientIds - {guardian};
      ghost var desk := I.RetryWithFreshClient(I.Desk(None, remote), guardian, r, sequence, amount, f).0;
      ClearedThenStored(old(clientIds), guardian, desk.client);
      reply := RetryWithFreshClient(guardian, r, sequence, amount, f);
    }

    /** One invoice per row lacking an id: skip what is cancelled or has one, stop on a
        transient error, remember the first permanent one. */
    method PushInvoices(r: int, guardian: int, fates: seq<I.RowFates>) returns (end: I.PushEnd)
      requires r in records
      modifies `records, `clientIds, `remote
      ensures var (w, expected) := I.PushRows(I.Work(old(records[r]).rows, I.DeskOf(old(Tables()), guardian)), guardian, r, 0, None, fates);
              end == expected && PushedRows(old(Tables()), r, guardian, w, Tables())
      ensures r in records
    {
      hide I.PushOne, I.PushRows, PushedRows;
      var failed: Option<ErrorCode> := None;
      ghost var before := Tables();
      ghost var start := I.Work(records[r].rows, I.DeskOf(Tables(), guardian));
      NothingPushed(before, r, guardian);
      var i := 0;
      while i < |records[r].rows|
        invariant r in records && i <= |records[r].rows|
        invariant PushedRows(before, r, guardian, I.Work(records[r].rows, I.DeskOf(Tables(), guardian)), Tables())
        invariant I.PushRows(I.Work(records[r].rows, I.DeskOf(Tables(), guardian)), guardian, r, i, failed, fates)
               == I.PushRows(start, guardian, r, 0, None, fates)
        decreases |records[r].rows| - i
      {
        ghost var w := I.Work(records[r].rows, I.DeskOf(Tables(), guardian));
        OneRow(w, guardian, r, i, failed, fates);
        if I.Outstanding(records[r].rows[i]) {
          var reply := PushInvoice(before, r, guardian, i, I.FatesAt(fates, i));
          if reply.Failed? {
            if I.Retried(reply.code) {
              return I.Raised(reply.code);
            }
            failed := if failed.Some? then failed else Some(reply.code);
          } else if !reply.Got? {
            return I.Killed;
          }
        }
        i := i + 1;
      }
      LastRow(I.Work(records[r].rows, I.DeskOf(Tables(), guardian)), guardian, r, failed, fates);
      return I.Finished(failed);
    }

    /** Create the invoice of one row and save the outcome on the row. */
    method PushInvoice(ghost before: State, r: int, guardian: int, i: nat, f: I.RowFates) returns (reply: I.Reply<nat>)
      requires r in records && i < |records[r].rows|
      requires PushedRows(before, r, guardian, I.Work(records[r].rows, I.DeskOf(Tables(), guardian)), Tables())
      modifies `records, `clientIds, `remote
      ensures r in records
      ensures var (w, expected) := I.PushOne(I.Work(old(records[r]).rows, I.DeskOf(old(Tables()), guardian)), guardian, r, i, f);
              && reply == expected && I.Work(records[r].rows, I.DeskOf(Tables(), guardian)) == w
              && PushedRows(before, r, guardian, w, Tables())
    {
      hide I.CreateWithRecovery;
      ghost var w := I.Work(records[r].rows, I.DeskOf(Tables(), guardian));
      var row := records[r].rows[i];
      ghost var desk := I.CreateWithRecovery(w.desk, guardian, r, i + 1, row.amount, f).0;
      StoredDesk(Tables(), guardian, desk);
      StoredAgain(before, Tables(), r, guardian, w, desk);
      reply := CreateInvoiceWithRecovery(guardian, r, i + 1, row.amount, f);
      if reply.Failed? {
        row := I.RowFailed(row, reply.code);
      } else if reply.Got? {
        row := I.RowPushed(row, reply.value);
      } else {
        return;
      }
      WrittenRow(before, Tables(), r, guardian, I.Work(w.rows, desk), i, row);
      records := records[r := records[r].(rows := records[r].rows[i := row])];
    }

    /** Push a confirmed record; a zero total is synced without the provider. */
    method PushBillingRecord(r: int, f: I.PushFates)
      modifies `records, `clientIds, `remote
      ensures Tables() == I.Push(old(Tables()), r, f)
      ensures Kept(old(Tables()), Tables())
    {
      hide Kept, I.PushToProvider;
      InvoiceKept(Tables(), M.Push(r, f));
      if r !in records || records[r].member !in members || records[r].plan !in plans {
        return;
      }
      if records[r].status != Confirmed || records[r].sync == Synced {
        return;
      }
      if records[r].final == 0 {
        StampRecord(r, Synced, None);
        return;
      }
      PushToProvider(r, f);
    }

    /** Product, client, rows, then one invoice per row, and the roll-up. */
    method PushToProvider(r: int, f: I.PushFates)
      requires r in records && records[r].member in members && records[r].plan in plans && records[r].final != 0
      modifies `records, `clientIds, `remote
      ensures Tables() == I.PushToProvider(old(Tables()), r, f)
    {
      hide I.EnsureClient, I.PushFromDesk, I.Stamp, I.StoreDesk;
      ghost var before := Tables();
      StampRecord(r, PendingSync, None);
      var guardian := members[records[r].member].guardian;
      if f.product.Refused? || f.product.ReplyLost? {
        var code := if f.product.Refused? then f.product.code else Unavailable;
        StampedTwice(before, r, FailedSync, Some(code));
        StampRecord(r, FailedSync, Some(code));
        return;
      }
      if f.product.Dies? {
        return;
      }
      assert I.DeskOf(Tables(), guardian) == I.DeskOf(before, guardian);
      ghost var desk := I.EnsureClient(I.DeskOf(before, guardian), guardian, f.find, f.create).0;
      var client := EnsureClientId(guardian, f.find, f.create);
      if client.Failed? {
        StampedStored(before, r, guardian, desk, FailedSync, Some(client.code));
        StampRecord(r, FailedSync, Some(client.code));
        return;
      }
      if client.Got? {
        PushFromDesk(before, r, guardian, desk, f.rows);
      }
    }

    /** The rows of a pending record, one invoice each, and the roll-up. */
    method PushFromDesk(ghost before: State, r: int, guardian: int, ghost desk: I.Desk, fates: seq<I.RowFates>)
      requires r in before.records && before.records[r].plan in before.plans && before.records[r].final != 0
      requires Tables() == I.StoreDesk(I.Stamp(before, r, PendingSync, None), guardian, desk)
      modifies `records, `clientIds, `remote
      ensures Tables() == I.PushFromDesk(before, r, guardian, desk, fates)
    {
      hide I.PushRows, B.Materialize, I.PushDone, PushedRows, I.RollUp;
      StampedMaterialize(before.records[r], plans[records[r].plan]);
      StoredDesk(before, guardian, desk);
      var rows := MaterializeInstallments(r);
      if rows.Err? {
        return;
      }
      MaterializedRows(before.records[r], plans[records[r].plan]);
      ghost var ready := Tables();
      var end := PushInvoices(r, guardian, fates);
      ghost var w := I.PushRows(I.Work(rows.value, desk), guardian, r, 0, None, fates).0;
      ghost var mid := Tables();
      if end != I.Killed {
        var (sync, error) := I.RollUp(end);
        StampRecord(r, sync, error);
      }
      PushedThenStored(before, ready, mid, r, guardian, desk, w, end, Tables());
    }

    method StampRecord(r: int, sync: Sync, error: Option<ErrorCode>)
      requires r in records
      modifies `records
      ensures Tables() == I.Stamp(old(Tables()), r, sync, error)
      ensures r in records && records[r] == old(records[r]).(sync := sync, error := error)
    {
      records := records[r := records[r].(sync := sync, error := error)];
    }

    /** Mark a confirmed record pending before its job is queued. */
    method EnqueuePush(r: int)
      modifies `records
      ensures Tables() == I.Enqueue(old(Tables()), r)
      ensures Kept(old(Tables()), Tables())
    {
      hide Kept;
      InvoiceKept(Tables(), M.Enqueue(r));
      if r !in records || records[r].status != Confirmed || records[r].sync in {Synced, PendingSync} {
        return;
      }
      StampRecord(r, PendingSync, None);
    }

    /** The push button; a draft needs the explicit request to confirm it. */
    method PushView(r: int, confirmToo: bool) returns (done: Result<()>)
      modifies `records
      ensures Carried(old(Tables()), I.PushButton(old(Tables()), r, confirmToo), Tables(), done)
      ensures Kept(old(Tables()), Tables())
    {
      hide Kept, I.Enqueue;
      InvoiceKept(Tables(), M.PushButton(r, confirmToo));
      if r !in records {
        return Err(Missing);
      }
      if records[r].status == RecordStatus.Draft {
        if !confirmToo {
          return Err(NotAllowed);
        }
        records := records[r := records[r].(status := Confirmed)];
      }
      if records[r].sync == Synced {
        return Ok(());
      }
      EnqueuePush(r);
      return Ok(());
    }

    /** The archive or cancel job of a cancelled row. */
    method RunCancellationJob(id: A.InvoiceId, fate: I.Fate)
      modifies `records, `remote
      ensures Tables() == I.RunCancellation(old(Tables()), id, fate)
      ensures Kept(old(Tables()), Tables())
    {
      hide Kept;
      CancellationKept(Tables(), id, fate);
      if id.record !in records || id.index >= |records[id.record].rows| {
        return;
      }
      var row := records[id.record].rows[id.index];
      if row.externalId.None? || row.action == NoAction {
        return;
      }
      var k := row.externalId.value;
      if I.TakesEffect(fate) && k < |remote.invoices| {
        var x := remote.invoices[k];
        x := if row.action == Archive then x.(active := false) else x.(voided := true);
        remote := remote.(invoices := remote.invoices[k := x]);
      }
      match fate
      case Answers => SaveRow(id, row.(cancelStatus := CancelDone));
      case Refused(_) => SaveRow(id, row.(cancelStatus := CancelFailed));
      case ReplyLost => SaveRow(id, row.(cancelStatus := CancelFailed));
      case Dies(_) =>
    }

    method SaveRow(id: A.InvoiceId, row: Invoice)
      requires id.record in records && id.index < |records[id.record].rows|
      modifies `records
      ensures Tables() == I.WithRow(old(Tables()), id, row)
    {
      records := records[id.record := records[id.record].(rows := records[id.record].rows[id.index := row])];
    }

    /** The nightly sweep: email what is due, record what fails, go on with the next. */
    method SendDueInvoices(ids: seq<A.InvoiceId>, today: Date, emails: seq<bool>, fates: seq<I.Fate>)
      requires |emails| == |ids| == |fates|
      modifies `records, `remote
      ensures Tables() == I.Sweep(old(Tables()), ids, today, emails, fates)
      ensures Kept(old(Tables()), Tables())
    {
      hide Kept, I.SendDue;
      SweepKept(Tables(), ids, today, emails, fates);
      for i := 0 to |ids|
        invariant Tables() == I.Sweep(old(Tables()), ids[..i], today, emails[..i], fates[..i])
      {
        assert ids[..i + 1][..i] == ids[..i] && emails[..i + 1][..i] == emails[..i] && fates[..i + 1][..i] == fates[..i];
        SendDueInvoice(ids[i], today, emails[i], fates[i]);
      }
      assert ids[..|ids|] == ids && emails[..|ids|] == emails && fates[..|ids|] == fates;
    }

    method SendDueInvoice(id: A.InvoiceId, today: Date, hasEmail: bool, fate: I.Fate)
      modifies `records, `remote
      ensures Tables() == I.SendDue(old(Tables()), id, today, hasEmail, fate)
    {
      if id.record !in records || id.index >= |records[id.record].rows| {
        return;
      }
      var row := records[id.record].rows[id.index];
      UnchangedRow(Tables(), id);
      if I.DueToSend(row, today) && hasEmail {
        if I.TakesEffect(fate) {
          remote := remote.(invoices := I.Mailed(remote.invoices, row.externalId.value, today));
        }
        UnchangedRow(Tables(), id);
        match fate
        case Answers => SaveRow(id, row.(status := Emailed, sentOn := Some(today), error := None));
        case Refused(code) => SaveRow(id, row.(error := Some(code)));
        case ReplyLost => SaveRow(id, row.(error := Some(Unavailable)));
        case Dies(_) =>
      }
    }

    method SyncInvoicePayment(id: A.InvoiceId, payment: Payment)
      modifies `records
      ensures Tables() == I.SyncPayment(old(Tables()), id, payment)
      ensures Kept(old(Tables()), Tables())
    {
      hide Kept;
      InvoiceKept(Tables(), M.SyncPayment(id, payment));
      if id.record !in records || id.index >= |records[id.record].rows| {
        return;
      }
      var row := records[id.record].rows[id.index];
      if row.externalId.Some? {
        SaveRow(id, row.(payment := payment));
      }
    }
  }

  /** The count and the first due date of a month fail together, and alike. */
  lemma SameFailure(plan: Plan, month: string)
    requires month != ""
    ensures CalendarYearCount(plan, month).Err? <==> InstallmentSchedule(plan, 0, month, None).Err?
    ensures CalendarYearCount(plan, month).Err? ==>
              CalendarYearCount(plan, month).error == InstallmentSchedule(plan, 0, month, None).error
    ensures InstallmentSchedule(plan, 0, month, None).Ok? ==> InstallmentSchedule(plan, 0, month, None).value != []
  {
    hide ParseMonth, SkipMonths, Amounts, BillingMonths, CountOpen;
  }

  lemma KeptClient(clientIds: map<int, nat>, guardian: int)
    ensures guardian in clientIds ==> clientIds[guardian := clientIds[guardian]] == clientIds
    ensures guardian !in clientIds ==> clientIds - {guardian} == clientIds
  {
  }

  lemma StoredDesk(s: State, guardian: int, desk: I.Desk)
    ensures I.DeskOf(I.StoreDesk(s, guardian, desk), guardian) == desk
  {
  }

  lemma ClearedThenStored(clientIds: map<int, nat>, guardian: int, client: Option<nat>)
    ensures var cleared := clientIds - {guardian};
            if client.Some? then cleared[guardian := client.value] == clientIds[guardian := client.value]
            else cleared - {guardian} == cleared
  {
  }

  lemma UnchangedRow(s: State, id: A.InvoiceId)
    requires id.record in s.records && id.index < |s.records[id.record].rows|
    ensures I.WithRow(s, id, s.records[id.record].rows[id.index]) == s
  {
    var x := s.records[id.record];
    assert x.rows[id.index := x.rows[id.index]] == x.rows;
    assert s.records[id.record := x] == s.records;
  }

  lemma StampedTwice(s: State, r: int, sync: Sync, error: Option<ErrorCode>)
    requires r in s.records
    ensures var pending := I.Stamp(s, r, PendingSync, None);
            r in pending.records && I.Stamp(pending, r, sync, error) == I.Stamp(s, r, sync, error)
  {
    Overwritten(s.records, r, s.records[r].(sync := PendingSync, error := None), s.records[r].(sync := sync, error := error));
  }

  lemma StampedStored(s: State, r: int, guardian: int, desk: I.Desk, sync: Sync, error: Option<ErrorCode>)
    requires r in s.records
    ensures var stored := I.StoreDesk(I.Stamp(s, r, PendingSync, None), guardian, desk);
            r in stored.records && I.Stamp(stored, r, sync, error) == I.StoreDesk(I.Stamp(s, r, sync, error), guardian, desk)
  {
    StampedTwice(s, r, sync, error);
  }

  // ---- the push loop ----

  /** The tables with the rows and the desk of a push written back. */
  ghost predicate PushedRows(before: State, r: int, guardian: int, w: I.Work, after: State) {
    r in before.records &&
    after == I.StoreDesk(before.(records := before.records[r := before.records[r].(rows := w.rows)]), guardian, w.desk)
  }

  lemma NothingPushed(s: State, r: int, guardian: int)
    requires r in s.records
    ensures PushedRows(s, r, guardian, I.Work(s.records[r].rows, I.DeskOf(s, guardian)), s)
  {
    KeptClient(s.clientIds, guardian);
    assert s.records[r := s.records[r].(rows := s.records[r].rows)] == s.records;
  }

  /** A later desk of the same guardian replaces the earlier one. */
  lemma StoredAgain(before: State, s: State, r: int, guardian: int, w: I.Work, desk: I.Desk)
    requires PushedRows(before, r, guardian, w, s)
    ensures PushedRows(before, r, guardian, w.(desk := desk), I.StoreDesk(s, guardian, desk))
  {
    var x, y := before.clientIds, s.clientIds;
    if desk.client.Some? {
      assert y[guardian := desk.client.value] == x[guardian := desk.client.value];
    } else {
      assert y - {guardian} == x - {guardian};
    }
  }

  lemma WrittenRow(before: State, s: State, r: int, guardian: int, w: I.Work, i: nat, row: Invoice)
    requires PushedRows(before, r, guardian, w, s) && r in s.records && i < |w.rows|
    ensures PushedRows(before, r, guardian, w.(rows := w.rows[i := row]),
                       s.(records := s.records[r := s.records[r].(rows := w.rows[i := row])]))
  {
    Overwritten(before.records, r, before.records[r].(rows := w.rows), before.records[r].(rows := w.rows[i := row]));
  }

  lemma Overwritten(records: map<int, Record>, r: int, x: Record, y: Record)
    ensures records[r := x][r := y] == records[r := y]
  {
  }

  /** One turn of the loop. */
  lemma OneRow(w: I.Work, guardian: int, r: int, i: nat, failed: Option<ErrorCode>, fates: seq<I.RowFates>)
    requires i < |w.rows|
    ensures I.PushRows(w, guardian, r, i, failed, fates) ==
            if !I.Outstanding(w.rows[i]) then I.PushRows(w, guardian, r, i + 1, failed, fates)
            else
              var (next, reply) := I.PushOne(w, guardian, r, i, I.FatesAt(fates, i));
              match reply
              case Dead => (next, I.Killed)
              case StaleClient => (next, I.Killed)
              case Got(_) => I.PushRows(next, guardian, r, i + 1, failed, fates)
              case Failed(code) =>
                if I.Retried(code) then (next, I.Raised(code))
                else I.PushRows(next, guardian, r, i + 1, if failed.Some? then failed else Some(code), fates)
  {
    hide I.CreateWithRecovery;
  }

  lemma LastRow(w: I.Work, guardian: int, r: int, failed: Option<ErrorCode>, fates: seq<I.RowFates>)
    ensures I.PushRows(w, guardian, r, |w.rows|, failed, fates) == (w, I.Finished(failed))
  {
  }

  lemma StampedMaterialize(x: Record, plan: Plan)
    ensures B.Materialize(x.(sync := PendingSync, error := None), plan) == B.Materialize(x, plan)
  {
    hide InstallmentSchedule;
  }

  lemma MaterializedRows(x: Record, plan: Plan)
    requires x.final != 0 && B.Materialize(x, plan).Ok?
    ensures B.Materialize(x, plan).value != []
  {
    hide ParseMonth, SeasonYear, SkipMonths, BillingMonths, Amounts, Anchor, Dated;
  }

  /** Stamping the record and storing the desk as the push goes adds up to the roll-up. */
  lemma PushedThenStored(before: State, ready: State, mid: State, r: int, guardian: int, desk: I.Desk, w: I.Work, end: I.PushEnd, after: State)
    requires r in before.records && r in ready.records
    requires ready == I.StoreDesk(before.(records := ready.records), guardian, desk)
    requires ready.records == before.records[r := before.records[r].(rows := ready.records[r].rows, sync := PendingSync, error := None)]
    requires PushedRows(ready, r, guardian, w, mid)
    requires after == if end == I.Killed then mid else I.Stamp(mid, r, I.RollUp(end).0, I.RollUp(end).1)
    ensures after == I.PushDone(before, r, guardian, w, end)
  {
    var x := before.records[r].(rows := w.rows, sync := PendingSync, error := None);
    var y := x.(sync := I.RollUp(end).0, error := I.RollUp(end).1);
    Overwritten(before.records, r, ready.records[r], x);
    Overwritten(before.records, r, x, y);
    OverwrittenClient(before.clientIds, guardian, desk.client, w.desk.client);
  }

  /** The stored clients after one guardian's client became known or was cleared. */
  function WithClient(clientIds: map<int, nat>, guardian: int, client: Option<nat>): map<int, nat> {
    if client.Some? then clientIds[guardian := client.value] else clientIds - {guardian}
  }

  lemma OverwrittenClient(clientIds: map<int, nat>, guardian: int, c: Option<nat>, d: Option<nat>)
    ensures WithClient(WithClient(clientIds, guardian, c), guardian, d) == WithClient(clientIds, guardian, d)
  {
  }

  // ---- scanning the provider's replies ----

  method FindClientIdByPk(clients: seq<RemoteClient>, guardian: int) returns (client: Option<nat>)
    ensures client == I.FindClient(clients, guardian, 0)
  {
    for i := 0 to |clients|
      invariant I.FindClient(clients, guardian, 0) == I.FindClient(clients, guardian, i)
    {
      if clients[i].active && clients[i].guardian == guardian {
        return Some(i);
      }
    }
    return None;
  }

  method FindInvoiceIdByNumber(invoices: seq<RemoteInvoice>, r: int, sequence: int) returns (id: Option<nat>)
    ensures id == I.FindInvoice(invoices, r, sequence, 0)
  {
    for i := 0 to |invoices|
      invariant I.FindInvoice(invoices, r, sequence, 0) == I.FindInvoice(invoices, r, sequence, i)
    {
      if invoices[i].active && I.Numbered(invoices[i], r, sequence) {
        return Some(i);
      }
    }
    return None;
  }
}
