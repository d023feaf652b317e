/** What holds of every billing record and invoice row in every run, and what no
    later step changes about them. */
module RecordLife {
  import opened Wrappers
  import opened Money
  import opened Calendar
  import opened Schedule
  import opened Domain
  import opened BillingSteps
  import opened AgreementSteps
  import opened InvoiceSteps

  // ---- plans never change their geometry ----

  predicate SameGeometry(p: Plan, q: Plan) {
    q == p.(annual := q.annual, isActive := q.isActive)
  }

  ghost predicate PlansLater(p: map<int, Plan>, q: map<int, Plan>) {
    (forall k :: k in p <==> k in q) && forall k :: k in p ==> SameGeometry(p[k], q[k])
  }

  lemma GeometryDecides(p: Plan, q: Plan, text: string, x: Record)
    requires SameGeometry(p, q)
    ensures MonthOk(p, text) <==> MonthOk(q, text)
    ensures CalendarYearCount(p, text) == CalendarYearCount(q, text)
    ensures Materialize(x, p) == Materialize(x, q)
  {
    hide ParseMonth, SeasonYear, SkipMonths, BillingMonths, Amounts, Open, CountOpen, BuildEntries, AllSkipped, FirstOpen, Dated;
  }

  // ---- months ----

  /** A canonical billing month in the start year of the plan's own season. */
  predicate MonthOk(plan: Plan, text: string) {
    var m := ParseMonth(text);
    && m.Ok? && m.value.Some? && text == FormatMonth(m.value.value)
    && Open(plan.Skip(), m.value.value.Index())
    && SeasonStartYear(plan.season) == Ok(m.value.value.year)
  }

  /** The checks the services make on a normalized month establish it. */
  lemma NormalizedInYear(plan: Plan, value: string)
    requires NormalizeMonth(plan, value).Ok? && SeasonStartYear(plan.season).Ok?
    requires MonthYear(NormalizeMonth(plan, value).value) == Some(SeasonStartYear(plan.season).value)
    ensures MonthOk(plan, NormalizeMonth(plan, value).value)
  {
    hide ParseMonth, SkipMonths, FirstOpen, Open, FormatMonth, SeasonYear, MonthYear, AllSkipped;
    var m := ParseMonth(value).value.value;
    var f := OfIndex(FirstOpen(plan.Skip(), m.Index()));
    MonthYearOfFormat(f);
    ParseFormat(f);
  }

  // ---- rows ----

  predicate RowOk(row: Invoice) {
    && (row.externalId.Some? <==> row.status in {Created, Emailed})
    && (row.sentOn.Some? <==> row.status == Emailed)
    && (row.sentOn.Some? ==> row.sentOn.value.Key() >= row.due.FirstOfMonth().Key())
    && (row.action != NoAction <==> row.cancelledAt.Some? && row.externalId.Some?)
    && (row.action != NoAction ==> row.action == (if row.status == Created then Archive else Cancel))
    && (row.action == NoAction <==> row.cancelStatus == NotQueued)
  }

  /** What stays of a row: its amount and date, its id once known, its cancellation,
      and from then on everything the provider was told. */
  predicate RowLater(x: Invoice, y: Invoice) {
    && y.due == x.due && y.amount == x.amount
    && (x.externalId.Some? ==> y.externalId == x.externalId)
    && (x.sentOn.Some? ==> y.sentOn == x.sentOn)
    && (x.cancelledAt.Some? ==> y.cancelledAt.Some? && y.externalId == x.externalId && y.sentOn == x.sentOn && y.status == x.status)
  }

  predicate RowsLater(x: seq<Invoice>, y: seq<Invoice>) {
    |x| == |y| && forall i :: 0 <= i < |x| ==> RowLater(x[i], y[i])
  }

  predicate RowsOk(rows: seq<Invoice>) {
    forall i :: 0 <= i < |rows| ==> RowOk(rows[i])
  }

  predicate NoneOutstanding(rows: seq<Invoice>) {
    forall i :: 0 <= i < |rows| ==> !Outstanding(rows[i])
  }

  predicate SameTerms(rows: seq<Invoice>, wanted: seq<Invoice>) {
    |rows| == |wanted| && forall i :: 0 <= i < |rows| ==> rows[i].due == wanted[i].due && rows[i].amount == wanted[i].amount
  }

  // ---- records ----

  /** The rows, once there are any, are those the record's own fields schedule. */
  predicate RowsAsScheduled(plan: Plan, x: Record) {
    x.rows != [] ==>
      var wanted := Materialize(x.(rows := []), plan);
      wanted.Ok? && SameTerms(x.rows, wanted.value)
  }

  predicate CountOk(plan: Plan, x: Record) {
    x.count.Some? ==>
      && MonthOk(plan, x.month)
      && CalendarYearCount(plan, x.month).Ok? && CalendarYearCount(plan, x.month).value == x.count.value
  }

  predicate AmountsOk(x: Record) {
    x.discount == Discount(x.base, x.percent) && x.final == Natural(x)
  }

  predicate StatusOk(x: Record) {
    && (x.status == RecordStatus.Draft ==> x.sync == NotSynced && x.rows == [])
    && (x.sync == Synced ==> x.final == 0 || (x.rows != [] && NoneOutstanding(x.rows)))
  }

  predicate RecordOk(plans: map<int, Plan>, x: Record) {
    && x.plan in plans && plans[x.plan].season == x.season
    && AmountsOk(x) && StatusOk(x) && RowsOk(x.rows)
    && CountOk(plans[x.plan], x) && RowsAsScheduled(plans[x.plan], x)
  }

  predicate SameBilling(x: Record, y: Record) {
    && y.plan == x.plan && y.season == x.season && y.base == x.base && y.discount == x.discount && y.final == x.final
    && y.month == x.month && y.count == x.count && y.manual == x.manual && y.reason == x.reason
  }

  /** What stays of a record: always its owner, tier and mode; once confirmed, every
      amount; once it has rows, those rows. */
  predicate RecordLater(x: Record, y: Record) {
    && y.member == x.member && y.agreement == x.agreement
    && y.percent == x.percent && y.optOut == x.optOut && y.mode == x.mode
    && (x.status == Confirmed ==> y.status == Confirmed && SameBilling(x, y))
    && (x.sync == Synced ==> y.sync == Synced)
    && (x.rows != [] ==> RowsLater(x.rows, y.rows))
  }

  lemma RowsLaterTransitive(x: seq<Invoice>, y: seq<Invoice>, z: seq<Invoice>)
    requires RowsLater(x, y) && RowsLater(y, z)
    ensures RowsLater(x, z)
  {
    forall i | 0 <= i < |x| ensures RowLater(x[i], z[i]) {
      assert RowLater(x[i], y[i]) && RowLater(y[i], z[i]);
    }
  }

  lemma RecordLaterTransitive(x: Record, y: Record, z: Record)
    requires RecordLater(x, y) && RecordLater(y, z)
    ensures RecordLater(x, z)
  {
    if x.rows != [] {
      RowsLaterTransitive(x.rows, y.rows, z.rows);
    }
  }

  // ---- one record, one change at a time ----

  /** The base is what the plan, as it is now, charges for the saved count. */
  predicate BasedOn(plans: map<int, Plan>, x: Record) {
    x.plan in plans && x.base == BaseFor(plans[x.plan], x.count)
  }

  predicate BaseMoves(plans: map<int, Plan>, x: Record, y: Record) {
    (y.base == x.base && y.plan == x.plan && y.count == x.count) || BasedOn(plans, y)
  }

  predicate Grows(plans: map<int, Plan>, x: Record, y: Record) {
    RecordOk(plans, y) && RecordLater(x, y) && BaseMoves(plans, x, y)
  }

  lemma NewRecordOk(plans: map<int, Plan>, m: int, member: Member, p: int, agreement: Option<int>, month: string,
                    count: Option<int>, percent: Percent)
    requires p in plans
    requires count.Some? ==> MonthOk(plans[p], month) && CalendarYearCount(plans[p], month) == Ok(count.value)
    ensures RecordOk(plans, NewRecord(m, member, p, plans[p], agreement, month, count, percent))
    ensures BasedOn(plans, NewRecord(m, member, p, plans[p], agreement, month, count, percent))
  {
    hide MonthOk, CalendarYearCount, Materialize, Discount, BaseFor;
  }

  lemma RebasedGrows(plans: map<int, Plan>, x: Record, base: int)
    requires RecordOk(plans, x) && x.status == RecordStatus.Draft
    requires base == BaseFor(plans[x.plan], x.count)
    ensures Grows(plans, x, Rebased(x, base))
  {
    hide MonthOk, CalendarYearCount, Materialize, Discount, BaseFor;
  }

  lemma FormGrows(plans: map<int, Plan>, x: Record, manual: Option<int>, reason: string, status: RecordStatus)
    requires RecordOk(plans, x)
    requires x.status == Confirmed ==> status == Confirmed && manual == x.manual && reason == x.reason
    ensures Grows(plans, x, x.(manual := manual, reason := reason, status := status,
                               final := if manual.Some? then manual.value else x.base - x.discount))
  {
    hide MonthOk, CalendarYearCount, Materialize, Discount, BaseFor;
    var y := x.(manual := manual, reason := reason, status := status,
                final := if manual.Some? then manual.value else x.base - x.discount);
    if x.status == Confirmed {
      assert y == x;
      ReflexiveLater(x);
    }
  }

  lemma ReflexiveLater(x: Record)
    ensures RecordLater(x, x)
  {
  }

  lemma ConfirmGrows(plans: map<int, Plan>, x: Record)
    requires RecordOk(plans, x)
    ensures Grows(plans, x, x.(status := Confirmed))
  {
    hide MonthOk, CalendarYearCount, Materialize, Discount, BaseFor;
    ReflexiveLater(x);
    if x.status == Confirmed {
      assert x.(status := Confirmed) == x;
    }
  }

  lemma ReassignedGrows(plans: map<int, Plan>, x: Record, p: int, month: string, count: Option<int>)
    requires RecordOk(plans, x) && x.status == RecordStatus.Draft && p in plans
    requires count.Some? ==> MonthOk(plans[p], month) && CalendarYearCount(plans[p], month) == Ok(count.value)
    ensures Grows(plans, x, Reassigned(x, p, plans[p], month, count))
  {
    hide MonthOk, CalendarYearCount, Materialize, Discount, BaseFor;
  }

  /** The sync status of a confirmed record may move until it is synced. */
  lemma StampGrows(plans: map<int, Plan>, x: Record, sync: Sync, error: Option<ErrorCode>)
    requires RecordOk(plans, x) && x.status == Confirmed && x.sync != Synced
    requires sync == Synced ==> x.final == 0
    ensures Grows(plans, x, x.(sync := sync, error := error))
  {
    hide MonthOk, CalendarYearCount, Materialize, Discount, BaseFor;
    ReflexiveLater(x);
    ScheduleIgnoresStatus(plans[x.plan], x, x.(sync := sync, error := error));
  }

  /** Materializing reads the total, month, count and mode of a record. */
  lemma ScheduleIgnoresStatus(plan: Plan, x: Record, y: Record)
    requires y == x.(status := y.status, sync := y.sync, error := y.error, rows := y.rows)
    requires |x.rows| == |y.rows| && SameTerms(y.rows, x.rows)
    ensures RowsAsScheduled(plan, x) <==> RowsAsScheduled(plan, y)
  {
    hide InstallmentSchedule;
    assert Materialize(x.(rows := []), plan) == Materialize(y.(rows := []), plan);
  }

  /** Rows that only move on keep the record in order. */
  lemma RowsGrow(plans: map<int, Plan>, x: Record, rows: seq<Invoice>)
    requires RecordOk(plans, x) && RowsLater(x.rows, rows) && RowsOk(rows)
    ensures Grows(plans, x, x.(rows := rows))
  {
    hide MonthOk, CalendarYearCount, Materialize, Discount, BaseFor, RowOk;
    var y := x.(rows := rows);
    ScheduleIgnoresStatus(plans[x.plan], x, y);
    assert NoneOutstanding(x.rows) ==> NoneOutstanding(rows) by {
      assert forall i :: 0 <= i < |rows| ==> RowLater(x.rows[i], rows[i]);
    }
  }

  lemma RowGrows(plans: map<int, Plan>, x: Record, i: nat, row: Invoice)
    requires RecordOk(plans, x) && i < |x.rows| && RowLater(x.rows[i], row) && RowOk(row)
    ensures Grows(plans, x, x.(rows := x.rows[i := row]))
  {
    hide MonthOk, CalendarYearCount, Materialize, Discount, BaseFor, RowOk, RecordOk, Grows;
    RowsOf(plans, x);
    RowsGrow(plans, x, x.rows[i := row]);
  }

  lemma RowsOf(plans: map<int, Plan>, x: Record)
    requires RecordOk(plans, x)
    ensures RowsOk(x.rows)
  {
  }

  // ---- the table of records ----

  ghost predicate RecordsOk(plans: map<int, Plan>, records: map<int, Record>) {
    forall r :: r in records ==> RecordOk(plans, records[r])
  }

  ghost predicate RecordsLater(x: map<int, Record>, y: map<int, Record>) {
    forall r :: r in x ==> r in y && RecordLater(x[r], y[r])
  }

  ghost predicate BasesMove(plans: map<int, Plan>, x: map<int, Record>, y: map<int, Record>) {
    forall r :: r in y ==> if r in x then BaseMoves(plans, x[r], y[r]) else BasedOn(plans, y[r])
  }

  ghost predicate TableGrows(plans: map<int, Plan>, x: map<int, Record>, y: map<int, Record>) {
    RecordsOk(plans, y) && RecordsLater(x, y) && BasesMove(plans, x, y)
  }

  lemma SameTable(plans: map<int, Plan>, x: map<int, Record>)
    requires RecordsOk(plans, x)
    ensures TableGrows(plans, x, x)
  {
    hide RecordOk, BasedOn;
    forall r | r in x ensures RecordLater(x[r], x[r]) {
      ReflexiveLater(x[r]);
    }
  }

  lemma TableTransitive(plans: map<int, Plan>, x: map<int, Record>, y: map<int, Record>, z: map<int, Record>)
    requires TableGrows(plans, x, y) && TableGrows(plans, y, z)
    ensures TableGrows(plans, x, z)
  {
    hide RecordOk, RecordsLater, BaseFor;
    RecordsLaterTransitive(x, y, z);
    KeptKeys(x, y);
    forall r | r in z ensures if r in x then BaseMoves(plans, x[r], z[r]) else BasedOn(plans, z[r]) {
      assert r in y ==> BaseMoves(plans, y[r], z[r]);
      assert r in x ==> r in y && BaseMoves(plans, x[r], y[r]);
    }
  }

  lemma KeptKeys(x: map<int, Record>, y: map<int, Record>)
    requires RecordsLater(x, y)
    ensures forall r :: r in x ==> r in y
  {
  }

  lemma RecordsLaterTransitive(x: map<int, Record>, y: map<int, Record>, z: map<int, Record>)
    requires RecordsLater(x, y) && RecordsLater(y, z)
    ensures RecordsLater(x, z)
  {
    hide RecordLater;
    forall r | r in x ensures r in z && RecordLater(x[r], z[r]) {
      RecordLaterTransitive(x[r], y[r], z[r]);
    }
  }

  /** One record written or added. */
  lemma WriteGrows(plans: map<int, Plan>, x: map<int, Record>, r: int, y: Record)
    requires RecordsOk(plans, x) && RecordOk(plans, y)
    requires if r in x then RecordLater(x[r], y) && BaseMoves(plans, x[r], y) else BasedOn(plans, y)
    ensures TableGrows(plans, x, x[r := y])
  {
    hide RecordOk, RecordLater, BasedOn;
    SameTable(plans, x);
  }

  // ---- cancelling a selection ----

  lemma CancelRowOk(row: Invoice, now: int)
    requires RowOk(row)
    ensures RowOk(CancelRow(row, now)) && RowLater(row, CancelRow(row, now))
  {
  }

  lemma {:induction false} CancelAllGrows(plans: map<int, Plan>, records: map<int, Record>, m: int, ids: seq<InvoiceId>, now: int)
    requires RecordsOk(plans, records) && forall i :: 0 <= i < |ids| ==> Owned(records, m, ids[i])
    ensures TableGrows(plans, records, CancelAll(records, m, ids, now))
  {
    hide RecordOk, RecordLater, CancelRow, RowOk, RowLater, Grows;
    if ids == [] {
      SameTable(plans, records);
    } else {
      var init, id := ids[..|ids| - 1], ids[|ids| - 1];
      CancelAllGrows(plans, records, m, init, now);
      var mid := CancelAll(records, m, init, now);
      assert Owned(mid, m, id);
      CancelOneGrows(plans, mid, id, now);
      TableTransitive(plans, records, mid, CancelOne(mid, id, now));
    }
  }

  lemma CancelOneGrows(plans: map<int, Plan>, records: map<int, Record>, id: InvoiceId, now: int)
    requires RecordsOk(plans, records) && id.record in records && id.index < |records[id.record].rows|
    ensures TableGrows(plans, records, CancelOne(records, id, now))
  {
    hide RecordOk, RecordLater, CancelRow, RowOk, RowLater;
    var x := records[id.record];
    RowsOf(plans, x);
    CancelRowOk(x.rows[id.index], now);
    RowGrows(plans, x, id.index, CancelRow(x.rows[id.index], now));
    WriteGrows(plans, records, id.record, x.(rows := x.rows[id.index := CancelRow(x.rows[id.index], now)]));
  }

  /** A success cancels exactly the selection and changes nothing else. */
  ghost predicate CancelsExactly(before: map<int, Record>, after: map<int, Record>, ids: seq<InvoiceId>, now: int) {
    && (forall r :: r in before <==> r in after)
    && (forall r :: r in before ==> |after[r].rows| == |before[r].rows| && after[r] == before[r].(rows := after[r].rows))
    && (forall id: InvoiceId :: id.record in before && id.index < |before[id.record].rows| ==>
          RowOf(after, id) == if id in ids then CancelRow(RowOf(before, id), now) else RowOf(before, id))
  }

  lemma {:induction false} CancelAllExact(records: map<int, Record>, m: int, ids: seq<InvoiceId>, now: int)
    requires forall i :: 0 <= i < |ids| ==> Owned(records, m, ids[i])
    ensures CancelsExactly(records, CancelAll(records, m, ids, now), ids, now)
  {
    hide CancelRow, CancelsExactly;
    if ids == [] {
      NothingCancelled(records, now);
    } else {
      var init, last := ids[..|ids| - 1], ids[|ids| - 1];
      CancelAllExact(records, m, init, now);
      var mid := CancelAll(records, m, init, now);
      assert Owned(mid, m, last);
      assert Owned(records, m, last);
      OneMoreCancelled(records, mid, init, last, now);
      assert ids == init + [last];
    }
  }

  lemma NothingCancelled(records: map<int, Record>, now: int)
    ensures CancelsExactly(records, records, [], now)
  {
  }

  lemma OneMoreCancelled(records: map<int, Record>, mid: map<int, Record>, init: seq<InvoiceId>, last: InvoiceId, now: int)
    requires CancelsExactly(records, mid, init, now)
    requires last.record in records && last.index < |records[last.record].rows|
    ensures CancelsExactly(records, CancelOne(mid, last, now), init + [last], now)
  {
    hide CancelRow;
    var after := CancelOne(mid, last, now);
    forall id: InvoiceId | id.record in records && id.index < |records[id.record].rows|
      ensures RowOf(after, id) == if id in init + [last] then CancelRow(RowOf(records, id), now) else RowOf(records, id)
    {
      CancelTwice(RowOf(records, id), now);
    }
  }

  lemma CancelTwice(row: Invoice, now: int)
    ensures CancelRow(CancelRow(row, now), now) == CancelRow(row, now)
  {
  }

  predicate HasMoney(row: Invoice) {
    row.payment in {FullyPaid, PartlyPaid}
  }

  /** In a consistent table a selection is refused for exactly two reasons: it is
      not a set of the member's own rows, or a row of it has money on it. */
  lemma SelectionRefusedExactly(plans: map<int, Plan>, records: map<int, Record>, m: int, ids: seq<InvoiceId>, now: int)
    requires RecordsOk(plans, records)
    ensures var r := CancelSelection(records, m, ids, now);
            && (r == Err(Foreign) <==> !Selectable(records, m, ids))
            && (r == Err(Paid) <==> Selectable(records, m, ids) && exists i :: 0 <= i < |ids| && HasMoney(RowOf(records, ids[i])))
            && (r.Ok? <==> Selectable(records, m, ids) && forall i :: 0 <= i < |ids| ==> !HasMoney(RowOf(records, ids[i])))
            && (r.Ok? ==> CancelsExactly(records, r.value, ids, now))
  {
    hide RecordOk, CancelsExactly, HasMoney, CancelAll;
    if Selectable(records, m, ids) {
      FirstRefusalExactly(plans, records, m, ids);
      CancelAllExact(records, m, ids, now);
    }
  }

  lemma {:induction false} FirstRefusalExactly(plans: map<int, Plan>, records: map<int, Record>, m: int, ids: seq<InvoiceId>)
    requires RecordsOk(plans, records) && forall i :: 0 <= i < |ids| ==> Owned(records, m, ids[i])
    ensures var e := FirstRefusal(records, m, ids);
            && (e == Some(Paid) <==> exists i :: 0 <= i < |ids| && HasMoney(RowOf(records, ids[i])))
            && (e == None <==> forall i :: 0 <= i < |ids| ==> !HasMoney(RowOf(records, ids[i])))
  {
    hide RecordOk;
    if ids != [] {
      assert Owned(records, m, ids[0]);
      RowsOf(plans, records[ids[0].record]);
      assert RowOk(RowOf(records, ids[0]));
      FirstRefusalExactly(plans, records, m, ids[1..]);
      assert forall i :: 0 < i < |ids| ==> ids[i] == ids[1..][i - 1];
    }
  }

  // ---- pushing ----

  lemma {:induction false} PushRowsGrow(w: Work, guardian: int, record: int, i: nat, failed: Option<ErrorCode>, fates: seq<RowFates>)
    requires i <= |w.rows| && RowsOk(w.rows)
    requires failed.None? ==> NoneOutstanding(w.rows[..i])
    ensures var (done, end) := PushRows(w, guardian, record, i, failed, fates);
            && RowsOk(done.rows) && RowsLater(w.rows, done.rows)
            && (end == Finished(None) ==> NoneOutstanding(done.rows))
    decreases |w.rows| - i
  {
    hide CreateWithRecovery;
    if i < |w.rows| {
      if !Outstanding(w.rows[i]) {
        PushRowsGrow(w, guardian, record, i + 1, failed, fates);
      } else {
        var (desk, reply) := CreateWithRecovery(w.desk, guardian, record, i + 1, w.rows[i].amount, FatesAt(fates, i));
        match reply
        case Dead =>
        case StaleClient =>
        case Got(id) =>
          var next := Work(w.rows[i := RowPushed(w.rows[i], id)], desk);
          PushRowsGrow(next, guardian, record, i + 1, failed, fates);
          RowsLaterTransitive(w.rows, next.rows, PushRows(next, guardian, record, i + 1, failed, fates).0.rows);
        case Failed(code) =>
          var next := Work(w.rows[i := RowFailed(w.rows[i], code)], desk);
          if !Retried(code) {
            var first := if failed.Some? then failed else Some(code);
            PushRowsGrow(next, guardian, record, i + 1, first, fates);
            RowsLaterTransitive(w.rows, next.rows, PushRows(next, guardian, record, i + 1, first, fates).0.rows);
          }
      }
    } else {
      assert w.rows[..i] == w.rows;
    }
  }

  lemma MaterializedOk(x: Record, plan: Plan)
    requires Materialize(x, plan).Ok? && x.final != 0 && RowsOk(x.rows)
    ensures Materialize(x, plan).value != [] && RowsOk(Materialize(x, plan).value)
  {
    hide ParseMonth, SeasonYear, SkipMonths, BillingMonths, Amounts, Anchor, Dated;
  }

  lemma PushedGrows(plans: map<int, Plan>, x: Record, w: Work, guardian: int, r: int, fates: seq<RowFates>,
                    sync: Sync, error: Option<ErrorCode>)
    requires RecordOk(plans, x) && x.status == Confirmed && x.final != 0 && x.sync != Synced
    requires Materialize(x, plans[x.plan]) == Ok(w.rows)
    requires sync == Synced ==> PushRows(w, guardian, r, 0, None, fates).1 == Finished(None)
    ensures Grows(plans, x, x.(rows := PushRows(w, guardian, r, 0, None, fates).0.rows, sync := sync, error := error))
  {
    hide MonthOk, CalendarYearCount, Discount, BaseFor, RowOk, PushRows, RowLater, Outstanding, InstallmentSchedule;
    var plan := plans[x.plan];
    MaterializedOk(x, plan);
    PushRowsGrow(w, guardian, r, 0, None, fates);
    var (done, end) := PushRows(w, guardian, r, 0, None, fates);
    SameTermsOfLater(w.rows, done.rows);
    var y := x.(rows := done.rows, sync := sync, error := error);
    assert Materialize(y.(rows := []), plan) == Materialize(x.(rows := []), plan);
  }

  lemma SameTermsOfLater(x: seq<Invoice>, y: seq<Invoice>)
    requires RowsLater(x, y)
    ensures SameTerms(y, x)
  {
  }
}
