/** What a push leaves on its record, for every way its calls can go: the calls it needs
    decide the outcome, and no outcome of a record that can be scheduled is final. */
module Pushes {
  import opened Wrappers
  import opened Domain
  import opened RecordLife
  import opened RemoteLife
  import opened AgreementLife
  import opened RecordRuns
  import opened Links
  import opened Runs
  import opened RemoteRuns
  import opened ProviderPromises
  import B = BillingSteps
  import I = InvoiceSteps
  import opened Machine

  // ---- the calls a push needs ----

  /** The first of some calls that does not answer; the job does not get past it. */
  function Trouble(calls: seq<I.Fate>): Option<I.Fate> {
    if calls == [] then None
    else if calls[0] != I.Answers then Some(calls[0])
    else Trouble(calls[1..])
  }

  /** What the club records of a call that failed; a lost reply reads as unavailable. */
  function CodeOf(fate: I.Fate): ErrorCode
    requires fate.Refused? || fate.ReplyLost?
  {
    if fate.Refused? then fate.code else Unavailable
  }

  /** A failure that is worth another attempt ends the whole job. */
  predicate Transient(fate: I.Fate) {
    fate == I.ReplyLost || fate == I.Refused(Unavailable)
  }

  predicate HasActiveClient(remote: Remote, guardian: int) {
    exists c :: 0 <= c < |remote.clients| && remote.clients[c] == RemoteClient(guardian, true)
  }

  /** The calls one row needs: the creation, a lookup when the number exists, and with an
      archived client a fresh one and the creation again. */
  function RowNeeds(desk: I.Desk, guardian: int, r: int, n: int, f: I.RowFates): seq<I.Fate> {
    if I.NumberTaken(desk.remote, r, n) then [f.post, f.lookup]
    else if desk.client.None? || I.ActiveClient(desk.remote, desk.client.value) then [f.post]
    else if HasActiveClient(desk.remote, guardian) then [f.post, f.find, f.repost]
    else [f.post, f.find, f.create, f.repost]
  }

  /** A job goes on after permanent failures only. */
  predicate OnlyLastEnds(troubles: seq<I.Fate>) {
    && (forall k :: 0 <= k < |troubles| ==> troubles[k] != I.Answers)
    && (forall k :: 0 <= k < |troubles| - 1 ==> !troubles[k].Dies? && !Transient(troubles[k]))
  }

  /** Every failed call of the loop over the rows, in order. */
  function RowTroubles(w: I.Work, guardian: int, r: int, i: nat, fates: seq<I.RowFates>): (troubles: seq<I.Fate>)
    requires i <= |w.rows|
    ensures OnlyLastEnds(troubles)
    decreases |w.rows| - i
  {
    if i == |w.rows| then []
    else if w.rows[i].cancelledAt.Some? || w.rows[i].externalId.Some? then RowTroubles(w, guardian, r, i + 1, fates)
    else
      var f := I.FatesAt(fates, i);
      var next := I.PushOne(w, guardian, r, i, f).0;
      match Trouble(RowNeeds(w.desk, guardian, r, i + 1, f))
      case None => RowTroubles(next, guardian, r, i + 1, fates)
      case Some(t) =>
        TroubleFails(RowNeeds(w.desk, guardian, r, i + 1, f));
        if t.Dies? || Transient(t) then [t] else [t] + RowTroubles(next, guardian, r, i + 1, fates)
  }

  lemma TroubleFails(calls: seq<I.Fate>)
    ensures Trouble(calls).Some? ==> Trouble(calls).value != I.Answers
  {
  }

  /** The calls before the rows: the product, and the client if none is stored. */
  function FirstNeeds(s: State, guardian: int, f: I.PushFates): seq<I.Fate> {
    if guardian in s.clientIds then [f.product]
    else if HasActiveClient(s.remote, guardian) then [f.product, f.find]
    else [f.product, f.find, f.create]
  }

  /** The rows a push goes through: the existing ones, or the scheduled ones. */
  predicate Pushable(s: State, r: int) {
    && r in s.records && s.records[r].member in s.members && s.records[r].plan in s.plans
    && s.records[r].status == Confirmed && s.records[r].sync != Synced && s.records[r].final != 0
    && (s.records[r].rows != [] ||
        Schedule.InstallmentSchedule(s.plans[s.records[r].plan], s.records[r].final, s.records[r].month, s.records[r].count).Ok?)
  }

  lemma PushableRows(s: State, r: int)
    requires Pushable(s, r)
    ensures B.Materialize(s.records[r], s.plans[s.records[r].plan]).Ok?
  {
    hide Schedule.InstallmentSchedule;
  }

  /** Every failed call of a push, in order. */
  function PushTroubles(s: State, r: int, f: I.PushFates): (troubles: seq<I.Fate>)
    requires Pushable(s, r)
    ensures OnlyLastEnds(troubles)
  {
    PushableRows(s, r);
    var guardian := s.members[s.records[r].member].guardian;
    match Trouble(FirstNeeds(s, guardian, f))
    case Some(t) => TroubleFails(FirstNeeds(s, guardian, f)); [t]
    case None =>
      var rows := B.Materialize(s.records[r], s.plans[s.records[r].plan]).value;
      var desk := I.EnsureClient(I.DeskOf(s, guardian), guardian, f.find, f.create).0;
      RowTroubles(I.Work(rows, desk), guardian, r, 0, f.rows)
  }

  // ---- one row ----

  /** How a job sees its calls: it dies or fails with the first trouble. */
  predicate Replies<T>(trouble: Option<I.Fate>, reply: I.Reply<T>) {
    match trouble
    case None => reply.Got?
    case Some(Dies(_)) => reply.Dead?
    case Some(t) => (t.Refused? || t.ReplyLost?) && reply == I.Failed(CodeOf(t))
  }

  lemma ClientReplies(desk: I.Desk, guardian: int, find: I.Fate, create: I.Fate)
    requires desk.client.None?
    ensures var (next, reply) := I.EnsureClient(desk, guardian, find, create);
            && Replies(Trouble(if HasActiveClient(desk.remote, guardian) then [find] else [find, create]), reply)
            && (reply.Got? ==> next.client == Some(reply.value) && I.ActiveClient(next.remote, reply.value))
            && next.remote.invoices == desk.remote.invoices
  {
    Two(find, create);
  }

  lemma Two(a: I.Fate, b: I.Fate)
    ensures Trouble([a]) == if a != I.Answers then Some(a) else None
    ensures Trouble([a, b]) == if a != I.Answers then Some(a) else Trouble([b])
  {
    assert [a][1..] == [] && [a, b][1..] == [b];
  }

  lemma After1(a: I.Fate, rest: seq<I.Fate>)
    ensures Trouble([a] + rest) == if a != I.Answers then Some(a) else Trouble(rest)
  {
    assert ([a] + rest)[1..] == rest;
  }

  /** Without a renewal the creation needs its own call, and a lookup on a taken number. */
  lemma PlainReply(records: map<int, Record>, remote: Remote, r: int, n: int, amount: int, client: Option<nat>, post: I.Fate, lookup: I.Fate)
    requires RemoteOk(records, remote.invoices) && Billed(records, r, n, amount)
    ensures var reply := I.CreateInvoice(remote, r, n, amount, client, post, lookup).1;
            if I.NumberTaken(remote, r, n) then Replies(Trouble([post, lookup]), reply)
            else if client.Some? && I.ActiveClient(remote, client.value) then Replies(Trouble([post]), reply)
            else if post != I.Answers then Replies(Trouble([post]), reply)
            else reply == if client.None? then I.Failed(Misconfigured) else I.StaleClient
  {
    hide RemoteOk;
    Two(post, lookup);
    if I.NumberTaken(remote, r, n) {
      var k :| 0 <= k < |remote.invoices| && I.Numbered(remote.invoices[k], r, n);
      OpenRowIsLive(records, remote.invoices, r, n, amount, k);
    }
  }

  /** One row: it is created if and only if all its calls answer, and otherwise the first
      that does not decides. Without a client nothing can be created. */
  lemma RowReply(records: map<int, Record>, desk: I.Desk, guardian: int, r: int, n: int, amount: int, f: I.RowFates)
    requires RemoteOk(records, desk.remote.invoices) && Billed(records, r, n, amount)
    ensures var (next, reply) := I.CreateWithRecovery(desk, guardian, r, n, amount, f);
            var trouble := Trouble(RowNeeds(desk, guardian, r, n, f));
            && (if trouble.None? && desk.client.None? && !I.NumberTaken(desk.remote, r, n) then reply == I.Failed(Misconfigured)
                else Replies(trouble, reply))
            && (next.client.None? ==> desk.client.None? || !reply.Got?)
  {
    hide RemoteOk, I.CreateInvoice, I.EnsureClient, I.NumberTaken, I.ActiveClient, Billed, Trouble, HasActiveClient;
    PlainReply(records, desk.remote, r, n, amount, desk.client, f.post, f.lookup);
    SameInvoicesIfStale(desk.remote, r, n, amount, desk.client, f.post, f.lookup);
    var (remote, reply) := I.CreateInvoice(desk.remote, r, n, amount, desk.client, f.post, f.lookup);
    Two(f.post, f.lookup);
    RenewalCalls(f);
    if reply == I.StaleClient {
      var cleared := I.Desk(None, desk.remote);
      ClientReplies(cleared, guardian, f.find, f.create);
      var renewed := I.EnsureClient(cleared, guardian, f.find, f.create).0;
      SameNumbers(desk.remote, renewed.remote, r, n);
      PlainReply(records, renewed.remote, r, n, amount, renewed.client, f.repost, f.relookup);
    }
  }

  lemma SameNumbers(x: Remote, y: Remote, r: int, n: int)
    requires x.invoices == y.invoices
    ensures I.NumberTaken(x, r, n) == I.NumberTaken(y, r, n)
  {
  }

  lemma SameInvoicesIfStale(remote: Remote, r: int, n: int, amount: int, client: Option<nat>, post: I.Fate, lookup: I.Fate)
    ensures var (next, reply) := I.CreateInvoice(remote, r, n, amount, client, post, lookup);
            reply == I.StaleClient ==>
              && next == remote && post == I.Answers && client.Some?
              && !I.NumberTaken(remote, r, n) && !I.ActiveClient(remote, client.value)
  {
    hide I.FindInvoice, I.NumberTaken;
  }

  lemma RenewalCalls(f: I.RowFates)
    ensures Trouble([f.post, f.find, f.repost]) ==
              if f.post != I.Answers then Some(f.post) else if f.find != I.Answers then Some(f.find) else Trouble([f.repost])
    ensures Trouble([f.post, f.find, f.create, f.repost]) ==
              if f.post != I.Answers then Some(f.post) else if Trouble([f.find, f.create]).Some? then Trouble([f.find, f.create]) else Trouble([f.repost])
    ensures Trouble([f.find]) == if f.find != I.Answers then Some(f.find) else None
  {
    hide Trouble;
    Two(f.find, f.create);
    Two(f.create, f.repost);
    Two(f.find, f.repost);
    After1(f.post, [f.find, f.repost]);
    After1(f.post, [f.find, f.create, f.repost]);
    After1(f.find, [f.create, f.repost]);
    assert [f.post] + [f.find, f.repost] == [f.post, f.find, f.repost];
    assert [f.post] + [f.find, f.create, f.repost] == [f.post, f.find, f.create, f.repost];
    assert [f.find] + [f.create, f.repost] == [f.find, f.create, f.repost];
  }

  // ---- the loop ----

  /** How the troubles of the loop end it: death and a transient failure stop it at once,
      a permanent one is remembered, the first of them only. */
  function EndOf(troubles: seq<I.Fate>, failed: Option<ErrorCode>): I.PushEnd
    requires OnlyLastEnds(troubles)
  {
    if troubles == [] then I.Finished(failed)
    else
      var last := troubles[|troubles| - 1];
      if last.Dies? then I.Killed
      else if Transient(last) then I.Raised(Unavailable)
      else if failed.Some? then I.Finished(failed)
      else I.Finished(Some(CodeOf(troubles[0])))
  }

  lemma EndAfter(t: I.Fate, rest: seq<I.Fate>, failed: Option<ErrorCode>)
    requires t.Refused? && t.code != Unavailable && OnlyLastEnds(rest)
    ensures OnlyLastEnds([t] + rest)
    ensures EndOf([t] + rest, failed) == EndOf(rest, if failed.Some? then failed else Some(t.code))
  {
    var all := [t] + rest;
    assert all[0] == t && (rest != [] ==> all[|all| - 1] == rest[|rest| - 1]);
  }

  lemma {:induction false} LoopEnds(records: map<int, Record>, w: I.Work, guardian: int, r: int, i: nat,
                                    failed: Option<ErrorCode>, fates: seq<I.RowFates>)
    requires r in records && i <= |w.rows| && RowsOk(w.rows)
    requires RemoteOk(WithRows(records, r, w.rows), w.desk.remote.invoices)
    requires OneActiveClient(w.desk.remote.clients) && DeskOk(w.desk, guardian)
    requires w.desk.client.None? ==> failed.Some?
    ensures I.PushRows(w, guardian, r, i, failed, fates).1 == EndOf(RowTroubles(w, guardian, r, i, fates), failed)
    decreases |w.rows| - i
  {
    hide RemoteOk, OneActiveClient, I.CreateWithRecovery, InvoicesLater, RowOk, DeskOk, RowNeeds, EndOf;
    if i == |w.rows| {
      NoTroubles(failed);
    } else if !I.Outstanding(w.rows[i]) {
      LoopEnds(records, w, guardian, r, i + 1, failed, fates);
    } else {
      var amount, f := w.rows[i].amount, I.FatesAt(fates, i);
      var now := WithRows(records, r, w.rows);
      RowReply(now, w.desk, guardian, r, i + 1, amount, f);
      CreateWithRecoveryOk(now, w.desk, guardian, r, i + 1, amount, f);
      var (desk, reply) := I.CreateWithRecovery(w.desk, guardian, r, i + 1, amount, f);
      match reply
      case Dead => OneTrouble(Trouble(RowNeeds(w.desk, guardian, r, i + 1, f)), failed);
      case StaleClient =>
      case Got(id) =>
        NotQueuedYet(w.rows[i]);
        RowPushedOk(records, desk.remote.invoices, r, w.rows, i, id);
        NextRowsOk(w.rows, i, id);
        LoopEnds(records, I.Work(w.rows[i := I.RowPushed(w.rows[i], id)], desk), guardian, r, i + 1, failed, fates);
      case Failed(code) =>
        RowFailedOk(records, desk.remote.invoices, r, w.rows, i, code);
        FailedRowsOk(w.rows, i, code);
        var next := I.Work(w.rows[i := I.RowFailed(w.rows[i], code)], desk);
        var first := if failed.Some? then failed else Some(code);
        if !I.Retried(code) {
          LoopEnds(records, next, guardian, r, i + 1, first, fates);
        }
        match Trouble(RowNeeds(w.desk, guardian, r, i + 1, f))
        case None =>
        case Some(t) =>
          if Transient(t) {
            OneTrouble(Some(t), failed);
          } else {
            EndAfter(t, RowTroubles(next, guardian, r, i + 1, fates), failed);
          }
    }
  }

  lemma NoTroubles(failed: Option<ErrorCode>)
    ensures EndOf([], failed) == I.Finished(failed)
  {
  }

  lemma OneTrouble(trouble: Option<I.Fate>, failed: Option<ErrorCode>)
    requires trouble.Some? && (trouble.value.Dies? || Transient(trouble.value))
    ensures EndOf([trouble.value], failed) == if trouble.value.Dies? then I.Killed else I.Raised(Unavailable)
  {
  }

  // ---- the whole push ----

  lemma FirstReplies(s: State, guardian: int, f: I.PushFates)
    ensures var calls := FirstNeeds(s, guardian, f);
            var (desk, client) := I.EnsureClient(I.DeskOf(s, guardian), guardian, f.find, f.create);
            && (f.product != I.Answers ==> Trouble(calls) == Some(f.product))
            && (f.product == I.Answers ==> Replies(Trouble(calls), client))
            && (client.Got? ==> desk.client.Some?)
  {
    hide Trouble, HasActiveClient, I.EnsureClient;
    var desk := I.DeskOf(s, guardian);
    After1(f.product, []);
    After1(f.product, [f.find]);
    After1(f.product, [f.find, f.create]);
    NoTrouble();
    assert [f.product] + [] == [f.product] && [f.product] + [f.find] == [f.product, f.find];
    assert [f.product] + [f.find, f.create] == [f.product, f.find, f.create];
    SameClients(desk.remote, s.remote, guardian);
    if guardian in s.clientIds {
      StoredClient(desk, guardian, f.find, f.create);
    } else {
      ClientReplies(desk, guardian, f.find, f.create);
    }
  }

  lemma NoTrouble()
    ensures Trouble([]) == None
  {
  }

  lemma SameClients(x: Remote, y: Remote, guardian: int)
    requires x == y
    ensures HasActiveClient(x, guardian) == HasActiveClient(y, guardian)
  {
  }

  lemma StoredClient(desk: I.Desk, guardian: int, find: I.Fate, create: I.Fate)
    requires desk.client.Some?
    ensures I.EnsureClient(desk, guardian, find, create) == (desk, I.Got(desk.client.value))
  {
  }

  /** For every way the calls can go: the record ends synced exactly when every call it
      needed answered, pending exactly when the worker died, and failed otherwise, with
      the code of the transient failure that ended the job or else of the first one. */
  lemma PushOutcomeExactly(s: State, r: int, f: I.PushFates)
    requires Inv(s) && RemoteInv(s) && Pushable(s, r)
    ensures r in I.Push(s, r, f).records
    ensures var troubles, t := PushTroubles(s, r, f), I.Push(s, r, f).records[r];
            && (t.sync == Synced <==> troubles == [])
            && (t.sync == PendingSync <==> troubles != [] && troubles[|troubles| - 1].Dies?)
            && (t.sync == FailedSync <==> troubles != [] && !troubles[|troubles| - 1].Dies?)
            && t.error == (if t.sync != FailedSync then None
                           else if Transient(troubles[|troubles| - 1]) then Some(Unavailable)
                           else Some(CodeOf(troubles[0])))
  {
    hide RecordsOk, OneRecordEach, AllLinked, AgreementsOk, AgreementsHaveMembers, AwaitingOk, StoredClientsOk, RemoteOk, OneActiveClient;
    hide I.PushRows, I.EnsureClient, I.DeskOf, B.Materialize, RowsOk, ClientOk, FirstNeeds, Trouble, RowTroubles, Schedule.InstallmentSchedule;
    var guardian := s.members[s.records[r].member].guardian;
    PushableRows(s, r);
    FirstReplies(s, guardian, f);
    DeskOfOk(s, guardian);
    DeskIs(s, guardian);
    EnsureClientOk(I.DeskOf(s, guardian), guardian, f.find, f.create);
    var (desk, client) := I.EnsureClient(I.DeskOf(s, guardian), guardian, f.find, f.create);
    if Trouble(FirstNeeds(s, guardian, f)).None? {
      MaterializeKeepsRemote(s, r);
      var rows := B.Materialize(s.records[r], s.plans[s.records[r].plan]).value;
      LoopEnds(s.records, I.Work(rows, desk), guardian, r, 0, None, f.rows);
    }
  }

  // ---- what the rows show ----

  /** A row a push leaves alone, creates, or marks with the failure of its creation. */
  predicate Tried(x: Invoice, y: Invoice) {
    || y == x
    || (x.externalId.None? && x.cancelledAt.None? && y.externalId.Some? && y == x.(externalId := y.externalId, status := Created, error := None))
    || (x.externalId.None? && x.cancelledAt.None? && y.error.Some? && y == x.(status := PushFailed, error := y.error))
  }

  predicate ShowsFailure(row: Invoice, code: ErrorCode) {
    row.externalId.None? && row.cancelledAt.None? && row.status == PushFailed && row.error == Some(code)
  }

  /** The failure of the loop is the one a row shows: a transient one the last row it
      tried, a permanent one the first row left without an id. */
  ghost predicate EndShown(x: seq<Invoice>, y: seq<Invoice>, i: nat, end: I.PushEnd, failed: Option<ErrorCode>) {
    && |y| == |x| && (forall j :: 0 <= j < |x| ==> Tried(x[j], y[j])) && (forall j :: 0 <= j < |x| && j < i ==> y[j] == x[j])
    && (end.Raised? ==> exists j :: i <= j < |x| && ShowsFailure(y[j], end.code) && forall k :: j < k < |x| ==> y[k] == x[k])
    && (end.Finished? && failed.Some? ==> end.failed == failed)
    && (end.Finished? && failed.None? && end.failed.Some? ==>
          exists j :: i <= j < |x| && ShowsFailure(y[j], end.failed.value) && forall k :: i <= k < j ==> !I.Outstanding(y[k]))
    && (end.Finished? && end.failed.None? ==> forall k :: i <= k < |x| ==> !I.Outstanding(y[k]))
  }

  lemma {:induction false} LoopShows(w: I.Work, guardian: int, r: int, i: nat, failed: Option<ErrorCode>, fates: seq<I.RowFates>)
    requires i <= |w.rows|
    ensures var (done, end) := I.PushRows(w, guardian, r, i, failed, fates);
            EndShown(w.rows, done.rows, i, end, failed)
    decreases |w.rows| - i
  {
    hide I.CreateWithRecovery, EndShown;
    var (done, end) := I.PushRows(w, guardian, r, i, failed, fates);
    if i == |w.rows| {
      NothingTried(w.rows, i, failed);
    } else if !I.Outstanding(w.rows[i]) {
      LoopShows(w, guardian, r, i + 1, failed, fates);
      ShownEarlier(w.rows, w.rows, done.rows, i, end, failed, failed);
    } else {
      var (next, reply) := I.PushOne(w, guardian, r, i, I.FatesAt(fates, i));
      match reply
      case Dead => ShownStop(w.rows, next.rows, i, end, failed);
      case StaleClient => ShownStop(w.rows, next.rows, i, end, failed);
      case Got(id) =>
        LoopShows(next, guardian, r, i + 1, failed, fates);
        ShownEarlier(w.rows, next.rows, done.rows, i, end, failed, failed);
      case Failed(code) =>
        var first := if failed.Some? then failed else Some(code);
        if I.Retried(code) {
          ShownStop(w.rows, next.rows, i, end, failed);
        } else {
          LoopShows(next, guardian, r, i + 1, first, fates);
          ShownEarlier(w.rows, next.rows, done.rows, i, end, failed, first);
        }
    }
  }

  lemma NothingTried(rows: seq<Invoice>, i: nat, failed: Option<ErrorCode>)
    requires i == |rows|
    ensures EndShown(rows, rows, i, I.Finished(failed), failed)
  {
  }

  lemma ShownStop(x: seq<Invoice>, y: seq<Invoice>, i: nat, end: I.PushEnd, failed: Option<ErrorCode>)
    requires i < |x| == |y| && y == x[i := y[i]] && Tried(x[i], y[i]) && !end.Finished?
    requires end.Raised? ==> ShowsFailure(y[i], end.code)
    ensures EndShown(x, y, i, end, failed)
  {
  }

  /** What holds from the next row on holds from this one on. */
  lemma ShownEarlier(x: seq<Invoice>, y: seq<Invoice>, z: seq<Invoice>, i: nat, end: I.PushEnd, failed: Option<ErrorCode>, first: Option<ErrorCode>)
    requires i < |x| == |y| && y == x[i := y[i]] && Tried(x[i], y[i]) && EndShown(y, z, i + 1, end, first)
    requires first == failed || (failed.None? && first.Some? && ShowsFailure(y[i], first.value))
    requires first == failed && failed.None? ==> !I.Outstanding(y[i])
    ensures EndShown(x, z, i, end, failed)
  {
    assert z[i] == y[i];
    forall j | 0 <= j < |x| ensures Tried(x[j], z[j]) {
      assert Tried(y[j], z[j]);
    }
    if end.Raised? {
      var j :| i + 1 <= j < |y| && ShowsFailure(z[j], end.code) && forall k :: j < k < |y| ==> z[k] == y[k];
      assert ShowsFailure(z[j], end.code);
    }
    if end.Finished? && failed.None? && end.failed.Some? {
      if first.Some? {
        assert ShowsFailure(z[i], end.failed.value);
      } else {
        var j :| i + 1 <= j < |y| && ShowsFailure(z[j], end.failed.value) && forall k :: i + 1 <= k < j ==> !I.Outstanding(z[k]);
        assert ShowsFailure(z[j], end.failed.value);
      }
    }
  }

  lemma EndMeans(x: seq<Invoice>, y: seq<Invoice>, end: I.PushEnd)
    requires EndShown(x, y, 0, end, None)
    ensures var (sync, error) := I.RollUp(end);
            && (sync == FailedSync ==> error.Some? && exists j :: 0 <= j < |x| && ShowsFailure(y[j], error.value))
            && (sync == Synced ==> forall j :: 0 <= j < |x| ==> !I.Outstanding(y[j]))
  {
    hide ShowsFailure, Tried;
  }

  /** A failed push whose product and client calls answered shows its code on a row
      that was not created, and only tries rows that are open. */
  lemma FailuresAreShown(s: State, r: int, f: I.PushFates)
    requires Inv(s) && RemoteInv(s) && Pushable(s, r)
    requires Trouble(FirstNeeds(s, s.members[s.records[r].member].guardian, f)).None?
    ensures r in I.Push(s, r, f).records
    ensures var rows, t := B.Materialize(s.records[r], s.plans[s.records[r].plan]).value, I.Push(s, r, f).records[r];
            && |t.rows| == |rows| && (forall j :: 0 <= j < |rows| ==> Tried(rows[j], t.rows[j]))
            && (t.sync == FailedSync ==> t.error.Some? && exists j :: 0 <= j < |rows| && ShowsFailure(t.rows[j], t.error.value))
            && (t.sync == Synced ==> forall j :: 0 <= j < |rows| ==> !I.Outstanding(t.rows[j]))
  {
    hide RecordsOk, OneRecordEach, AllLinked, AgreementsOk, AgreementsHaveMembers, AwaitingOk, RemoteInv;
    hide I.PushRows, I.EnsureClient, I.DeskOf, B.Materialize, FirstNeeds, Trouble, Schedule.InstallmentSchedule, Tried, ShowsFailure;
    var guardian := s.members[s.records[r].member].guardian;
    PushableRows(s, r);
    FirstReplies(s, guardian, f);
    var desk := I.EnsureClient(I.DeskOf(s, guardian), guardian, f.find, f.create).0;
    var rows := B.Materialize(s.records[r], s.plans[s.records[r].plan]).value;
    LoopShows(I.Work(rows, desk), guardian, r, 0, None, f.rows);
    var (w, end) := I.PushRows(I.Work(rows, desk), guardian, r, 0, None, f.rows);
    EndMeans(rows, w.rows, end);
  }

  // ---- trying again ----

  lemma PushIsAStep(s: State, r: int, f: I.PushFates)
    ensures !Unlocks(s, OnInvoice(Push(r, f))) && After(s, OnInvoice(Push(r, f))) == I.Push(s, r, f)
    ensures !Unlocks(s, OnInvoice(Enqueue(r))) && After(s, OnInvoice(Enqueue(r))) == I.Enqueue(s, r)
  {
    hide I.Push, I.Enqueue;
  }

  lemma StaysPushable(s: State, r: int, f: I.PushFates)
    requires Inv(s) && Pushable(s, r)
    ensures r in I.Push(s, r, f).records
    ensures var t := I.Push(s, r, f);
            && t.records[r] == s.records[r].(rows := t.records[r].rows, sync := t.records[r].sync, error := t.records[r].error)
            && (t.records[r].sync != Synced ==> Pushable(t, r))
  {
    hide Inv, I.PushToProvider, Schedule.InstallmentSchedule;
    PushIsAStep(s, r, f);
    StepKeepsInv(s, OnInvoice(Push(r, f)));
    var t := I.Push(s, r, f);
    assert RecordLater(s.records[r], t.records[r]);
  }

  /** However a push ends, the next one the provider answers syncs the record: the job run
      again after the worker's death, or queued again after a failure. */
  lemma EveryOutcomeRecovers(s: State, r: int, f: I.PushFates)
    requires Inv(s) && RemoteInv(s) && Pushable(s, r)
    ensures var t := I.Push(s, r, f);
            && r in I.Push(t, r, HEALTHY_PUSH).records && I.Push(t, r, HEALTHY_PUSH).records[r].sync == Synced
            && r in t.records && (t.records[r].sync == FailedSync ==>
                  var queued := I.Enqueue(t, r);
                  && r in queued.records && queued.records[r].sync == PendingSync && queued.records[r].error == None
                  && r in I.Push(queued, r, HEALTHY_PUSH).records && I.Push(queued, r, HEALTHY_PUSH).records[r].sync == Synced)
  {
    hide Inv, RemoteInv, I.Push, Schedule.InstallmentSchedule, After, Unlocks;
    var t := I.Push(s, r, f);
    PushIsAStep(s, r, f);
    StepKeepsInv(s, OnInvoice(Push(r, f)));
    InvGives(s);
    StepKeepsRemote(s, OnInvoice(Push(r, f)));
    StaysPushable(s, r, f);
    HealthyPushSyncs(t, r);
    PushIsAStep(t, r, f);
    StepKeepsInv(t, OnInvoice(Enqueue(r)));
    InvGives(t);
    StepKeepsRemote(t, OnInvoice(Enqueue(r)));
    if t.records[r].sync == FailedSync {
      HealthyPushSyncs(I.Enqueue(t, r), r);
    }
  }
}
