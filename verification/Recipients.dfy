/** Whom an invoice bills: the client that the provider keeps for the family of the
    record's member. */
module Recipients {
  import opened Wrappers
  import opened Calendar
  import opened Domain
  import opened RecordLife
  import opened RemoteLife
  import opened Runs
  import opened RemoteRuns
  import opened Silence
  import A = AgreementSteps
  import B = BillingSteps
  import I = InvoiceSteps
  import opened Machine

  /** The invoice is made out to the client of the guardian of its record's member. */
  predicate ToItsFamily(s: State, x: RemoteInvoice) {
    && x.record in s.records && s.records[x.record].member in s.members
    && x.client < |s.remote.clients|
    && s.remote.clients[x.client].guardian == s.members[s.records[x.record].member].guardian
  }

  ghost predicate AllToFamilies(s: State) {
    forall k :: 0 <= k < |s.remote.invoices| ==> ToItsFamily(s, s.remote.invoices[k])
  }

  // ---- pushing ----

  /** Beyond the first `n` invoices there are only some of the record, made out to a
      client of this guardian. */
  ghost predicate MadeOutTo(remote: Remote, n: nat, r: int, guardian: int) {
    forall k :: n <= k < |remote.invoices| ==>
      remote.invoices[k].record == r && ClientOk(remote.clients, guardian, Some(remote.invoices[k].client))
  }

  lemma CreatedFor(remote: Remote, guardian: int, r: int, sequence: int, amount: int, client: Option<nat>, post: I.Fate, lookup: I.Fate)
    requires ClientOk(remote.clients, guardian, client)
    ensures var next := I.CreateInvoice(remote, r, sequence, amount, client, post, lookup).0;
            && remote.invoices <= next.invoices && next.clients == remote.clients
            && MadeOutTo(next, |remote.invoices|, r, guardian)
  {
    hide I.FindInvoice, I.NumberTaken;
  }

  lemma MadeOutTwice(x: Remote, y: Remote, z: Remote, r: int, guardian: int)
    requires x.invoices <= y.invoices <= z.invoices && y.clients <= z.clients
    requires MadeOutTo(y, |x.invoices|, r, guardian) && MadeOutTo(z, |y.invoices|, r, guardian)
    ensures MadeOutTo(z, |x.invoices|, r, guardian)
  {
    forall k | |x.invoices| <= k < |z.invoices|
      ensures z.invoices[k].record == r && ClientOk(z.clients, guardian, Some(z.invoices[k].client))
    {
      if k < |y.invoices| {
        assert z.invoices[k] == y.invoices[k];
        assert ClientOk(y.clients, guardian, Some(y.invoices[k].client));
      }
    }
  }

  /** One creation, also with a renewed client, bills this guardian. */
  lemma RecoveredFor(desk: I.Desk, guardian: int, r: int, sequence: int, amount: int, f: I.RowFates)
    requires OneActiveClient(desk.remote.clients) && DeskOk(desk, guardian)
    ensures var next := I.CreateWithRecovery(desk, guardian, r, sequence, amount, f).0;
            && OneActiveClient(next.remote.clients) && DeskOk(next, guardian)
            && desk.remote.invoices <= next.remote.invoices && desk.remote.clients <= next.remote.clients
            && MadeOutTo(next.remote, |desk.remote.invoices|, r, guardian)
  {
    hide OneActiveClient, I.CreateInvoice, I.EnsureClient, MadeOutTo;
    CreatedFor(desk.remote, guardian, r, sequence, amount, desk.client, f.post, f.lookup);
    var (remote, reply) := I.CreateInvoice(desk.remote, r, sequence, amount, desk.client, f.post, f.lookup);
    if reply == I.StaleClient {
      var cleared := I.Desk(None, remote);
      EnsureClientOk(cleared, guardian, f.find, f.create);
      var (renewed, client) := I.EnsureClient(cleared, guardian, f.find, f.create);
      NothingMadeOut(renewed.remote, r, guardian);
      MadeOutTwice(desk.remote, remote, renewed.remote, r, guardian);
      if client.Got? {
        CreatedFor(renewed.remote, guardian, r, sequence, amount, renewed.client, f.repost, f.relookup);
        MadeOutTwice(desk.remote, renewed.remote, I.CreateInvoice(renewed.remote, r, sequence, amount, renewed.client, f.repost, f.relookup).0, r, guardian);
      }
    }
  }

  lemma NothingMadeOut(remote: Remote, r: int, guardian: int)
    ensures MadeOutTo(remote, |remote.invoices|, r, guardian)
  {
  }

  /** The whole loop over the rows does. */
  lemma {:induction false} PushedFor(w: I.Work, guardian: int, r: int, i: nat, failed: Option<ErrorCode>, fates: seq<I.RowFates>)
    requires i <= |w.rows| && OneActiveClient(w.desk.remote.clients) && DeskOk(w.desk, guardian)
    ensures var done := I.PushRows(w, guardian, r, i, failed, fates).0;
            && w.desk.remote.invoices <= done.desk.remote.invoices && w.desk.remote.clients <= done.desk.remote.clients
            && MadeOutTo(done.desk.remote, |w.desk.remote.invoices|, r, guardian)
    decreases |w.rows| - i
  {
    hide I.CreateWithRecovery, I.PushRows, MadeOutTo, OneActiveClient, DeskOk;
    OneTurn(w, guardian, r, i, failed, fates);
    NothingMadeOut(w.desk.remote, r, guardian);
    if i < |w.rows| {
      if !I.Outstanding(w.rows[i]) {
        PushedFor(w, guardian, r, i + 1, failed, fates);
      } else {
        var (next, reply) := I.PushOne(w, guardian, r, i, I.FatesAt(fates, i));
        RecoveredFor(w.desk, guardian, r, i + 1, w.rows[i].amount, I.FatesAt(fates, i));
        if reply.Got? || (reply.Failed? && !I.Retried(reply.code)) {
          var first := if reply.Got? then failed else if failed.Some? then failed else Some(reply.code);
          PushedFor(next, guardian, r, i + 1, first, fates);
          MadeOutTwice(w.desk.remote, next.desk.remote, I.PushRows(next, guardian, r, i + 1, first, fates).0.desk.remote, r, guardian);
        }
      }
    }
  }

  /** What a step adds at the provider bills the families it is for. */
  ghost predicate AddedToFamilies(s: State, t: State) {
    forall k :: |s.remote.invoices| <= k < |t.remote.invoices| ==> ToItsFamily(t, t.remote.invoices[k])
  }

  lemma NoneAdded(s: State, t: State)
    requires |t.remote.invoices| == |s.remote.invoices|
    ensures AddedToFamilies(s, t)
  {
  }

  lemma MadeOutToFamily(s: State, t: State, r: int, guardian: int)
    requires MadeOutTo(t.remote, |s.remote.invoices|, r, guardian)
    requires r in t.records && t.records[r].member in t.members && t.members[t.records[r].member].guardian == guardian
    ensures AddedToFamilies(s, t)
  {
  }

  lemma ProviderBillsFamily(s: State, r: int, fates: I.PushFates)
    requires RemoteInv(s) && r in s.records && s.records[r].member in s.members && s.records[r].plan in s.plans
    ensures AddedToFamilies(s, I.PushToProvider(s, r, fates))
  {
    hide I.PushRows, I.EnsureClient, I.DeskOf, B.Materialize, MadeOutTo, AddedToFamilies, RemoteOk, OneActiveClient, StoredClientsOk, ClientOk;
    var guardian := s.members[s.records[r].member].guardian;
    var t := I.PushToProvider(s, r, fates);
    DeskOfOk(s, guardian);
    DeskIs(s, guardian);
    EnsureClientOk(I.DeskOf(s, guardian), guardian, fates.find, fates.create);
    var desk := I.EnsureClient(I.DeskOf(s, guardian), guardian, fates.find, fates.create).0;
    if |t.remote.invoices| == |s.remote.invoices| {
      NoneAdded(s, t);
    } else {
      var rows := B.Materialize(s.records[r], s.plans[s.records[r].plan]).value;
      PushedFor(I.Work(rows, desk), guardian, r, 0, None, fates.rows);
      MadeOutToFamily(s, t, r, guardian);
    }
  }

  lemma PushBillsFamily(s: State, r: int, fates: I.PushFates)
    requires RemoteInv(s)
    ensures AddedToFamilies(s, I.Push(s, r, fates))
  {
    hide I.PushToProvider, RemoteInv, AddedToFamilies;
    var t := I.Push(s, r, fates);
    if |t.remote.invoices| == |s.remote.invoices| {
      NoneAdded(s, t);
    } else {
      ProviderBillsFamily(s, r, fates);
    }
  }

  // ---- every step ----

  lemma OtherJobsAddNone(s: State, step: InvoiceStep)
    requires DoInvoice(s, step).Ok? && !step.Push?
    ensures |DoInvoice(s, step).value.remote.invoices| == |s.remote.invoices|
  {
    hide I.Enqueue, I.PushButton, I.SyncPayment, I.SendRow, I.DueToSend, I.WithRow;
    match step
    case Enqueue(_) => ButtonQuiet(s, step);
    case PushButton(_, _) => ButtonQuiet(s, step);
    case SyncPayment(id, payment) => PaymentQuiet(s, id, payment);
    case RunCancellation(id, fate) => CancellationAddsNone(s, id, fate);
    case SendDue(id, today, hasEmail, fate) => SendingAddsNone(s, id, today, hasEmail, fate);
    case ArchiveClient(_) =>
  }

  lemma CancellationAddsNone(s: State, id: A.InvoiceId, fate: I.Fate)
    ensures |I.RunCancellation(s, id, fate).remote.invoices| == |s.remote.invoices|
  {
    hide I.WithRow;
  }

  lemma SendingAddsNone(s: State, id: A.InvoiceId, today: Date, hasEmail: bool, fate: I.Fate)
    ensures |I.SendDue(s, id, today, hasEmail, fate).remote.invoices| == |s.remote.invoices|
  {
    hide I.SendRow;
  }

  lemma StepBillsFamilies(s: State, step: Step)
    requires RemoteInv(s)
    ensures AddedToFamilies(s, After(s, step))
  {
    hide RemoteInv, AddedToFamilies, DoAgreement, DoBilling, DoInvoice, I.Push;
    if Do(s, step).Ok? {
      match step
      case OnAgreement(x) =>
        AgreementFrame(s, x);
        NoneAdded(s, After(s, step));
      case OnBilling(x) =>
        BillingFrame(s, x);
        NoneAdded(s, After(s, step));
      case OnInvoice(x) =>
        if x.Push? {
          PushIs(s, x);
          PushBillsFamily(s, x.r, x.fates);
        } else {
          OtherJobsAddNone(s, x);
          NoneAdded(s, After(s, step));
        }
    } else {
      NoneAdded(s, s);
    }
  }

  lemma PushIs(s: State, step: InvoiceStep)
    requires step.Push?
    ensures DoInvoice(s, step) == Ok(I.Push(s, step.r, step.fates))
  {
  }

  /** What was made out right stays so: records keep their member, members their
      guardian, and clients theirs. */
  lemma FamilyStays(s: State, t: State, k: nat)
    requires Later(s, t) && RemoteLater(s.remote, t.remote)
    requires k < |s.remote.invoices| && ToItsFamily(s, s.remote.invoices[k])
    ensures k < |t.remote.invoices| && ToItsFamily(t, t.remote.invoices[k])
  {
    var x := s.remote.invoices[k];
    assert InvoiceLater(x, t.remote.invoices[k]);
    assert RecordLater(s.records[x.record], t.records[x.record]);
    assert ClientLater(s.remote.clients[x.client], t.remote.clients[x.client]);
  }

  lemma StepKeepsFamilies(s: State, step: Step)
    requires Inv(s) && RemoteInv(s) && AllToFamilies(s) && !Unlocks(s, step)
    ensures AllToFamilies(After(s, step))
  {
    hide Inv, RemoteInv, After, Unlocks, Later, RemoteLater, ToItsFamily;
    var t := After(s, step);
    StepKeepsInv(s, step);
    InvGives(s);
    StepKeepsRemote(s, step);
    StepBillsFamilies(s, step);
    forall k | 0 <= k < |t.remote.invoices| ensures ToItsFamily(t, t.remote.invoices[k]) {
      if k < |s.remote.invoices| {
        FamilyStays(s, t, k);
      }
    }
  }

  lemma {:induction false} RunKeepsFamilies(s: State, steps: seq<Step>)
    requires Inv(s) && RemoteInv(s) && AllToFamilies(s) && Locked(s, steps)
    ensures AllToFamilies(Run(s, steps))
  {
    hide Inv, RemoteInv, After, Unlocks, AllToFamilies;
    if steps != [] {
      var init := steps[..|steps| - 1];
      RunKeepsFamilies(s, init);
      RunMovesForward(s, init);
      RunKeepsRemote(s, init);
      StepKeepsFamilies(Run(s, init), steps[|steps| - 1]);
    }
  }

  /** In every reachable state each invoice at the provider is made out to the client of
      the guardian whose child its record bills, whatever replies were lost and however
      often clients went stale. */
  lemma EveryInvoiceBillsItsFamily(s: State, steps: seq<Step>, k: nat)
    requires Initial(s) && Locked(s, steps) && k < |Run(s, steps).remote.invoices|
    ensures var t := Run(s, steps);
            var x := t.remote.invoices[k];
            && x.record in t.records && t.records[x.record].member in t.members
            && x.client < |t.remote.clients|
            && t.remote.clients[x.client].guardian == t.members[t.records[x.record].member].guardian
  {
    hide Run, Locked, Inv, RemoteInv;
    InitialInv(s);
    NothingBilledYet(s);
    RunKeepsFamilies(s, steps);
  }

  lemma NothingBilledYet(s: State)
    requires Initial(s)
    ensures RemoteInv(s) && AllToFamilies(s)
  {
  }
}
