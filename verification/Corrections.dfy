/** Application review with correction messages: two ways of closing a correction
    request, late mail outcomes, and approval that creates one member. */
module Corrections {
  import opened Wrappers
  import opened Text

  datatype Status = Draft | Submitted | FixRequested | Approved | Rejected

  datatype Outcome = Pending | Sent | Failed

  datatype Source = Unset | ParentResubmission | StaffManual

  datatype Message = Message(
    actor: int,
    note: string,
    outcome: Outcome,
    sentAt: Option<int>,
    resolvedAt: Option<int>,
    source: Source,
    resolvedBy: Option<int>
  )

  datatype Application = Application(
    owner: Option<int>,
    guardian: Option<int>,
    status: Status,
    submittedAt: Option<int>,
    digestSentAt: Option<int>,
    reviewMessage: string,
    reviewedBy: Option<int>,
    reviewedAt: Option<int>,
    approvedMember: Option<int>
  )

  /** One application, its correction messages and the members created for it. */
  datatype State = State(app: Application, messages: seq<Message>, members: set<int>)

  // ---- the review steps ----

  datatype Step =
    | Submit(actor: Option<int>, complete: bool, now: int)
    | RequestFix(reviewer: int, text: string, now: int)
    | MailOutcome(message: nat, accepted: bool, now: int)
    | ResolveByStaff(reviewer: int, now: int)
    | Reject(reviewer: int, text: string, now: int)
    | Approve(reviewer: int, member: int, groupInactive: bool, accountGuardian: int, now: int)

  function Resolve(m: Message, now: int, source: Source, who: Option<int>): Message {
    if m.resolvedAt.Some? then m else m.(resolvedAt := Some(now), source := source, resolvedBy := who)
  }

  function ResolveAll(messages: seq<Message>, now: int, source: Source, who: Option<int>): (r: seq<Message>)
    ensures |r| == |messages|
  {
    seq(|messages|, i requires 0 <= i < |messages| => Resolve(messages[i], now, source, who))
  }

  function Resubmitted(app: Application, now: int): Application {
    app.(status := Submitted, submittedAt := Some(now), digestSentAt := None,
         reviewMessage := "", reviewedBy := None, reviewedAt := None)
  }

  function SubmitStep(s: State, actor: Option<int>, complete: bool, now: int): Result<State> {
    if s.app.owner.Some? && actor != s.app.owner then Err(NotAllowed)
    else if s.app.status !in {Draft, FixRequested} then Err(WrongState)
    else if !complete then Err(NotAllowed)
    else Ok(s.(app := Resubmitted(s.app, now),
               messages := ResolveAll(s.messages, now, ParentResubmission, None)))
  }

  function RequestFixStep(s: State, reviewer: int, text: string, now: int): Result<State> {
    if s.app.status != Submitted then Err(WrongState)
    else if Strip(text) == "" then Err(NotAllowed)
    else Ok(s.(
      app := s.app.(status := FixRequested, reviewMessage := Strip(text),
                    reviewedBy := Some(reviewer), reviewedAt := Some(now)),
      messages := s.messages + [Message(reviewer, Strip(text), Pending, None, None, Unset, None)]))
  }

  /** The mail backend's answer for one message whose outcome is still open. */
  function MailOutcomeStep(s: State, i: nat, accepted: bool, now: int): Result<State> {
    if i >= |s.messages| then Err(Missing)
    else if s.messages[i].outcome != Pending then Err(WrongState)
    else if accepted then Ok(s.(messages := s.messages[i := s.messages[i].(outcome := Sent, sentAt := Some(now))]))
    else Ok(s.(messages := s.messages[i := s.messages[i].(outcome := Failed)]))
  }

  predicate AnyUnresolved(messages: seq<Message>) {
    exists i :: 0 <= i < |messages| && messages[i].resolvedAt.None?
  }

  function ResolveByStaffStep(s: State, reviewer: int, now: int): Result<State> {
    if s.app.status == Submitted then
      if AnyUnresolved(s.messages) then Err(NotAllowed) else Ok(s)
    else if s.app.status != FixRequested then Err(WrongState)
    else Ok(s.(app := Resubmitted(s.app, now),
               messages := ResolveAll(s.messages, now, StaffManual, Some(reviewer))))
  }

  function RejectStep(s: State, reviewer: int, text: string, now: int): Result<State> {
    if s.app.status != Submitted then Err(WrongState)
    else if Strip(text) == "" then Err(NotAllowed)
    else Ok(s.(app := s.app.(status := Rejected, reviewMessage := Strip(text),
                             reviewedBy := Some(reviewer), reviewedAt := Some(now))))
  }

  function ApproveStep(s: State, reviewer: int, member: int, groupInactive: bool, accountGuardian: int, now: int)
    : Result<State>
  {
    if s.app.approvedMember.Some? then Ok(s)
    else if s.app.status != Submitted then Err(WrongState)
    else if groupInactive then Err(NotAllowed)
    else if s.app.guardian.None? && s.app.owner.None? then Err(NotAllowed)
    else if member in s.members then Err(Duplicate)
    else Ok(s.(
      app := s.app.(guardian := if s.app.guardian.Some? then s.app.guardian else Some(accountGuardian),
                    status := Approved, approvedMember := Some(member),
                    reviewedBy := Some(reviewer), reviewedAt := Some(now)),
      members := s.members + {member}))
  }

  function Do(s: State, step: Step): Result<State> {
    match step
    case Submit(actor, complete, now) => SubmitStep(s, actor, complete, now)
    case RequestFix(reviewer, text, now) => RequestFixStep(s, reviewer, text, now)
    case MailOutcome(i, accepted, now) => MailOutcomeStep(s, i, accepted, now)
    case ResolveByStaff(reviewer, now) => ResolveByStaffStep(s, reviewer, now)
    case Reject(reviewer, text, now) => RejectStep(s, reviewer, text, now)
    case Approve(reviewer, member, groupInactive, accountGuardian, now) =>
      ApproveStep(s, reviewer, member, groupInactive, accountGuardian, now)
  }

  /** A refused step raises and writes nothing. */
  function After(s: State, step: Step): State {
    match Do(s, step)
    case Ok(t) => t
    case Err(_) => s
  }

  function Run(s: State, steps: seq<Step>): State {
    if steps == [] then s else After(Run(s, steps[..|steps| - 1]), steps[|steps| - 1])
  }

  predicate Fresh(s: State) {
    s.app.status == Draft && s.app.approvedMember.None? && s.messages == [] && s.members == {}
  }

  // ---- what every run keeps ----

  ghost predicate MessageOk(m: Message) {
    && (m.resolvedAt.Some? <==> m.source != Unset)
    && (m.resolvedBy.Some? <==> m.source == StaffManual)
    && (m.sentAt.Some? <==> m.outcome == Sent)
  }

  /** The newest message is the only one that can be open, and it is open exactly
      while a fix is requested; approval and its one member go together. */
  ghost predicate Inv(s: State) {
    && (forall i :: 0 <= i < |s.messages| ==> MessageOk(s.messages[i]))
    && (forall i :: 0 <= i < |s.messages| ==>
          (s.messages[i].resolvedAt.None? <==> s.app.status == FixRequested && i == |s.messages| - 1))
    && (s.app.status == FixRequested ==> s.messages != [])
    && (s.app.status == Approved <==> s.app.approvedMember.Some?)
    && s.members == (if s.app.approvedMember.Some? then {s.app.approvedMember.value} else {})
  }

  /** What later steps never alter. */
  ghost predicate WriteOnce(s: State, t: State) {
    && |s.messages| <= |t.messages|
    && (forall i :: 0 <= i < |s.messages| ==>
          var m, n := s.messages[i], t.messages[i];
          && n.actor == m.actor && n.note == m.note
          && (m.resolvedAt.Some? ==> (n.resolvedAt, n.source, n.resolvedBy) == (m.resolvedAt, m.source, m.resolvedBy))
          && (m.outcome != Pending ==> (n.outcome, n.sentAt) == (m.outcome, m.sentAt)))
    && (s.app.approvedMember.Some? ==> t.app.approvedMember == s.app.approvedMember && t.members == s.members)
  }

  lemma StepKeepsInv(s: State, step: Step)
    requires Inv(s)
    ensures Inv(After(s, step)) && WriteOnce(s, After(s, step))
  {
    hide Strip;
  }

  /** What a reader of the tables can rely on whatever a call did. */
  ghost predicate Kept(s: State, t: State) {
    Inv(s) ==> Inv(t) && WriteOnce(s, t)
  }

  lemma StepKept(s: State, step: Step)
    ensures Kept(s, After(s, step))
  {
    hide Inv, WriteOnce, Do;
    if Inv(s) {
      StepKeepsInv(s, step);
    }
  }

  lemma {:induction false} RunKeepsInv(s: State, steps: seq<Step>)
    requires Inv(s)
    ensures Inv(Run(s, steps))
  {
    if steps != [] {
      RunKeepsInv(s, steps[..|steps| - 1]);
      StepKeepsInv(Run(s, steps[..|steps| - 1]), steps[|steps| - 1]);
    }
  }

  /** Every run from a fresh draft: open messages only while a fix is requested,
      APPROVED exactly with its one member, however often approval is repeated. */
  lemma EveryRunIsConsistent(s: State, steps: seq<Step>)
    requires Fresh(s)
    ensures var t := Run(s, steps);
            && (AnyUnresolved(t.messages) <==> t.app.status == FixRequested)
            && (t.app.status == Approved <==> t.app.approvedMember.Some?)
            && |t.members| <= 1 && (t.app.status == Approved <==> |t.members| == 1)
            && forall i :: 0 <= i < |t.messages| ==> MessageOk(t.messages[i])
  {
    RunKeepsInv(s, steps);
    var t := Run(s, steps);
    if t.app.status == FixRequested {
      assert t.messages[|t.messages| - 1].resolvedAt.None?;
    }
  }

  lemma {:induction false} WriteOnceOverRuns(s: State, steps: seq<Step>, k: nat)
    requires Fresh(s) && k <= |steps|
    ensures WriteOnce(Run(s, steps[..k]), Run(s, steps))
    decreases |steps|
  {
    if k == |steps| {
      assert steps[..k] == steps;
    } else {
      var init := steps[..|steps| - 1];
      WriteOnceOverRuns(s, init, k);
      assert init[..k] == steps[..k];
      RunKeepsInv(s, init);
      StepKeepsInv(Run(s, init), steps[|steps| - 1]);
    }
  }

  /** The guard against a submitted application with open corrections never fires. */
  lemma StaffResolveNeverContradicts(s: State, steps: seq<Step>, reviewer: int, now: int)
    requires Fresh(s)
    ensures var t := Run(s, steps);
            && (ResolveByStaffStep(t, reviewer, now).Ok? <==> t.app.status in {Submitted, FixRequested})
            && (t.app.status == Submitted ==> ResolveByStaffStep(t, reviewer, now) == Ok(t))
  {
    RunKeepsInv(s, steps);
  }

  /** Staff closing and parent resubmission differ only in the provenance they
      write, and on the one open message only. */
  lemma TwoWaysOfClosing(s: State, actor: Option<int>, reviewer: int, now: int)
    requires Inv(s) && s.app.status == FixRequested && SubmitStep(s, actor, true, now).Ok?
    ensures var parent, staff := SubmitStep(s, actor, true, now).value, ResolveByStaffStep(s, reviewer, now);
            && staff.Ok? && staff.value.app == parent.app && staff.value.members == parent.members
            && (forall i :: 0 <= i < |s.messages| - 1 ==>
                  staff.value.messages[i] == parent.messages[i] == s.messages[i])
            && var pending := s.messages[|s.messages| - 1];
            && parent.messages[|s.messages| - 1] == pending.(resolvedAt := Some(now), source := ParentResubmission)
            && staff.value.messages[|s.messages| - 1]
                 == pending.(resolvedAt := Some(now), source := StaffManual, resolvedBy := Some(reviewer))
  {
  }

  /** Asking for a fix and resubmitting is a round trip: the review starts over with the
      same guardian and members, nothing left on the application, and one more message,
      closed by its family, on top of an unchanged history. */
  lemma FixRoundTrip(s: State, reviewer: int, text: string, asked: int, now: int)
    requires Inv(s)
    ensures RequestFixStep(s, reviewer, text, asked).Ok? <==> s.app.status == Submitted && Strip(text) != ""
    ensures RequestFixStep(s, reviewer, text, asked).Ok? ==>
              var fix := RequestFixStep(s, reviewer, text, asked).value;
              && fix.app == s.app.(status := FixRequested, reviewMessage := Strip(text), reviewedBy := Some(reviewer), reviewedAt := Some(asked))
              && AnyUnresolved(fix.messages)
              && SubmitStep(fix, s.app.owner, true, now) ==
                   Ok(State(Resubmitted(s.app, now),
                            s.messages + [Message(reviewer, Strip(text), Pending, None, Some(now), ParentResubmission, None)],
                            s.members))
  {
    hide Strip;
    if s.app.status == Submitted && Strip(text) != "" {
      var fix := RequestFixStep(s, reviewer, text, asked).value;
      var end := SubmitStep(fix, s.app.owner, true, now).value;
      assert fix.messages[|s.messages|].resolvedAt.None?;
      assert end.messages == s.messages + [Message(reviewer, Strip(text), Pending, None, Some(now), ParentResubmission, None)];
    }
  }

  /** The mail is sent outside the transaction, so anything can come first: for every
      other step that does not report on the same message, reporting the outcome before
      or after it gives the same tables. */
  lemma MailOutcomeCommutes(s: State, step: Step, i: nat, accepted: bool, now: int)
    requires i < |s.messages| && (step.MailOutcome? ==> step.message != i)
    ensures After(After(s, step), MailOutcome(i, accepted, now)) == After(After(s, MailOutcome(i, accepted, now)), step)
  {
    hide Strip, AnyUnresolved, MailOutcomeStep, After, ResolveAll;
    SameUnresolved(s, i, accepted, now);
    MailIs(s, i, accepted, now);
    OtherMessages(s, step);
    MailIs(After(s, step), i, accepted, now);
    if step.Submit? {
      ResolvingCommutes(s.messages, i, accepted, now, step.now, ParentResubmission, None);
    } else if step.ResolveByStaff? {
      ResolvingCommutes(s.messages, i, accepted, now, step.now, StaffManual, Some(step.reviewer));
    } else if step.MailOutcome? {
      MailIs(s, step.message, step.accepted, step.now);
      MailIs(After(s, MailOutcome(i, accepted, now)), step.message, step.accepted, step.now);
    }
    AfterIs(s, step);
    AfterIs(After(s, MailOutcome(i, accepted, now)), step);
  }

  /** A message once its mail outcome was reported. */
  function Told(m: Message, accepted: bool, now: int): Message {
    if m.outcome != Pending then m
    else if accepted then m.(outcome := Sent, sentAt := Some(now))
    else m.(outcome := Failed)
  }

  lemma MailIs(s: State, i: nat, accepted: bool, now: int)
    ensures After(s, MailOutcome(i, accepted, now)) ==
              if i < |s.messages| then s.(messages := s.messages[i := Told(s.messages[i], accepted, now)]) else s
  {
    assert i < |s.messages| ==> s.messages[i := s.messages[i]] == s.messages;
  }

  lemma AfterIs(s: State, step: Step)
    ensures After(s, step) == if Do(s, step).Ok? then Do(s, step).value else s
  {
  }

  lemma OtherMessages(s: State, step: Step)
    ensures |s.messages| <= |After(s, step).messages|
  {
    hide Strip, AnyUnresolved;
  }

  lemma ResolvingCommutes(messages: seq<Message>, i: nat, accepted: bool, told: int, now: int, source: Source, who: Option<int>)
    requires i < |messages|
    ensures ResolveAll(messages[i := Told(messages[i], accepted, told)], now, source, who)
         == ResolveAll(messages, now, source, who)[i := Told(ResolveAll(messages, now, source, who)[i], accepted, told)]
  {
  }

  lemma SameUnresolved(s: State, i: nat, accepted: bool, now: int)
    requires i < |s.messages|
    ensures AnyUnresolved(After(s, MailOutcome(i, accepted, now)).messages) <==> AnyUnresolved(s.messages)
  {
    var messages := After(s, MailOutcome(i, accepted, now)).messages;
    assert forall k :: 0 <= k < |messages| ==> messages[k].resolvedAt == s.messages[k].resolvedAt;
  }

  /** Submitting is for the owner of a complete draft or correction. It starts the review
      afresh and closes what was open, in the family's name; whose application it is and
      what was approved stay. */
  lemma SubmittingExactly(s: State, actor: Option<int>, complete: bool, now: int)
    requires Inv(s)
    ensures SubmitStep(s, actor, complete, now).Ok? <==>
              (s.app.owner.None? || actor == s.app.owner) && s.app.status in {Draft, FixRequested} && complete
    ensures SubmitStep(s, actor, complete, now).Ok? ==>
              var t := SubmitStep(s, actor, complete, now).value;
              && t.app == Application(s.app.owner, s.app.guardian, Submitted, Some(now), None, "", None, None, s.app.approvedMember)
              && t.members == s.members && |t.messages| == |s.messages|
              && forall i :: 0 <= i < |s.messages| ==>
                   t.messages[i] == if s.messages[i].resolvedAt.Some? then s.messages[i]
                                    else s.messages[i].(resolvedAt := Some(now), source := ParentResubmission)
  {
  }

  /** A mail outcome is reported once, on its own message: sent at that time, or failed. */
  lemma MailOutcomeExactly(s: State, i: nat, accepted: bool, now: int)
    requires Inv(s)
    ensures MailOutcomeStep(s, i, accepted, now).Ok? <==> i < |s.messages| && s.messages[i].outcome == Pending
    ensures MailOutcomeStep(s, i, accepted, now).Ok? ==>
              var t := MailOutcomeStep(s, i, accepted, now).value;
              && t == s.(messages := t.messages) && |t.messages| == |s.messages|
              && (forall j :: 0 <= j < |s.messages| && j != i ==> t.messages[j] == s.messages[j])
              && t.messages[i] == s.messages[i].(outcome := t.messages[i].outcome, sentAt := t.messages[i].sentAt)
              && (accepted <==> t.messages[i].outcome == Sent && t.messages[i].sentAt == Some(now))
              && (!accepted <==> t.messages[i].outcome == Failed && t.messages[i].sentAt == None)
              && MailOutcomeStep(t, i, accepted, now).Err?
  {
  }

  lemma {:induction false} RejectedStays(s: State, steps: seq<Step>)
    requires Inv(s) && s.app.status == Rejected
    ensures var t := Run(s, steps);
            && t.app == s.app && t.members == s.members && |t.messages| == |s.messages|
            && WriteOnce(s, t) && Inv(t)
  {
    hide Strip, AnyUnresolved;
    if steps != [] {
      var init := steps[..|steps| - 1];
      RejectedStays(s, init);
      StepKeepsInv(Run(s, init), steps[|steps| - 1]);
    }
  }

  /** A submitted application can be rejected, with a text that is not blank, and that is
      the end: over every later run it stays rejected with the reviewer's words, and
      submitting, asking for a fix, resolving and approving are all refused. */
  lemma RejectionIsFinal(s: State, reviewer: int, text: string, now: int, steps: seq<Step>)
    requires Inv(s)
    ensures RejectStep(s, reviewer, text, now).Ok? <==> s.app.status == Submitted && Strip(text) != ""
    ensures RejectStep(s, reviewer, text, now).Ok? ==>
              var t := RejectStep(s, reviewer, text, now).value;
              var u := Run(t, steps);
              && t.messages == s.messages && t.members == s.members
              && t.app == s.app.(status := Rejected, reviewMessage := Strip(text), reviewedBy := Some(reviewer), reviewedAt := Some(now))
              && u.app == t.app && u.members == t.members && |u.messages| == |t.messages|
              && WriteOnce(t, u) && !AnyUnresolved(u.messages) && AllRefused(u)
  {
    hide Strip, AnyUnresolved, AllRefused, Run, WriteOnce;
    StepKeepsInv(s, Reject(reviewer, text, now));
    if RejectStep(s, reviewer, text, now).Ok? {
      var t := RejectStep(s, reviewer, text, now).value;
      RejectedStays(t, steps);
      NoneOpen(Run(t, steps));
      RejectedRefuses(Run(t, steps));
    }
  }

  /** Nothing but the outcome of a mail can happen to this application any more. */
  ghost predicate AllRefused(s: State) {
    && (forall actor, complete, now :: SubmitStep(s, actor, complete, now).Err?)
    && (forall reviewer, text, now :: RequestFixStep(s, reviewer, text, now).Err?)
    && (forall reviewer, now :: ResolveByStaffStep(s, reviewer, now).Err?)
    && (forall reviewer, text, now :: RejectStep(s, reviewer, text, now).Err?)
    && (forall reviewer, member, groupInactive, accountGuardian, now ::
          ApproveStep(s, reviewer, member, groupInactive, accountGuardian, now).Err?)
  }

  lemma RejectedRefuses(s: State)
    requires Inv(s) && s.app.status == Rejected
    ensures AllRefused(s)
  {
    hide Strip;
  }

  /** Approving is accepted again for an approved application, and else for a submitted
      one with an open group and someone to be the guardian. It keeps the guardian the
      application has, creates the one member and leaves the history alone. */
  lemma ApprovingExactly(s: State, reviewer: int, member: int, groupInactive: bool, accountGuardian: int, now: int)
    requires Inv(s)
    ensures ApproveStep(s, reviewer, member, groupInactive, accountGuardian, now).Ok? <==>
              || s.app.status == Approved
              || (s.app.status == Submitted && !groupInactive && (s.app.guardian.Some? || s.app.owner.Some?))
    ensures ApproveStep(s, reviewer, member, groupInactive, accountGuardian, now).Ok? ==>
              var t := ApproveStep(s, reviewer, member, groupInactive, accountGuardian, now).value;
              && (s.app.status == Approved ==> t == s)
              && (s.app.status == Submitted ==>
                    && t.messages == s.messages && t.members == {member}
                    && t.app == s.app.(guardian := t.app.guardian, status := Approved, approvedMember := Some(member),
                                       reviewedBy := Some(reviewer), reviewedAt := Some(now))
                    && t.app.guardian.Some? && (s.app.guardian.Some? ==> t.app.guardian == s.app.guardian)
                    && (s.app.guardian.None? ==> t.app.guardian == Some(accountGuardian)))
  {
  }

  /** An approval is the end as well: the one member stays the only one, and approving again, with
      whatever arguments, changes nothing. */
  lemma {:induction false} ApprovalIsFinal(s: State, steps: seq<Step>, reviewer: int, member: int, groupInactive: bool, accountGuardian: int, now: int)
    requires Inv(s) && s.app.status == Approved
    ensures var t := Run(s, steps);
            && t.app == s.app && t.app.approvedMember.Some? && t.members == s.members == {t.app.approvedMember.value}
            && |t.messages| == |s.messages| && WriteOnce(s, t) && !AnyUnresolved(t.messages)
            && ApproveStep(t, reviewer, member, groupInactive, accountGuardian, now) == Ok(t)
  {
    hide Strip, AnyUnresolved;
    if steps != [] {
      var init := steps[..|steps| - 1];
      RunKeepsInv(s, init);
      ApprovalIsFinal(s, init, reviewer, member, groupInactive, accountGuardian, now);
      StepKeepsInv(Run(s, init), steps[|steps| - 1]);
    }
    NoneOpen(Run(s, steps));
  }

  lemma NoneOpen(s: State)
    requires Inv(s) && s.app.status != FixRequested
    ensures !AnyUnresolved(s.messages)
  {
  }

  // ---- the services, on rows updated in place ----

  class Review {
    var app: Application
    var messages: seq<Message>
    var members: set<int>

    ghost function Contents(): State
      reads this
    {
      State(app, messages, members)
    }

    constructor (owner: Option<int>, guardian: Option<int>)
      ensures Fresh(Contents()) && app.owner == owner && app.guardian == guardian
    {
      app := Application(owner, guardian, Draft, None, None, "", None, None, None);
      messages := [];
      members := {};
    }

    /** The bulk update of every unresolved row. */
    method ResolveMessages(now: int, source: Source, who: Option<int>)
      modifies this`messages
      ensures messages == ResolveAll(old(messages), now, source, who)
    {
      for i := 0 to |messages|
        invariant |messages| == |old(messages)|
        invariant forall j :: 0 <= j < i ==> messages[j] == Resolve(old(messages)[j], now, source, who)
        invariant forall j :: i <= j < |messages| ==> messages[j] == old(messages)[j]
      {
        if messages[i].resolvedAt.None? {
          messages := messages[i := messages[i].(resolvedAt := Some(now), source := source, resolvedBy := who)];
        }
      }
    }

    method StampResubmission(now: int)
      modifies this`app
      ensures app == Resubmitted(old(app), now)
    {
      app := app.(status := Submitted);
      app := app.(submittedAt := Some(now));
      app := app.(reviewMessage := "");
      app := app.(reviewedBy := None);
      app := app.(reviewedAt := None);
      app := app.(digestSentAt := None);
    }

    method SubmitApplication(actor: Option<int>, complete: bool, now: int) returns (r: Result<()>)
      modifies this
      ensures Do(old(Contents()), Submit(actor, complete, now)) ==
              if r.Ok? then Ok(Contents()) else Err(r.error)
      ensures r.Err? ==> Contents() == old(Contents())
      ensures Kept(old(Contents()), Contents())
    {
      hide Kept;
      StepKept(Contents(), Submit(actor, complete, now));
      if app.owner.Some? && (actor.None? || app.owner.value != actor.value) {
        return Err(NotAllowed);
      }
      if app.status != Draft && app.status != FixRequested {
        return Err(WrongState);
      }
      if !complete {
        return Err(NotAllowed);
      }
      StampResubmission(now);
      ResolveMessages(now, ParentResubmission, None);
      return Ok(());
    }

    method ResolveApplicationCorrections(reviewer: int, now: int) returns (r: Result<()>)
      modifies this
      ensures Do(old(Contents()), ResolveByStaff(reviewer, now)) ==
              if r.Ok? then Ok(Contents()) else Err(r.error)
      ensures r.Err? ==> Contents() == old(Contents())
      ensures Kept(old(Contents()), Contents())
    {
      hide Kept;
      StepKept(Contents(), ResolveByStaff(reviewer, now));
      if app.status == Submitted {
        if AnyUnresolved(messages) {
          return Err(NotAllowed);
        }
        return Ok(());
      }
      if app.status != FixRequested {
        return Err(WrongState);
      }
      StampResubmission(now);
      ResolveMessages(now, StaffManual, Some(reviewer));
      return Ok(());
    }

    method RequestApplicationFix(reviewer: int, text: string, now: int) returns (r: Result<()>)
      modifies this
      ensures Do(old(Contents()), RequestFix(reviewer, text, now)) ==
              if r.Ok? then Ok(Contents()) else Err(r.error)
      ensures r.Err? ==> Contents() == old(Contents())
      ensures Kept(old(Contents()), Contents())
    {
      hide Strip, Kept;
      StepKept(Contents(), RequestFix(reviewer, text, now));
      if app.status != Submitted {
        return Err(WrongState);
      }
      if Strip(text) == "" {
        return Err(NotAllowed);
      }
      app := app.(status := FixRequested, reviewMessage := Strip(text));
      app := app.(reviewedBy := Some(reviewer), reviewedAt := Some(now));
      messages := messages + [Message(reviewer, app.reviewMessage, Pending, None, None, Unset, None)];
      return Ok(());
    }

    /** Runs after the mail call, when other steps may have come between. */
    method RecordMailOutcome(i: nat, accepted: bool, now: int) returns (r: Result<()>)
      modifies this
      ensures Do(old(Contents()), MailOutcome(i, accepted, now)) ==
              if r.Ok? then Ok(Contents()) else Err(r.error)
      ensures r.Err? ==> Contents() == old(Contents())
      ensures Kept(old(Contents()), Contents())
    {
      hide Kept;
      StepKept(Contents(), MailOutcome(i, accepted, now));
      if i >= |messages| {
        return Err(Missing);
      }
      if messages[i].outcome != Pending {
        return Err(WrongState);
      }
      if accepted {
        messages := messages[i := messages[i].(outcome := Sent, sentAt := Some(now))];
      } else {
        messages := messages[i := messages[i].(outcome := Failed)];
      }
      return Ok(());
    }

    method RejectApplication(reviewer: int, text: string, now: int) returns (r: Result<()>)
      modifies this
      ensures Do(old(Contents()), Reject(reviewer, text, now)) ==
              if r.Ok? then Ok(Contents()) else Err(r.error)
      ensures r.Err? ==> Contents() == old(Contents())
      ensures Kept(old(Contents()), Contents())
    {
      hide Strip, Kept;
      StepKept(Contents(), Reject(reviewer, text, now));
      if app.status != Submitted {
        return Err(WrongState);
      }
      if Strip(text) == "" {
        return Err(NotAllowed);
      }
      app := app.(status := Rejected, reviewMessage := Strip(text));
      app := app.(reviewedBy := Some(reviewer), reviewedAt := Some(now));
      return Ok(());
    }

    method ApproveApplication(reviewer: int, member: int, groupInactive: bool, accountGuardian: int, now: int)
      returns (r: Result<()>)
      modifies this
      ensures Do(old(Contents()), Approve(reviewer, member, groupInactive, accountGuardian, now)) ==
              if r.Ok? then Ok(Contents()) else Err(r.error)
      ensures r.Err? ==> Contents() == old(Contents())
      ensures Kept(old(Contents()), Contents())
    {
      hide Kept;
      StepKept(Contents(), Approve(reviewer, member, groupInactive, accountGuardian, now));
      if app.approvedMember.Some? {
        return Ok(());
      }
      if app.status != Submitted {
        return Err(WrongState);
      }
      if groupInactive || (app.guardian.None? && app.owner.None?) {
        return Err(NotAllowed);
      }
      if member in members {
        return Err(Duplicate);
      }
      if app.guardian.None? {
        app := app.(guardian := Some(accountGuardian));
      }
      members := members + {member};
      app := app.(status := Approved, approvedMember := Some(member));
      app := app.(reviewedBy := Some(reviewer), reviewedAt := Some(now));
      return Ok(());
    }
  }
}
