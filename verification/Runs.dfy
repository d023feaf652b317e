/** Whole runs: what every reachable state satisfies and what later states keep. */
module Runs {
  import opened Calendar
  import opened Domain
  import opened RecordLife
  import opened AgreementLife
  import opened RecordRuns
  import opened Links
  import opened Machine

  ghost predicate AllLinked(s: State) {
    forall r :: r in s.records ==> Linked(s, s.records[r])
  }

  ghost predicate Inv(s: State) {
    && RecordsOk(s.plans, s.records) && OneRecordEach(s.records) && AllLinked(s)
    && AgreementsOk(s.plans, s.agreements) && AgreementsHaveMembers(s) && AwaitingOk(s)
  }

  ghost predicate Later(s: State, t: State) {
    && RecordsLater(s.records, t.records)
    && AgreementsLater(s.agreements, t.agreements) && KeepsCurrent(s.agreements, t.agreements)
    && PlansLater(s.plans, t.plans) && MembersLater(s.members, t.members)
  }

  lemma AgreementsOkLater(p: map<int, Plan>, q: map<int, Plan>, agreements: map<int, Agreement>)
    requires AgreementsOk(p, agreements) && PlansLater(p, q)
    ensures AgreementsOk(q, agreements)
  {
    hide LifeOk, SetupOk, OneCurrent, SameGeometry;
    forall a | a in agreements ensures AgreementOk(q, agreements[a]) {
      assert AgreementOk(p, agreements[a]);
      SetupLater(p, q, agreements[a].plan, agreements[a].month);
    }
  }

  lemma GrowthGives(plans: map<int, Plan>, x: map<int, Record>, y: map<int, Record>)
    requires TableGrows(plans, x, y)
    ensures RecordsOk(plans, y) && RecordsLater(x, y)
  {
  }

  lemma AgreementGrowthGives(plans: map<int, Plan>, x: map<int, Agreement>, y: map<int, Agreement>)
    requires AgreementsGrow(plans, x, y)
    ensures AgreementsOk(plans, y) && AgreementsLater(x, y) && KeepsCurrent(x, y)
  {
  }

  /** One step keeps everything in order and only moves it forward. */
  lemma StepKeepsInv(s: State, step: Step)
    requires Inv(s) && !Unlocks(s, step)
    ensures Inv(After(s, step)) && Later(s, After(s, step))
  {
    hide RecordsOk, OneRecordEach, AgreementsOk, AgreementsHaveMembers, AwaitingOk, Unlocks, After, RecordsLater,
         AgreementsLater, KeepsCurrent, PlansLater, MembersLater, TableGrows, AgreementsGrow, AllLinked;
    var t := After(s, step);
    StepKeepsRecords(s, step);
    GrowthGives(t.plans, s.records, t.records);
    StepKeepsOneRecordEach(s, step);
    StepKeepsAgreements(s, step);
    AgreementGrowthGives(s.plans, s.agreements, t.agreements);
    AgreementsOkLater(s.plans, t.plans, t.agreements);
    StepKeepsMembers(s, step);
    StepKeepsAwaiting(s, step);
    StepRecordKeys(s, step);
    LinkedStep(s, t);
  }

  lemma LinkedStep(s: State, t: State)
    requires AllLinked(s) && RecordsLater(s.records, t.records)
    requires AgreementsLater(s.agreements, t.agreements) && MembersLater(s.members, t.members)
    requires AddsOne(s, t) || SameRecordKeys(s.records, t.records)
    ensures AllLinked(t)
  {
    hide AddsOne, SameRecordKeys, RecordsLater, AgreementsLater, MembersLater, Linked;
    RecordLinksLater(s, t);
  }

  // ---- from steps to runs ----

  lemma AgreementsLaterTransitive(x: map<int, Agreement>, y: map<int, Agreement>, z: map<int, Agreement>)
    requires AgreementsLater(x, y) && AgreementsLater(y, z)
    ensures AgreementsLater(x, z)
  {
    forall a | a in x ensures a in z && AgreementLater(x[a], z[a]) {
      assert AgreementLater(x[a], y[a]) && AgreementLater(y[a], z[a]);
    }
  }

  lemma LaterTransitive(s: State, t: State, u: State)
    requires Later(s, t) && Later(t, u)
    ensures Later(s, u)
  {
    hide RecordsLater, AgreementsLater;
    RecordsLaterTransitive(s.records, t.records, u.records);
    AgreementsLaterTransitive(s.agreements, t.agreements, u.agreements);
  }

  lemma LaterReflexive(s: State)
    ensures Later(s, s)
  {
    hide RecordLater;
    forall r | r in s.records ensures RecordLater(s.records[r], s.records[r]) {
      ReflexiveLater(s.records[r]);
    }
  }

  /** From any consistent state, every run without an unlocking edit stays
      consistent and never undoes what the state had settled. */
  lemma {:induction false} RunMovesForward(s: State, steps: seq<Step>)
    requires Inv(s) && Locked(s, steps)
    ensures Inv(Run(s, steps)) && Later(s, Run(s, steps))
  {
    hide Inv, Later, After, Unlocks;
    if steps == [] {
      LaterReflexive(s);
    } else {
      var init := steps[..|steps| - 1];
      RunMovesForward(s, init);
      StepKeepsInv(Run(s, init), steps[|steps| - 1]);
      LaterTransitive(s, Run(s, init), Run(s, steps));
    }
  }

  lemma InitialInv(s: State)
    requires Initial(s)
    ensures Inv(s)
  {
  }

  lemma EveryRunIsConsistent(s: State, steps: seq<Step>)
    requires Initial(s) && Locked(s, steps)
    ensures Inv(Run(s, steps))
  {
    hide Inv, Locked, Run;
    InitialInv(s);
    RunMovesForward(s, steps);
  }
}
