/** The fixed family tier: a member's rank among the guardian's signed agreements
    decides its sibling discount. */
module Tier {
  import opened Wrappers
  import opened Keys
  import opened Money
  import opened Calendar
  import opened Domain

  const MAX_TIER := 3

  function TierPercent(tier: nat): Percent
    requires tier <= MAX_TIER
  {
    if tier == 0 then 0 else if tier == 1 then 50 else if tier == 2 then 75 else 100
  }

  /** A member that has left by the first due date no longer counts. */
  predicate Excluded(m: Member, firstDue: Date) {
    match m.leavesOn
    case Some(d) => d.Key() <= firstDue.Key()
    case None => m.discontinued
  }

  /** The rows of the ranking query; without a season every season counts. */
  predicate Candidate(s: State, guardian: int, season: Option<string>, firstDue: Date, a: int) {
    && a in s.agreements
    && var x := s.agreements[a];
    && x.isCurrent && x.state == Signed
    && x.member in s.members && s.members[x.member].guardian == guardian
    && !Excluded(s.members[x.member], firstDue)
    && (season.Some? ==> x.plan.Some? && x.plan.value in s.plans && s.plans[x.plan.value].season == season.value)
  }

  function SignedKey(x: Agreement): int {
    match x.signedAt
    case Some(t) => t
    case None => 0
  }

  /** ORDER BY signed_at, member_id */
  predicate Before(x: Agreement, y: Agreement) {
    SignedKey(x) < SignedKey(y) || (SignedKey(x) == SignedKey(y) && x.member < y.member)
  }

  ghost function Candidates(s: State, guardian: int, season: Option<string>, firstDue: Date): set<int> {
    set a | a in s.agreements && Candidate(s, guardian, season, firstDue, a)
  }

  ghost function Earlier(s: State, guardian: int, season: Option<string>, firstDue: Date, a: int): set<int>
    requires a in s.agreements
  {
    set b | b in s.agreements && Candidate(s, guardian, season, firstDue, b) && Before(s.agreements[b], s.agreements[a])
  }

  /** The member's own row in the ranking, if it is there. */
  ghost predicate Own(s: State, season: Option<string>, firstDue: Date, m: int, a: int) {
    m in s.members && Candidate(s, s.members[m].guardian, season, firstDue, a) && s.agreements[a].member == m
  }

  /** The rank of the member's row among the candidates, at most the last tier; a
      member that is no candidate is billed as a first child. */
  ghost function FamilyTier(s: State, season: Option<string>, firstDue: Date, m: int): (tier: nat)
    requires m in s.members
    ensures tier <= MAX_TIER
  {
    if a :| Own(s, season, firstDue, m, a) then
      Min(|Earlier(s, s.members[m].guardian, season, firstDue, a)|, MAX_TIER)
    else 0
  }

  lemma OwnUnique(s: State, season: Option<string>, firstDue: Date, m: int, a: int, b: int)
    requires OneCurrent(s.agreements) && Own(s, season, firstDue, m, a) && Own(s, season, firstDue, m, b)
    ensures a == b
  {
    assert IsCurrent(s.agreements, m, a) && IsCurrent(s.agreements, m, b);
  }

  // ---- the ranking query, walked in its order ----

  /** The least row of a nonempty set of candidates. */
  method NextInOrder(s: State, rows: set<int>) returns (a: int)
    requires rows != {} && rows <= s.agreements.Keys
    ensures a in rows && forall b :: b in rows ==> !Before(s.agreements[b], s.agreements[a])
  {
    NonEmpty(rows);
    a :| a in rows;
    var rest := rows - {a};
    while rest != {}
      invariant a in rows && rest <= rows
      invariant forall b :: b in rows && b !in rest ==> !Before(s.agreements[b], s.agreements[a])
    {
      NonEmpty(rest);
      var b :| b in rest;
      if Before(s.agreements[b], s.agreements[a]) {
        a := b;
      }
      rest := rest - {b};
    }
  }

  method ComputeFamilyTier(s: State, season: Option<string>, firstDue: Date, m: int) returns (tier: nat)
    requires m in s.members && OneCurrent(s.agreements)
    ensures tier == FamilyTier(s, season, firstDue, m)
  {
    hide Candidate;
    var guardian := s.members[m].guardian;
    var rest := set a | a in s.agreements && Candidate(s, guardian, season, firstDue, a);
    ghost var all, done: set<int> := rest, {};
    var rank := 0;
    while rest != {}
      invariant rest <= all && forall a :: a in all ==> (a in done <==> a !in rest)
      invariant done <= all && rank == |done|
      invariant forall a, b :: a in done && b in rest ==> Before(s.agreements[a], s.agreements[b])
      invariant forall a :: a in done ==> s.agreements[a].member != m
    {
      var a := NextInOrder(s, rest);
      if s.agreements[a].member == m {
        OwnRank(s, season, firstDue, m, a, done, rest);
        return Min(rank, MAX_TIER);
      }
      LeastIsBefore(s, guardian, season, firstDue, rest, a);
      done := done + {a};
      rest := rest - {a};
      rank := rank + 1;
    }
    NoOwnRow(s, season, firstDue, m);
    return 0;
  }

  lemma NoOwnRow(s: State, season: Option<string>, firstDue: Date, m: int)
    requires m in s.members
    requires forall a :: a in Candidates(s, s.members[m].guardian, season, firstDue) ==>
               a in s.agreements && s.agreements[a].member != m
    ensures FamilyTier(s, season, firstDue, m) == 0
  {
    assert forall a :: Own(s, season, firstDue, m, a) ==> a in Candidates(s, s.members[m].guardian, season, firstDue);
  }

  lemma LeastIsBefore(s: State, guardian: int, season: Option<string>, firstDue: Date, rest: set<int>, a: int)
    requires OneCurrent(s.agreements) && rest <= Candidates(s, guardian, season, firstDue) && a in rest
    requires forall b :: b in rest ==> !Before(s.agreements[b], s.agreements[a])
    ensures forall b :: b in rest && b != a ==> Before(s.agreements[a], s.agreements[b])
  {
    forall b | b in rest && b != a ensures s.agreements[b].member != s.agreements[a].member {
      assert b in Candidates(s, guardian, season, firstDue) && a in Candidates(s, guardian, season, firstDue);
      var m := s.agreements[a].member;
      if s.agreements[b].member == m {
        assert IsCurrent(s.agreements, m, a) && IsCurrent(s.agreements, m, b);
      }
    }
  }

  /** The rows walked before the member's own are exactly the earlier ones. */
  lemma OwnRank(s: State, season: Option<string>, firstDue: Date, m: int, a: int, done: set<int>, rest: set<int>)
    requires m in s.members && OneCurrent(s.agreements)
    requires a in s.agreements && a in rest && s.agreements[a].member == m
    requires var all := Candidates(s, s.members[m].guardian, season, firstDue);
             && rest <= all && done <= all && (forall b :: b in all ==> (b in done <==> b !in rest))
             && (forall b :: b in rest ==> !Before(s.agreements[b], s.agreements[a]))
             && (forall b :: b in done ==> Before(s.agreements[b], s.agreements[a]))
    ensures FamilyTier(s, season, firstDue, m) == Min(|done|, MAX_TIER)
  {
    var guardian := s.members[m].guardian;
    assert a in Candidates(s, guardian, season, firstDue);
    assert Own(s, season, firstDue, m, a);
    forall b | Own(s, season, firstDue, m, b) ensures b == a {
      OwnUnique(s, season, firstDue, m, a, b);
    }
    SetExt(Earlier(s, guardian, season, firstDue, a), done) by {
      hide Candidate, Before;
      forall b ensures b in Earlier(s, guardian, season, firstDue, a) <==> b in done {
        if b in Earlier(s, guardian, season, firstDue, a) {
          assert b in Candidates(s, guardian, season, firstDue);
        }
        if b in done {
          assert b in Candidates(s, guardian, season, firstDue);
        }
      }
    }
  }
}
