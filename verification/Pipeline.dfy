/** How the admin hub matches a member's records to the current agreement's season. */
module Pipeline {
  import opened Wrappers
  import opened Text
  import opened Domain
  import opened Seasons
  import opened Machine

  /** A member's records, each once, in season order. */
  ghost predicate Listing(records: map<int, Record>, m: int, ordered: seq<int>) {
    && (forall i :: 0 <= i < |ordered| ==> ordered[i] in records && records[ordered[i]].member == m)
    && (forall i, j :: 0 <= i < j < |ordered| ==> !StrLess(records[ordered[j]].season, records[ordered[i]].season))
    && (forall r :: r in records && records[r].member == m ==> r in ordered)
  }

  /** The season of the current agreement's plan, blank without one. */
  function CurrentSeason(s: State, current: Option<int>): string {
    if current.Some? && current.value in s.agreements && s.agreements[current.value].plan.Some?
       && s.agreements[current.value].plan.value in s.plans
    then s.plans[s.agreements[current.value].plan.value].season
    else ""
  }

  datatype Matched = Matched(billing: Option<int>, next: Option<int>, mismatched: Option<int>)

  predicate IsNext(records: map<int, Record>, season: string, r: int) {
    r in records && season != "" && records[r].season != season && StrLess(season, records[r].season)
  }

  predicate IsMismatched(records: map<int, Record>, season: string, current: Option<int>, r: int) {
    && r in records && season != "" && records[r].season != season && !StrLess(season, records[r].season)
    && current.Some? && records[r].agreement == current
  }

  /** The earliest of the member's records with a property, if it has one at all. */
  ghost predicate IsEarliest(records: map<int, Record>, m: int, found: Option<int>, has: int -> bool) {
    && (found.Some? ==> found.value in records && records[found.value].member == m && has(found.value))
    && (found.Some? ==> forall r :: r in records && records[r].member == m && has(r) ==>
          !StrLess(records[r].season, records[found.value].season))
    && (found.None? ==> forall r :: r in records && records[r].member == m ==> !has(r))
  }

  /** What the hub must find: the record of the current season, the earliest later one
      and the earliest one linked to the current agreement under an older season;
      without a season, simply the earliest record. */
  ghost predicate MatchedRight(s: State, m: int, current: Option<int>, x: Matched) {
    var season := CurrentSeason(s, current);
    && (season != "" ==>
          && (x.billing.Some? ==> IsRecordOf(s.records, m, season, x.billing.value))
          && (x.billing.None? ==> !HasRecord(s.records, m, season)))
    && (season == "" ==> IsEarliest(s.records, m, x.billing, r => true))
    && IsEarliest(s.records, m, x.next, r => IsNext(s.records, season, r))
    && IsEarliest(s.records, m, x.mismatched, r => IsMismatched(s.records, season, current, r))
  }

  method LoadPipelineObjects(s: State, m: int, current: Option<int>, ordered: seq<int>) returns (x: Matched)
    requires Listing(s.records, m, ordered)
    ensures MatchedRight(s, m, current, x)
  {
    hide StrLess, FirstOf, IsEarliest, CurrentSeason;
    var season := CurrentSeason(s, current);
    var billing: Option<int>, next: Option<int>, mismatched: Option<int> := None, None, None;
    ghost var any := r => true;
    ghost var later := r => IsNext(s.records, season, r);
    ghost var stray := r => IsMismatched(s.records, season, current, r);
    NothingSeen(ordered, later);
    NothingSeen(ordered, stray);
    for i := 0 to |ordered|
      invariant billing.Some? ==> season != "" && IsRecordOf(s.records, m, season, billing.value)
      invariant billing.None? && season != "" ==> forall k :: 0 <= k < i ==> s.records[ordered[k]].season != season
      invariant FirstOf(ordered, i, next, later) && FirstOf(ordered, i, mismatched, stray)
    {
      var r := ordered[i];
      var record := s.records[r];
      OneMoreSeen(ordered, i, next, later);
      OneMoreSeen(ordered, i, mismatched, stray);
      if season != "" && record.season == season {
        billing := Some(r);
      } else if season != "" && StrLess(season, record.season) {
        if next.None? {
          next := Some(r);
        }
      } else if season != "" && current.Some? && record.agreement == current {
        if mismatched.None? {
          mismatched := Some(r);
        }
      }
    }
    if billing.None? && ordered != [] && season == "" {
      billing := Some(ordered[0]);
    }
    if season == "" {
      FirstRecord(ordered, any);
      FirstIsEarliest(s.records, m, ordered, billing, any);
    }
    FirstIsEarliest(s.records, m, ordered, next, later);
    FirstIsEarliest(s.records, m, ordered, mismatched, stray);
    return Matched(billing, next, mismatched);
  }

  /** The first of the first `i` records with a property, if any of them has it. */
  ghost predicate FirstOf(ordered: seq<int>, i: nat, found: Option<int>, has: int -> bool)
    requires i <= |ordered|
  {
    match found
    case Some(r) => exists k :: 0 <= k < i && ordered[k] == r && has(r) && forall j :: 0 <= j < k ==> !has(ordered[j])
    case None => forall j :: 0 <= j < i ==> !has(ordered[j])
  }

  lemma NothingSeen(ordered: seq<int>, has: int -> bool)
    ensures FirstOf(ordered, 0, None, has)
  {
  }

  lemma OneMoreSeen(ordered: seq<int>, i: nat, found: Option<int>, has: int -> bool)
    requires i < |ordered| && FirstOf(ordered, i, found, has)
    ensures FirstOf(ordered, i + 1, if found.None? && has(ordered[i]) then Some(ordered[i]) else found, has)
  {
  }

  lemma FirstRecord(ordered: seq<int>, has: int -> bool)
    requires forall r :: has(r)
    ensures FirstOf(ordered, |ordered|, if ordered == [] then None else Some(ordered[0]), has)
  {
  }

  /** In season order, the first record with a property is the earliest one. */
  lemma FirstIsEarliest(records: map<int, Record>, m: int, ordered: seq<int>, found: Option<int>, has: int -> bool)
    requires Listing(records, m, ordered) && FirstOf(ordered, |ordered|, found, has)
    ensures IsEarliest(records, m, found, has)
  {
    hide StrLess;
    if found.Some? {
      var k :| 0 <= k < |ordered| && ordered[k] == found.value && has(found.value) && forall j :: 0 <= j < k ==> !has(ordered[j]);
      forall r | r in records && records[r].member == m && has(r)
        ensures !StrLess(records[r].season, records[ordered[k]].season)
      {
        var j :| 0 <= j < |ordered| && ordered[j] == r;
        SameNotLess(records[r].season);
      }
    }
  }

  lemma {:induction false} SameNotLess(x: string)
    ensures !StrLess(x, x)
  {
    if x != "" {
      SameNotLess(x[1..]);
    }
  }

  /** In every run that strands nobody, the hub finds the billing record of a signed
      current agreement whose draft is no longer due, and it is the only one. */
  lemma SignedBillingIsFound(s0: State, steps: seq<Step>, a: int, season: string, x: Matched)
    requires Initial(s0) && Locked(s0, steps) && NothingStranded(s0, steps)
    requires SignedFor(Run(s0, steps), a, season) && season != "" && !Awaits(Run(s0, steps), a)
    requires MatchedRight(Run(s0, steps), Run(s0, steps).agreements[a].member, Some(a), x)
    ensures var t := Run(s0, steps);
            var m := t.agreements[a].member;
            && x.billing.Some? && IsRecordOf(t.records, m, season, x.billing.value)
            && forall q :: IsRecordOf(t.records, m, season, q) ==> q == x.billing.value
  {
    hide Run, Locked, NothingStranded, Initial, IsEarliest, Awaits;
    SignedMeansOneRecord(s0, steps, a, season);
  }
}
