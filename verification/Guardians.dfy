/** Guardian consolidation: orphan guardians are resolved to accounts by e-mail,
    guardians that share an account are merged, and account phones are filled. */
module Guardians {
  import opened Wrappers
  import opened Keys
  import opened Text

  datatype Guardian = Guardian(email: string, phone: string, clientId: string, account: Option<int>)

  datatype Account = Account(email: string, phone: string)

  function LowerChar(c: char): char {
    if 'A' <= c <= 'Z' then c + 32 as char else c
  }

  function Lower(s: string): string {
    seq(|s|, i requires 0 <= i < |s| => LowerChar(s[i]))
  }

  predicate Blank(s: string) {
    Strip(s) == ""
  }

  /** (guardian.email or "").strip().lower() */
  function Email(g: Guardian): string {
    Lower(Strip(g.email))
  }

  function Placeholder(id: int): string {
    "guardian-" + (if id < 0 then "-" + Digits(-id) else Digits(id)) + "@placeholder.invalid"
  }

  /** Two letters that are the same but for their case. */
  predicate SameLetter(c: char, d: char) {
    c == d || ('A' <= c <= 'Z' && d as int == c as int + 32) || ('A' <= d <= 'Z' && c as int == d as int + 32)
  }

  /** Accounts match e-mails whatever the case, and by nothing less than the letters. */
  lemma LowerFoldsCase(s: string, t: string)
    ensures Lower(s) == Lower(t) <==> |s| == |t| && forall i :: 0 <= i < |s| ==> SameLetter(s[i], t[i])
    ensures forall i :: 0 <= i < |s| ==> !('A' <= Lower(s)[i] <= 'Z')
  {
    if |s| == |t| {
      forall i | 0 <= i < |s| ensures SameLetter(s[i], t[i]) <==> Lower(s)[i] == Lower(t)[i] {
      }
    } else {
      assert |Lower(s)| == |s| && |Lower(t)| == |t|;
    }
  }

  /** Two guardians are matched by e-mail exactly when the texts between the spaces are the
      same but for case. */
  lemma EmailsMatchExactly(g: Guardian, h: Guardian)
    ensures Email(g) == Email(h) <==>
              |Strip(g.email)| == |Strip(h.email)|
              && forall i :: 0 <= i < |Strip(g.email)| ==> SameLetter(Strip(g.email)[i], Strip(h.email)[i])
    ensures Email(g) == "" <==> forall i :: 0 <= i < |g.email| ==> IsSpace(g.email[i])
  {
    hide Strip, Lower, SameLetter;
    LowerFoldsCase(Strip(g.email), Strip(h.email));
    LowerLength(Strip(g.email));
    var _, _ := StripExactly(g.email);
  }

  lemma LowerLength(s: string)
    ensures |Lower(s)| == |s|
  {
  }

  /** What the placeholder of a guardian looks like. */
  lemma PlaceholderOfSeven()
    ensures Placeholder(7) == "guardian-7@placeholder.invalid"
  {
    assert Digits(7) == "7";
  }

  lemma LowerIdempotent(s: string)
    ensures Lower(Lower(s)) == Lower(s)
  {
  }

  lemma LowerDigits(s: string)
    requires AllDigits(s)
    ensures Lower(s) == s
  {
    assert forall i :: 0 <= i < |s| ==> IsDigit(s[i]) && LowerChar(s[i]) == s[i];
  }

  lemma PlaceholderIsLower(id: int)
    ensures Lower(Placeholder(id)) == Placeholder(id)
  {
    var n := if id < 0 then "-" + Digits(-id) else Digits(id);
    LowerDigits(Digits(if id < 0 then -id else id));
    LowerConcat("-", Digits(if id < 0 then -id else id));
    LowerConcat("guardian-", n);
    LowerConcat("guardian-" + n, "@placeholder.invalid");
    assert Lower("-") == "-" && Lower("guardian-") == "guardian-" && Lower("@placeholder.invalid") == "@placeholder.invalid";
    hide Lower;
  }

  lemma LowerConcat(a: string, b: string)
    ensures Lower(a + b) == Lower(a) + Lower(b)
  {
  }

  lemma PlaceholderInjective(a: int, b: int)
    requires Placeholder(a) == Placeholder(b)
    ensures a == b
  {
    hide Digits;
    var x := if a < 0 then "-" + Digits(-a) else Digits(a);
    var y := if b < 0 then "-" + Digits(-b) else Digits(b);
    assert |x| == |y|;
    assert x == Placeholder(a)[9..9 + |x|] && y == Placeholder(b)[9..9 + |y|];
    assert IsDigit(Digits(if a < 0 then -a else a)[0]) && IsDigit(Digits(if b < 0 then -b else b)[0]);
    assert (a < 0 <==> x[0] == '-') && (b < 0 <==> y[0] == '-');
    ValueDigits(if a < 0 then -a else a);
    ValueDigits(if b < 0 then -b else b);
    if a < 0 {
      assert x[1..] == Digits(-a) && y[1..] == Digits(-b);
    }
  }

  // ---- what a group is and who survives ----

  function Children(members: map<int, int>, g: int): set<int> {
    set m | m in members && members[m] == g
  }

  /** The lowest id among those with an external client; without one, the guardian
      with the most children, the lowest id first. */
  ghost predicate IsSurvivor(guardians: map<int, Guardian>, members: map<int, int>, group: set<int>, s: int)
    requires group <= guardians.Keys
  {
    && s in group
    && if exists g :: g in group && !Blank(guardians[g].clientId) then
         && !Blank(guardians[s].clientId)
         && (forall g :: g in group && !Blank(guardians[g].clientId) ==> s <= g)
       else
         forall g :: g in group ==>
           || |Children(members, g)| < |Children(members, s)|
           || (|Children(members, g)| == |Children(members, s)| && s <= g)
  }

  /** Who survives of two, in the cases the rule distinguishes: with a client on either
      side, whoever has one, or of two the lower id; without, whoever has more children,
      and with as many the lower id. */
  lemma SurvivorOfTwo(guardians: map<int, Guardian>, members: map<int, int>, g: int, h: int)
    requires g in guardians && h in guardians && g < h
    ensures var (x, y) := (!Blank(guardians[g].clientId), !Blank(guardians[h].clientId));
            var (m, n) := (|Children(members, g)|, |Children(members, h)|);
            && (IsSurvivor(guardians, members, {g, h}, g) <==> x || (!y && m >= n))
            && (IsSurvivor(guardians, members, {g, h}, h) <==> !x && (y || n > m))
  {
    hide Blank, Children;
    assert {g, h} <= guardians.Keys;
  }

  ghost function Group(accountOf: map<int, int>, a: int): set<int> {
    set g | g in accountOf && accountOf[g] == a
  }

  /** The lookup by e-mail, ignoring case: the matching account of lowest id. */
  ghost predicate FirstMatch(accounts: map<int, Account>, email: string, a: int) {
    && a in accounts && Lower(accounts[a].email) == Lower(email)
    && forall b :: b in accounts && Lower(accounts[b].email) == Lower(email) ==> a <= b
  }

  ghost predicate NoMatch(accounts: map<int, Account>, email: string) {
    forall b :: b in accounts ==> Lower(accounts[b].email) != Lower(email)
  }

  /** Foreign keys point at rows, an account has at most one guardian. */
  ghost predicate Linked(guardians: map<int, Guardian>, accounts: map<int, Account>,
                         members: map<int, int>, applications: map<int, Option<int>>) {
    && (forall g :: g in guardians && guardians[g].account.Some? ==> guardians[g].account.value in accounts)
    && OneGuardianEach(guardians)
    && (forall m :: m in members ==> members[m] in guardians)
    && (forall p :: p in applications && applications[p].Some? ==> applications[p].value in guardians)
  }

  ghost predicate OneGuardianEach(guardians: map<int, Guardian>) {
    forall g, h :: g in guardians && h in guardians && g != h && guardians[g].account.Some? ==>
      guardians[g].account != guardians[h].account
  }

  ghost predicate NoOrphans(guardians: map<int, Guardian>) {
    forall g :: g in guardians ==> guardians[g].account.Some?
  }

  ghost predicate PhonesFilled(guardians: map<int, Guardian>, accounts: map<int, Account>) {
    forall g ::
      g in guardians && guardians[g].account.Some? && guardians[g].account.value in accounts ==>
      Blank(accounts[guardians[g].account.value].phone) ==> Blank(guardians[g].phone)
  }

  /** The unique-e-mail collision that aborts the run: the placeholder of a blank
      guardian is an account's e-mail, or became one earlier in the same run. */
  ghost predicate PlaceholderTaken(guardians: map<int, Guardian>, accounts: map<int, Account>, orphans: seq<int>, i: int)
    requires 0 <= i < |orphans| && forall k :: 0 <= k < |orphans| ==> orphans[k] in guardians
  {
    && Email(guardians[orphans[i]]) == ""
    && var p := Placeholder(orphans[i]);
    || (exists a :: a in accounts && accounts[a].email == p)
    || (NoMatch(accounts, p) && exists k :: 0 <= k < i && Email(guardians[orphans[k]]) == p)
  }

  class Tables {
    var guardians: map<int, Guardian>
    var accounts: map<int, Account>
    var members: map<int, int>
    var applications: map<int, Option<int>>
    var nextAccount: int

    ghost predicate Valid()
      reads this
    {
      && Linked(guardians, accounts, members, applications)
      && forall a :: a in accounts ==> a < nextAccount
    }

    method FindAccount(email: string) returns (r: Option<int>)
      ensures r.None? ==> NoMatch(accounts, email)
      ensures r.Some? ==> FirstMatch(accounts, email, r.value)
    {
      hide Lower;
      r := None;
      var rest := accounts.Keys;
      while rest != {}
        invariant rest <= accounts.Keys
        invariant r.None? ==> forall b :: b in accounts && b !in rest ==> Lower(accounts[b].email) != Lower(email)
        invariant r.Some? ==> r.value in accounts && Lower(accounts[r.value].email) == Lower(email)
        invariant r.Some? ==> forall b :: b in accounts && b !in rest && Lower(accounts[b].email) == Lower(email) ==> r.value <= b
      {
        NonEmpty(rest);
        var a :| a in rest;
        if Lower(accounts[a].email) == Lower(email) && (r.None? || a < r.value) {
          r := Some(a);
        }
        rest := rest - {a};
      }
    }

    /** The insert the unique e-mail constraint guards. */
    method CreateAccount(email: string, phone: string) returns (r: Option<int>)
      requires forall a :: a in accounts ==> a < nextAccount
      modifies this`accounts, this`nextAccount
      ensures r.None? <==> exists a :: a in old(accounts) && old(accounts)[a].email == email
      ensures r.None? ==> accounts == old(accounts) && nextAccount == old(nextAccount)
      ensures r.Some? ==> r.value == old(nextAccount) && r.value !in old(accounts)
      ensures r.Some? ==> accounts == old(accounts)[r.value := Account(email, phone)]
      ensures forall a :: a in accounts ==> a < nextAccount
    {
      if exists a :: a in accounts && accounts[a].email == email {
        return None;
      }
      r := Some(nextAccount);
      accounts := accounts[nextAccount := Account(email, phone)];
      nextAccount := nextAccount + 1;
    }

    /** Step 1, first half: every orphan gets the account its e-mail names, or a
        new one. Fails exactly when a placeholder e-mail is taken. */
    method ResolveOrphans(orphans: seq<int>)
      returns (ok: bool, byAccount: map<int, seq<int>>, order: seq<int>, ghost accountOf: map<int, int>)
      requires Valid() && NoDuplicates(orphans)
      requires forall k :: 0 <= k < |orphans| ==> orphans[k] in guardians
      modifies this`accounts, this`nextAccount
      ensures ok <==> !exists i :: 0 <= i < |orphans| && PlaceholderTaken(guardians, old(accounts), orphans, i)
      ensures ok ==> ResolvedAll(guardians, old(accounts), accounts, orphans, |orphans|, accountOf)
      ensures ok ==> Grouped(byAccount, order, accountOf)
      ensures ok ==> Valid()
    {
      hide Email, Placeholder, NoMatch, FirstMatch, ResolvedAll, Grouped, PlaceholderTaken;
      ghost var people, before := guardians, accounts;
      byAccount, order, accountOf := map[], [], map[];
      NothingResolved(people, before, orphans);
      ok := true;
      for i := 0 to |orphans|
        invariant people == guardians && forall k :: 0 <= k < |orphans| ==> orphans[k] in people
        invariant ResolvedAll(people, before, accounts, orphans, i, accountOf)
        invariant Grouped(byAccount, order, accountOf)
        invariant forall a :: a in accounts ==> a < nextAccount
        invariant forall a :: a in before ==> a in accounts
        invariant forall k :: 0 <= k < i ==> !PlaceholderTaken(people, before, orphans, k)
      {
        var g := orphans[i];
        var email := Email(guardians[g]);
        var found := None;
        ghost var was := accounts;
        if email != "" {
          found := FindAccount(email);
        }
        if found.None? {
          found := CreateAccount(if email != "" then email else Placeholder(g), guardians[g].phone);
          if found.None? {
            CreateRefused(people, before, accounts, orphans, i, accountOf);
            ok := false;
            assert PlaceholderTaken(guardians, old(accounts), orphans, i);
            return;
          }
        }
        var a := found.value;
        ResolvedStep(people, before, was, accounts, orphans, i, accountOf, a);
        GroupedStep(byAccount, order, accountOf, a, g) by {
          NotYetResolved(people, before, was, orphans, i, accountOf);
        }
        accountOf := accountOf[g := a];
        if a !in byAccount {
          order := order + [a];
          byAccount := byAccount[a := [g]];
        } else {
          byAccount := byAccount[a := byAccount[a] + [g]];
        }
      }
    }

    method PickSurvivor(group: seq<int>, ghost all: set<int>) returns (s: int)
      requires group != [] && all <= guardians.Keys
      requires forall k :: 0 <= k < |group| ==> group[k] in all
      requires forall g :: g in all ==> g in group
      ensures s in all && IsSurvivor(guardians, members, all, s)
    {
      hide Blank;
      var best := None;
      for k := 0 to |group|
        invariant best.Some? ==> best.value in all && !Blank(guardians[best.value].clientId)
        invariant forall l :: 0 <= l < k && !Blank(guardians[group[l]].clientId) ==> best.Some? && best.value <= group[l]
      {
        var g := group[k];
        if !Blank(guardians[g].clientId) && (best.None? || g < best.value) {
          best := Some(g);
        }
      }
      if best.Some? {
        return best.value;
      }
      hide Children;
      s := group[0];
      for k := 1 to |group|
        invariant s in all
        invariant forall l :: 0 <= l < k ==>
          || |Children(members, group[l])| < |Children(members, s)|
          || (|Children(members, group[l])| == |Children(members, s)| && s <= group[l])
      {
        var g := group[k];
        var n, best := |Children(members, g)|, |Children(members, s)|;
        if n > best || (n == best && g < s) {
          s := g;
        }
      }
    }

    /** Deletion as the foreign keys make it: an application protects its guardian,
        a member goes with it. */
    method DeleteGuardian(g: int) returns (ok: bool)
      requires g in guardians
      modifies this`guardians, this`members
      ensures ok <==> forall p :: p in applications ==> applications[p] != Some(g)
      ensures !ok ==> guardians == old(guardians) && members == old(members)
      ensures ok ==> guardians == old(guardians) - {g}
      ensures ok ==> members == map m | m in old(members) && old(members)[m] != g :: old(members)[m]
    {
      if exists p :: p in applications && applications[p] == Some(g) {
        return false;
      }
      members := map m | m in members && members[m] != g :: members[m];
      guardians := guardians - {g};
      return true;
    }

    /** Repoint the loser's children and applications, then delete it: the cascade
        finds nothing left to take. */
    method MergeInto(loser: int, survivor: int)
      requires loser in guardians && survivor in guardians && loser != survivor
      modifies this`guardians, this`members, this`applications
      ensures guardians == (old(guardians) - {loser})[survivor := Absorb(old(guardians)[survivor], old(guardians)[loser])]
      ensures members == Repoint(old(members), loser, survivor)
      ensures applications == RepointSome(old(applications), loser, survivor)
    {
      hide Blank;
      members := Repoint(members, loser, survivor);
      applications := RepointSome(applications, loser, survivor);
      if Blank(guardians[survivor].clientId) && !Blank(guardians[loser].clientId) {
        guardians := guardians[survivor := guardians[survivor].(clientId := guardians[loser].clientId)];
      }
      var ok := DeleteGuardian(loser);
      assert members == Repoint(old(members), loser, survivor);
    }

    /** One group of step 1: the survivor takes the account and everyone's children
        and applications; the others are gone. Its external client never changes. */
    method MergeGroup(a: int, group: seq<int>, ghost all: set<int>) returns (s: int)
      requires group != [] && NoDuplicates(group) && all <= guardians.Keys
      requires forall k :: 0 <= k < |group| ==> group[k] in all
      requires forall g :: g in all ==> g in group
      modifies this`guardians, this`members, this`applications
      ensures IsSurvivor(old(guardians), old(members), all, s)
      ensures MergedGroup(old(Rows()), Rows(), all, a, s)
    {
      hide Blank, Children, IsSurvivor;
      s := PickSurvivor(group, all);
      SurvivorHasClient(guardians, members, all, s);
      ghost var people, children, apps := guardians, members, applications;
      ghost var done: set<int> := {};
      for k := 0 to |group|
        invariant done <= all && forall g :: g in all ==> (g in done <==> g !in Rest(group, k))
        invariant guardians.Keys == people.Keys - (done - {s})
        invariant forall g :: g in guardians ==> guardians[g] == people[g]
        invariant members.Keys == children.Keys
        invariant forall m :: m in members ==> members[m] == if children[m] in done then s else children[m]
        invariant applications.Keys == apps.Keys
        invariant forall p :: p in applications ==>
                    applications[p] == if MovesWith(apps[p], done) then Some(s) else apps[p]
      {
        var loser := group[k];
        RestStep(group, k);
        assert loser in group;
        assert loser in Rest(group, k);
        if loser != s {
          MergeInto(loser, s);
        }
        done := done + {loser};
      }
      assert done == all by {
        assert forall g :: g in all ==> g !in Rest(group, |group|);
      }
      guardians := guardians[s := guardians[s].(account := Some(a))];
    }

    method FindOwner(a: int) returns (r: Option<int>)
      ensures r.None? ==> forall g :: g in guardians ==> guardians[g].account != Some(a)
      ensures r.Some? ==> r.value in guardians && guardians[r.value].account == Some(a)
    {
      var rest := guardians.Keys;
      while rest != {}
        invariant rest <= guardians.Keys
        invariant forall g :: g in guardians && g !in rest ==> guardians[g].account != Some(a)
      {
        NonEmpty(rest);
        var g :| g in rest;
        if guardians[g].account == Some(a) {
          return Some(g);
        }
        rest := rest - {g};
      }
      return None;
    }

    /** Step 2: an account without a phone takes its guardian's. */
    method BackfillPhones()
      requires Linked(guardians, accounts, members, applications)
      modifies this`accounts
      ensures accounts.Keys == old(accounts).Keys
      ensures forall a :: a in accounts ==> PhoneKept(guardians, old(accounts)[a], accounts[a], a)
      ensures PhonesFilled(guardians, accounts)
    {
      hide Blank;
      var rest := guardians.Keys;
      while rest != {}
        invariant rest <= guardians.Keys
        invariant accounts.Keys == old(accounts).Keys
        invariant forall a :: a in accounts ==> PhoneKept(guardians, old(accounts)[a], accounts[a], a)
        invariant forall g :: g in guardians && g !in rest && guardians[g].account.Some? && guardians[g].account.value in accounts ==>
                    Blank(accounts[guardians[g].account.value].phone) ==> Blank(guardians[g].phone)
      {
        NonEmpty(rest);
        var g :| g in rest;
        if guardians[g].account.Some? {
          var a := guardians[g].account.value;
          if Blank(accounts[a].phone) && !Blank(guardians[g].phone) {
            accounts := accounts[a := accounts[a].(phone := guardians[g].phone)];
          }
        }
        rest := rest - {g};
      }
    }

    ghost function Rows(): Snapshot
      reads this
    {
      Snapshot(guardians, accounts, members, applications)
    }

    /** The whole consolidation; a refused insert rolls the transaction back. */
    method ConsolidateGuardians(orphans: seq<int>)
      returns (r: Result<()>, ghost accountOf: map<int, int>, ghost survivorOf: map<int, int>)
      requires Valid() && ListsOrphans(guardians, orphans)
      modifies this
      ensures r.Ok? <==> !exists i :: 0 <= i < |orphans| && PlaceholderTaken(old(guardians), old(accounts), orphans, i)
      ensures r.Err? ==> Rows() == old(Rows())
      ensures r.Ok? ==> Consolidated(old(Rows()), Rows(), accountOf, survivorOf)
      ensures Valid()
    {
      hide SurvivorMap, GuardiansMerged, Repointed, OrphansResolved, Grouped, ResolvedAll, PlaceholderTaken, Group, Linked,
           Consolidated, PhonesFilled, PhoneKept, AccountOf, MergedAll, Resolved, IsSurvivor;
      ghost var before := Rows();
      var accountsBefore, nextBefore := accounts, nextAccount;
      survivorOf := map[];
      var ok, byAccount, order;
      ok, byAccount, order, accountOf := ResolveOrphans(orphans);
      if !ok {
        accounts, nextAccount := accountsBefore, nextBefore;
        return Err(Duplicate), accountOf, survivorOf;
      }
      ghost var resolved, created := accountOf, accounts;
      AllResolved(before, accounts, orphans, resolved);
      OrphansKnown(before, accounts, resolved);
      accountOf := AccountOf(before.guardians, resolved);
      survivorOf := map g | g in before.guardians :: g;
      ghost var done: set<int> := {};
      NothingMerged(before, Rows(), resolved);
      OrderStart(byAccount, order, resolved);
      for k := 0 to |order|
        invariant accounts == created && forall a :: a in accounts ==> a < nextAccount
        invariant SurvivorMap(before.guardians, before.members, accountOf, survivorOf, done)
        invariant GuardiansMerged(before.guardians, guardians, accountOf, survivorOf, done)
        invariant Repointed(before, Rows(), survivorOf)
        invariant done == byAccount.Keys - Rest(order, k)
      {
        var a := order[k];
        OrderStep(byAccount, order, resolved, k);
        var existing := FindOwner(a);
        GroupIs(before, guardians, accountOf, survivorOf, done, accounts, byAccount, order, resolved, a, existing);
        var group := byAccount[a] + (if existing.Some? then [existing.value] else []);
        ghost var was := Rows();
        var s := MergeGroup(a, group, Group(accountOf, a));
        MergeStep(before, was, Rows(), accountOf, survivorOf, done, a, s);
        survivorOf := Redirect(accountOf, survivorOf, a, s);
        done := done + {a};
      }
      OrderDone(byAccount, order, resolved);
      ghost var merged := Rows();
      MergedLinked(before, merged, accountOf, survivorOf, done, resolved);
      BackfillPhones();
      LinkedFrame(merged, Rows());
      Finish(before, merged, Rows(), accountOf, survivorOf, resolved);
      return Ok(()), accountOf, survivorOf;
    }
  }

  datatype Snapshot = Snapshot(
    guardians: map<int, Guardian>,
    accounts: map<int, Account>,
    members: map<int, int>,
    applications: map<int, Option<int>>
  )

  ghost predicate ListsOrphans(guardians: map<int, Guardian>, orphans: seq<int>) {
    && NoDuplicates(orphans)
    && (forall k :: 0 <= k < |orphans| ==> orphans[k] in guardians && guardians[orphans[k]].account.None?)
    && (forall g :: g in guardians && guardians[g].account.None? ==> exists k :: 0 <= k < |orphans| && orphans[k] == g)
  }

  /** A phone changes only from blank, and only to the phone of its guardian. */
  ghost predicate PhoneKept(guardians: map<int, Guardian>, before: Account, after: Account, a: int) {
    && after.email == before.email
    && (after.phone != before.phone ==>
          && Blank(before.phone)
          && exists g :: g in guardians && guardians[g].account == Some(a) && guardians[g].phone == after.phone && !Blank(after.phone))
  }

  /** Where every guardian ends up: its own account, or the one it resolved to. */
  ghost function AccountOf(guardians: map<int, Guardian>, resolved: map<int, int>): map<int, int>
    requires forall g :: g in guardians && guardians[g].account.None? ==> g in resolved
  {
    map g | g in guardians :: if guardians[g].account.Some? then guardians[g].account.value else resolved[g]
  }

  /** The groups of the accounts in `done` have their survivor; the other guardians
      still stand for themselves. */
  ghost predicate SurvivorMap(people: map<int, Guardian>, children: map<int, int>,
                              accountOf: map<int, int>, survivorOf: map<int, int>, done: set<int>) {
    && accountOf.Keys == people.Keys && survivorOf.Keys == people.Keys
    && (forall g :: g in people ==> survivorOf[g] in people && accountOf[survivorOf[g]] == accountOf[g])
    && (forall g :: g in people && accountOf[g] !in done ==> survivorOf[g] == g)
    && (forall g :: g in people && accountOf[g] in done ==>
          IsSurvivor(people, children, Group(accountOf, accountOf[g]), survivorOf[g]))
    && (forall g, h :: g in people && h in people && accountOf[g] == accountOf[h] && accountOf[g] in done ==>
          survivorOf[g] == survivorOf[h])
  }

  ghost predicate GuardiansMerged(people: map<int, Guardian>, guardians: map<int, Guardian>,
                                  accountOf: map<int, int>, survivorOf: map<int, int>, done: set<int>)
  {
    && accountOf.Keys == people.Keys && survivorOf.Keys == people.Keys
    && (forall g :: g in guardians <==> g in people && survivorOf[g] == g)
    && (forall g :: g in guardians ==>
          guardians[g] == if accountOf[g] in done then people[g].(account := Some(accountOf[g])) else people[g])
  }

  /** No child and no application is lost; each points at the survivor. */
  ghost predicate Repointed(before: Snapshot, after: Snapshot, survivorOf: map<int, int>) {
    && after.members.Keys == before.members.Keys
    && (forall m :: m in before.members ==>
          before.members[m] in survivorOf && after.members[m] == survivorOf[before.members[m]])
    && after.applications.Keys == before.applications.Keys
    && (forall p :: p in before.applications ==>
          if before.applications[p].None? then after.applications[p].None?
          else before.applications[p].value in survivorOf
               && after.applications[p] == Some(survivorOf[before.applications[p].value]))
  }

  /** Two guardians have one survivor exactly when they have one account. */
  ghost predicate OneSurvivor(people: map<int, Guardian>, accountOf: map<int, int>, survivorOf: map<int, int>)
    requires accountOf.Keys == people.Keys && survivorOf.Keys == people.Keys
  {
    forall g, h :: g in people && h in people ==> (survivorOf[g] == survivorOf[h] <==> accountOf[g] == accountOf[h])
  }

  ghost predicate AllSurvive(people: map<int, Guardian>, children: map<int, int>, accountOf: map<int, int>,
                             survivorOf: map<int, int>)
    requires accountOf.Keys == people.Keys && survivorOf.Keys == people.Keys
  {
    forall g :: g in people ==> IsSurvivor(people, children, Group(accountOf, accountOf[g]), survivorOf[g])
  }

  /** The outcome: one guardian per account, the survivor of its group; every child
      and application kept and pointing at the survivor of its old guardian's group. */
  ghost predicate Consolidated(before: Snapshot, after: Snapshot, accountOf: map<int, int>, survivorOf: map<int, int>) {
    var people := before.guardians;
    && accountOf.Keys == people.Keys && survivorOf.Keys == people.Keys
    && (forall g :: g in people && people[g].account.Some? ==> people[g].account == Some(accountOf[g]))
    && (forall g :: g in people && people[g].account.None? ==> Resolved(people, before.accounts, after.accounts, g, accountOf))
    && OneSurvivor(people, accountOf, survivorOf)
    && AllSurvive(people, before.members, accountOf, survivorOf)
    && (forall g :: g in after.guardians <==> g in people && survivorOf[g] == g)
    && (forall g :: g in after.guardians ==>
          accountOf[g] in after.accounts && after.guardians[g] == people[g].(account := Some(accountOf[g])))
    && Repointed(before, after, survivorOf)
    && (forall a :: a in before.accounts ==>
          a in after.accounts && PhoneKept(after.guardians, before.accounts[a], after.accounts[a], a))
    && (forall a :: a in after.accounts && a !in before.accounts ==>
          exists g :: g in people && people[g].account.None? && accountOf[g] == a)
    && PhonesFilled(after.guardians, after.accounts)
  }

  // ---- the steps of the consolidation ----

  ghost predicate OrphansResolved(before: Snapshot, accounts: map<int, Account>, resolved: map<int, int>) {
    && (forall g :: g in before.guardians && before.guardians[g].account.None? ==>
          g in resolved && Resolved(before.guardians, before.accounts, accounts, g, resolved))
    && (forall g :: g in resolved ==> g in before.guardians && before.guardians[g].account.None?)
    && (forall a :: a in before.accounts ==> a in accounts && accounts[a] == before.accounts[a])
    && (forall a :: a in accounts && a !in before.accounts ==>
          exists g :: g in before.guardians && before.guardians[g].account.None? && g in resolved && resolved[g] == a)
  }

  lemma OrphansKnown(before: Snapshot, accounts: map<int, Account>, resolved: map<int, int>)
    requires OrphansResolved(before, accounts, resolved)
    ensures forall g :: g in before.guardians && before.guardians[g].account.None? ==> g in resolved
  {
    hide Resolved;
  }

  lemma AllResolved(before: Snapshot, accounts: map<int, Account>, orphans: seq<int>, resolved: map<int, int>)
    requires ListsOrphans(before.guardians, orphans)
    requires ResolvedAll(before.guardians, before.accounts, accounts, orphans, |orphans|, resolved)
    ensures OrphansResolved(before, accounts, resolved)
  {
    hide Resolved, Creator;
    forall g | g in before.guardians && before.guardians[g].account.None?
      ensures g in resolved && Resolved(before.guardians, before.accounts, accounts, g, resolved)
    {
      var k :| 0 <= k < |orphans| && orphans[k] == g;
    }
    forall a | a in accounts && a !in before.accounts
      ensures exists g :: g in before.guardians && before.guardians[g].account.None? && g in resolved && resolved[g] == a
    {
      var k :| 0 <= k < |orphans| && orphans[k] in resolved && resolved[orphans[k]] == a
               && Creator(before.guardians, before.accounts, accounts[a].email, orphans[k]);
      var g := orphans[k];
      assert g in before.guardians && before.guardians[g].account.None? && resolved[g] == a;
    }
    forall g | g in resolved ensures g in before.guardians && before.guardians[g].account.None? {
      var k :| 0 <= k < |orphans| && orphans[k] == g;
    }
  }

  lemma NothingMerged(before: Snapshot, now: Snapshot, resolved: map<int, int>)
    requires Linked(before.guardians, before.accounts, before.members, before.applications)
    requires forall g :: g in before.guardians && before.guardians[g].account.None? ==> g in resolved
    requires now == before.(accounts := now.accounts)
    ensures var own := map g | g in before.guardians :: g;
            var accountOf := AccountOf(before.guardians, resolved);
            && SurvivorMap(before.guardians, before.members, accountOf, own, {})
            && GuardiansMerged(before.guardians, now.guardians, accountOf, own, {})
            && Repointed(before, now, own)
  {
    hide IsSurvivor, Group;
  }

  lemma OrderStart(byAccount: map<int, seq<int>>, order: seq<int>, resolved: map<int, int>)
    requires Grouped(byAccount, order, resolved)
    ensures byAccount.Keys - Rest(order, 0) == {}
  {
    forall a | a in byAccount ensures a in Rest(order, 0) {
      assert a in order;
    }
  }

  lemma OrderStep(byAccount: map<int, seq<int>>, order: seq<int>, resolved: map<int, int>, k: nat)
    requires Grouped(byAccount, order, resolved) && k < |order|
    ensures order[k] in byAccount && order[k] in Rest(order, k)
    ensures byAccount.Keys - Rest(order, k + 1) == byAccount.Keys - Rest(order, k) + {order[k]}
  {
    RestStep(order, k);
    var a := order[k];
    assert a in order;
  }

  lemma OrderDone(byAccount: map<int, seq<int>>, order: seq<int>, resolved: map<int, int>)
    requires Grouped(byAccount, order, resolved)
    ensures Rest(order, |order|) == {} && forall g :: g in resolved ==> resolved[g] in byAccount
  {
  }

  /** The list the loop merges is exactly the group: the orphans of the account and
      the guardian that already owned it. */
  lemma GroupIs(before: Snapshot, guardians: map<int, Guardian>, accountOf: map<int, int>, survivorOf: map<int, int>,
                done: set<int>, accounts: map<int, Account>, byAccount: map<int, seq<int>>, order: seq<int>,
                resolved: map<int, int>, a: int, existing: Option<int>)
    requires Linked(before.guardians, before.accounts, before.members, before.applications)
    requires OrphansResolved(before, accounts, resolved) && accountOf == AccountOf(before.guardians, resolved)
    requires SurvivorMap(before.guardians, before.members, accountOf, survivorOf, done)
    requires GuardiansMerged(before.guardians, guardians, accountOf, survivorOf, done)
    requires Grouped(byAccount, order, resolved) && a in byAccount && a !in done
    requires existing.None? ==> forall g :: g in guardians ==> guardians[g].account != Some(a)
    requires existing.Some? ==> existing.value in guardians && guardians[existing.value].account == Some(a)
    ensures var group := byAccount[a] + (if existing.Some? then [existing.value] else []);
            && group != [] && NoDuplicates(group) && Group(accountOf, a) <= guardians.Keys
            && (forall k :: 0 <= k < |group| ==> group[k] in Group(accountOf, a))
            && (forall g :: g in Group(accountOf, a) ==> g in group)
  {
    hide IsSurvivor, Resolved;
    var people := before.guardians;
    var rows := byAccount[a];
    forall k | 0 <= k < |rows| ensures rows[k] in Group(accountOf, a) && people[rows[k]].account.None? {
      var g := rows[k];
      assert g in rows;
    }
    if existing.Some? {
      var e := existing.value;
      assert people[e].account == Some(a) && accountOf[e] == a;
    }
    forall g | g in Group(accountOf, a) ensures g in guardians && (g in rows || existing == Some(g)) {
      if people[g].account.Some? {
        assert guardians[g].account == Some(a);
      }
    }
  }

  ghost function Redirect(accountOf: map<int, int>, survivorOf: map<int, int>, a: int, s: int): map<int, int> {
    map g | g in survivorOf && g in accountOf :: if accountOf[g] == a then s else survivorOf[g]
  }

  lemma ChildrenUnmoved(before: Snapshot, was: Snapshot, accountOf: map<int, int>, survivorOf: map<int, int>, done: set<int>, g: int)
    requires SurvivorMap(before.guardians, before.members, accountOf, survivorOf, done)
    requires Repointed(before, was, survivorOf) && g in before.guardians && accountOf[g] !in done
    ensures Children(was.members, g) == Children(before.members, g)
  {
    hide IsSurvivor;
    forall m | m in before.members ensures was.members[m] == g <==> before.members[m] == g {
      var h := before.members[m];
      assert accountOf[survivorOf[h]] == accountOf[h];
    }
  }

  lemma SameSurvivor(people: map<int, Guardian>, children: map<int, int>, guardians: map<int, Guardian>,
                     members: map<int, int>, group: set<int>, s: int)
    requires group <= people.Keys && group <= guardians.Keys && IsSurvivor(guardians, members, group, s)
    requires forall g :: g in group ==> guardians[g] == people[g] && Children(members, g) == Children(children, g)
    ensures IsSurvivor(people, children, group, s)
  {
    hide Children, Blank;
  }

  /** Merging one more group extends the survivor map by that group. */
  lemma MergeStep(before: Snapshot, was: Snapshot, now: Snapshot, accountOf: map<int, int>, survivorOf: map<int, int>,
                  done: set<int>, a: int, s: int)
    requires SurvivorMap(before.guardians, before.members, accountOf, survivorOf, done) && a !in done
    requires GuardiansMerged(before.guardians, was.guardians, accountOf, survivorOf, done)
    requires Repointed(before, was, survivorOf)
    requires Group(accountOf, a) <= was.guardians.Keys && IsSurvivor(was.guardians, was.members, Group(accountOf, a), s)
    requires MergedGroup(was, now, Group(accountOf, a), a, s)
    ensures var next := Redirect(accountOf, survivorOf, a, s);
            && SurvivorMap(before.guardians, before.members, accountOf, next, done + {a})
            && GuardiansMerged(before.guardians, now.guardians, accountOf, next, done + {a})
            && Repointed(before, now, next)
  {
    var group := Group(accountOf, a);
    var next := Redirect(accountOf, survivorOf, a, s);
    assert IsSurvivor(before.guardians, before.members, group, s) by {
      hide IsSurvivor, Children, Repointed;
      forall g | g in group
        ensures was.guardians[g] == before.guardians[g] && Children(was.members, g) == Children(before.members, g)
      {
        ChildrenUnmoved(before, was, accountOf, survivorOf, done, g);
      }
      SameSurvivor(before.guardians, before.members, was.guardians, was.members, group, s);
    }
    hide IsSurvivor, MergedGroup, Repointed, GuardiansMerged;
    SurvivorInGroup(before.guardians, before.members, group, s);
    SurvivorMapStep(before.guardians, before.members, accountOf, survivorOf, next, done, a, s);
    GuardiansStep(before.guardians, was, now, accountOf, survivorOf, next, done, a, s);
    RepointStep(before, was, now, accountOf, survivorOf, next, a, s);
  }

  lemma SurvivorMapStep(people: map<int, Guardian>, children: map<int, int>, accountOf: map<int, int>,
                        survivorOf: map<int, int>, next: map<int, int>, done: set<int>, a: int, s: int)
    requires SurvivorMap(people, children, accountOf, survivorOf, done) && s in Group(accountOf, a)
    requires IsSurvivor(people, children, Group(accountOf, a), s)
    requires next.Keys == people.Keys && forall g :: g in people ==> next[g] == if accountOf[g] == a then s else survivorOf[g]
    ensures SurvivorMap(people, children, accountOf, next, done + {a})
  {
    hide IsSurvivor;
  }

  lemma GuardiansStep(people: map<int, Guardian>, was: Snapshot, now: Snapshot, accountOf: map<int, int>,
                      survivorOf: map<int, int>, next: map<int, int>, done: set<int>, a: int, s: int)
    requires GuardiansMerged(people, was.guardians, accountOf, survivorOf, done) && a !in done
    requires forall g :: g in people ==> survivorOf[g] in people && accountOf[survivorOf[g]] == accountOf[g]
    requires forall g :: g in people && accountOf[g] !in done ==> survivorOf[g] == g
    requires MergedGroup(was, now, Group(accountOf, a), a, s) && s in Group(accountOf, a)
    requires next.Keys == people.Keys && forall g :: g in people ==> next[g] == if accountOf[g] == a then s else survivorOf[g]
    ensures GuardiansMerged(people, now.guardians, accountOf, next, done + {a})
  {
    hide MergedGroup, GuardiansMerged;
    MergedKeys(was, now, Group(accountOf, a), a, s);
    StandingBefore(people, was.guardians, accountOf, survivorOf, done);
    forall g ensures g in now.guardians <==> g in people && next[g] == g {
      if g in people {
        var h := survivorOf[g];
        assert g in Group(accountOf, a) <==> accountOf[g] == a;
      }
    }
    forall g | g in now.guardians
      ensures now.guardians[g] == if accountOf[g] in done + {a} then people[g].(account := Some(accountOf[g])) else people[g]
    {
      assert g in people;
      assert g in Group(accountOf, a) <==> accountOf[g] == a;
    }
    MergedFrom(people, now.guardians, accountOf, next, done + {a});
  }

  lemma MergedKeys(was: Snapshot, now: Snapshot, group: set<int>, a: int, s: int)
    requires MergedGroup(was, now, group, a, s)
    ensures s in was.guardians && s in now.guardians && now.guardians[s] == was.guardians[s].(account := Some(a))
    ensures forall g :: g in now.guardians <==> g in was.guardians && (g !in group || g == s)
    ensures forall g :: g in now.guardians && g != s ==> now.guardians[g] == was.guardians[g]
  {
    assert forall g :: g in now.guardians.Keys <==> g in was.guardians.Keys - (group - {s});
  }

  lemma StandingBefore(people: map<int, Guardian>, guardians: map<int, Guardian>, accountOf: map<int, int>,
                       survivorOf: map<int, int>, done: set<int>)
    requires GuardiansMerged(people, guardians, accountOf, survivorOf, done)
    ensures accountOf.Keys == people.Keys && survivorOf.Keys == people.Keys
    ensures forall g :: g in guardians <==> g in people && survivorOf[g] == g
    ensures forall g :: g in guardians ==>
              guardians[g] == if accountOf[g] in done then people[g].(account := Some(accountOf[g])) else people[g]
  {
  }

  lemma MergedFrom(people: map<int, Guardian>, guardians: map<int, Guardian>, accountOf: map<int, int>,
                   survivorOf: map<int, int>, done: set<int>)
    requires accountOf.Keys == people.Keys && survivorOf.Keys == people.Keys
    requires forall g :: g in guardians <==> g in people && survivorOf[g] == g
    requires forall g :: g in guardians ==>
               guardians[g] == if accountOf[g] in done then people[g].(account := Some(accountOf[g])) else people[g]
    ensures GuardiansMerged(people, guardians, accountOf, survivorOf, done)
  {
  }

  /** What merging one group did to the tables. */
  ghost predicate MergedGroup(was: Snapshot, now: Snapshot, group: set<int>, a: int, s: int) {
    && s in was.guardians && now.guardians.Keys == was.guardians.Keys - (group - {s}) && s in now.guardians
    && now.guardians[s] == was.guardians[s].(account := Some(a))
    && (forall g :: g in now.guardians && g != s ==> now.guardians[g] == was.guardians[g])
    && now.members.Keys == was.members.Keys
    && (forall m :: m in now.members ==> now.members[m] == if was.members[m] in group then s else was.members[m])
    && now.applications.Keys == was.applications.Keys
    && (forall p :: p in now.applications ==>
          now.applications[p] == if MovesWith(was.applications[p], group) then Some(s) else was.applications[p])
  }

  lemma SurvivorInGroup(people: map<int, Guardian>, children: map<int, int>, group: set<int>, s: int)
    requires group <= people.Keys && IsSurvivor(people, children, group, s)
    ensures s in group
  {
  }

  lemma RepointStep(before: Snapshot, was: Snapshot, now: Snapshot, accountOf: map<int, int>, survivorOf: map<int, int>,
                    next: map<int, int>, a: int, s: int)
    requires accountOf.Keys == survivorOf.Keys && Repointed(before, was, survivorOf)
    requires MergedGroup(was, now, Group(accountOf, a), a, s)
    requires forall g :: g in survivorOf ==> survivorOf[g] in accountOf && accountOf[survivorOf[g]] == accountOf[g]
    requires next.Keys == survivorOf.Keys && forall g :: g in next ==> next[g] == if accountOf[g] == a then s else survivorOf[g]
    ensures Repointed(before, now, next)
  {
    var group := Group(accountOf, a);
    assert forall g :: g in survivorOf ==> (survivorOf[g] in group <==> accountOf[g] == a);
    forall m | m in before.members
      ensures before.members[m] in next && now.members[m] == next[before.members[m]]
    {
      var h := before.members[m];
      var x := survivorOf[h];
      assert was.members[m] == x && (x in group <==> accountOf[h] == a);
    }
    forall p | p in before.applications && before.applications[p].Some?
      ensures before.applications[p].value in next && now.applications[p] == Some(next[before.applications[p].value])
    {
      var h := before.applications[p].value;
      var x := survivorOf[h];
      assert was.applications[p] == Some(x) && (x in group <==> accountOf[h] == a);
    }
  }

  lemma OneSurvivorEach(people: map<int, Guardian>, children: map<int, int>, accountOf: map<int, int>,
                        survivorOf: map<int, int>, done: set<int>)
    requires SurvivorMap(people, children, accountOf, survivorOf, done) && OneGuardianEach(people)
    requires forall g :: g in people && people[g].account.Some? ==> people[g].account == Some(accountOf[g])
    requires forall g :: g in people && people[g].account.None? ==> accountOf[g] in done
    ensures OneSurvivor(people, accountOf, survivorOf)
    ensures AllSurvive(people, children, accountOf, survivorOf)
  {
    hide Blank, Children;
    forall g | g in people && accountOf[g] !in done
      ensures IsSurvivor(people, children, Group(accountOf, accountOf[g]), survivorOf[g])
    {
      forall h | h in Group(accountOf, accountOf[g]) ensures h == g {
        assert people[h].account == people[g].account;
      }
      assert Group(accountOf, accountOf[g]) == {g};
    }
  }

  lemma GuardiansLinked(people: map<int, Guardian>, guardians: map<int, Guardian>, accountOf: map<int, int>,
                        survivorOf: map<int, int>, done: set<int>)
    requires GuardiansMerged(people, guardians, accountOf, survivorOf, done)
    requires forall g :: g in people && people[g].account.Some? ==> people[g].account == Some(accountOf[g])
    requires forall g :: g in people && people[g].account.None? ==> accountOf[g] in done
    requires OneSurvivor(people, accountOf, survivorOf)
    ensures forall g :: g in guardians <==> g in people && survivorOf[g] == g
    ensures forall g :: g in guardians ==> guardians[g] == people[g].(account := Some(accountOf[g]))
    ensures OneGuardianEach(guardians)
  {
  }

  lemma MergedLinked(before: Snapshot, merged: Snapshot, accountOf: map<int, int>, survivorOf: map<int, int>,
                     done: set<int>, resolved: map<int, int>)
    requires Linked(before.guardians, before.accounts, before.members, before.applications)
    requires OrphansResolved(before, merged.accounts, resolved) && accountOf == AccountOf(before.guardians, resolved)
    requires SurvivorMap(before.guardians, before.members, accountOf, survivorOf, done)
    requires GuardiansMerged(before.guardians, merged.guardians, accountOf, survivorOf, done)
    requires Repointed(before, merged, survivorOf) && forall g :: g in resolved ==> resolved[g] in done
    ensures Linked(merged.guardians, merged.accounts, merged.members, merged.applications)
    ensures MergedAll(before, merged, accountOf, survivorOf)
  {
    hide IsSurvivor, Resolved, Group, Repointed, SurvivorMap, GuardiansMerged, OrphansResolved, AccountOf,
         OneGuardianEach, OneSurvivor, AllSurvive;
    AccountsResolved(before, merged.accounts, resolved, done);
    SurvivorMapKeys(before.guardians, before.members, accountOf, survivorOf, done);
    OneSurvivorEach(before.guardians, before.members, accountOf, survivorOf, done);
    GuardiansLinked(before.guardians, merged.guardians, accountOf, survivorOf, done);
    RowsLinked(before, merged, accountOf, survivorOf, done);
  }

  lemma SurvivorMapKeys(people: map<int, Guardian>, children: map<int, int>, accountOf: map<int, int>,
                        survivorOf: map<int, int>, done: set<int>)
    requires SurvivorMap(people, children, accountOf, survivorOf, done)
    ensures accountOf.Keys == people.Keys && survivorOf.Keys == people.Keys
  {
    hide IsSurvivor;
  }

  lemma SurvivorsStay(people: map<int, Guardian>, children: map<int, int>, accountOf: map<int, int>,
                      survivorOf: map<int, int>, done: set<int>, g: int)
    requires SurvivorMap(people, children, accountOf, survivorOf, done) && g in people
    requires OneSurvivor(people, accountOf, survivorOf)
    ensures g in survivorOf && survivorOf[g] in survivorOf && survivorOf[survivorOf[g]] == survivorOf[g]
  {
    hide IsSurvivor;
    var s := survivorOf[g];
    assert s in people && accountOf[s] == accountOf[g];
  }

  lemma RowsLinked(before: Snapshot, merged: Snapshot, accountOf: map<int, int>, survivorOf: map<int, int>, done: set<int>)
    requires SurvivorMap(before.guardians, before.members, accountOf, survivorOf, done)
    requires OneSurvivor(before.guardians, accountOf, survivorOf)
    requires Repointed(before, merged, survivorOf)
    requires forall g :: g in merged.guardians <==> g in before.guardians && survivorOf[g] == g
    ensures forall m :: m in merged.members ==> merged.members[m] in merged.guardians
    ensures forall p :: p in merged.applications && merged.applications[p].Some? ==>
              merged.applications[p].value in merged.guardians
  {
    hide SurvivorMap, OneSurvivor;
    SurvivorMapKeys(before.guardians, before.members, accountOf, survivorOf, done);
    forall m | m in before.members ensures merged.members[m] in merged.guardians {
      var h := before.members[m];
      SurvivorsStay(before.guardians, before.members, accountOf, survivorOf, done, h);
      var s := survivorOf[h];
      assert merged.members[m] == s;
    }
    forall p | p in before.applications && before.applications[p].Some?
      ensures merged.applications[p].Some? && merged.applications[p].value in merged.guardians
    {
      var h := before.applications[p].value;
      SurvivorsStay(before.guardians, before.members, accountOf, survivorOf, done, h);
      var s := survivorOf[h];
      assert merged.applications[p] == Some(s);
    }
  }

  lemma AccountsResolved(before: Snapshot, accounts: map<int, Account>, resolved: map<int, int>, done: set<int>)
    requires Linked(before.guardians, before.accounts, before.members, before.applications)
    requires OrphansResolved(before, accounts, resolved) && forall g :: g in resolved ==> resolved[g] in done
    ensures var accountOf := AccountOf(before.guardians, resolved);
            forall g :: g in before.guardians ==>
              && accountOf[g] in accounts
              && (before.guardians[g].account.Some? ==> before.guardians[g].account == Some(accountOf[g]))
              && (before.guardians[g].account.None? ==> accountOf[g] in done)
  {
    hide Resolved;
    forall g | g in before.guardians && before.guardians[g].account.None? ensures resolved[g] in accounts {
      InNewAccounts(before, accounts, resolved, g);
    }
  }

  lemma InNewAccounts(before: Snapshot, accounts: map<int, Account>, resolved: map<int, int>, g: int)
    requires OrphansResolved(before, accounts, resolved) && g in before.guardians && before.guardians[g].account.None?
    ensures g in resolved && resolved[g] in accounts
  {
    assert Resolved(before.guardians, before.accounts, accounts, g, resolved);
  }

  ghost predicate MergedAll(before: Snapshot, merged: Snapshot, accountOf: map<int, int>, survivorOf: map<int, int>) {
    var people := before.guardians;
    && accountOf.Keys == people.Keys && survivorOf.Keys == people.Keys
    && OneSurvivor(people, accountOf, survivorOf)
    && AllSurvive(people, before.members, accountOf, survivorOf)
    && (forall g :: g in merged.guardians <==> g in people && survivorOf[g] == g)
    && (forall g :: g in merged.guardians ==>
          accountOf[g] in merged.accounts && merged.guardians[g] == people[g].(account := Some(accountOf[g])))
    && Repointed(before, merged, survivorOf)
  }

  /** Filling phones touches no e-mail, so everything resolved stays resolved. */
  lemma Finish(before: Snapshot, merged: Snapshot, after: Snapshot, accountOf: map<int, int>, survivorOf: map<int, int>,
               resolved: map<int, int>)
    requires OrphansResolved(before, merged.accounts, resolved) && accountOf == AccountOf(before.guardians, resolved)
    requires MergedAll(before, merged, accountOf, survivorOf)
    requires after == merged.(accounts := after.accounts) && after.accounts.Keys == merged.accounts.Keys
    requires forall a :: a in after.accounts ==> PhoneKept(merged.guardians, merged.accounts[a], after.accounts[a], a)
    requires PhonesFilled(after.guardians, after.accounts)
    ensures Consolidated(before, after, accountOf, survivorOf)
  {
    hide IsSurvivor, Group, PhonesFilled, Repointed, Resolved;
    RepointedFrame(before, merged, after, survivorOf);
    forall g | g in before.guardians && before.guardians[g].account.None?
      ensures Resolved(before.guardians, before.accounts, after.accounts, g, accountOf)
    {
      ResolvedFrame(before.guardians, before.accounts, merged.accounts, after.accounts, g, resolved, accountOf);
    }
  }

  lemma ResolvedFrame(people: map<int, Guardian>, before: map<int, Account>, was: map<int, Account>,
                      now: map<int, Account>, g: int, resolved: map<int, int>, accountOf: map<int, int>)
    requires g in people && Resolved(people, before, was, g, resolved)
    requires g in accountOf && accountOf[g] == resolved[g]
    requires now.Keys == was.Keys && forall a :: a in now ==> now[a].email == was[a].email
    ensures Resolved(people, before, now, g, accountOf)
  {
    hide Lower, Email, Placeholder, NoMatch;
  }

  lemma LinkedFrame(merged: Snapshot, after: Snapshot)
    requires Linked(merged.guardians, merged.accounts, merged.members, merged.applications)
    requires after == merged.(accounts := after.accounts) && after.accounts.Keys == merged.accounts.Keys
    ensures Linked(after.guardians, after.accounts, after.members, after.applications)
  {
  }

  lemma RepointedFrame(before: Snapshot, merged: Snapshot, after: Snapshot, survivorOf: map<int, int>)
    requires Repointed(before, merged, survivorOf) && after == merged.(accounts := after.accounts)
    ensures Repointed(before, after, survivorOf)
  {
  }

  // ---- an aborting input ----

  /** A guardian without an e-mail, and an account that already has its placeholder as
      its e-mail: the consolidation of these two rows is refused. */
  lemma PlaceholderCollision(g: int, a: int)
    ensures var guardians := map[g := Guardian("", "", "", None)];
            var accounts := map[a := Account(Placeholder(g), "")];
            ListsOrphans(guardians, [g]) && PlaceholderTaken(guardians, accounts, [g], 0)
  {
    hide Placeholder;
    var guardians := map[g := Guardian("", "", "", None)];
    var accounts := map[a := Account(Placeholder(g), "")];
    assert Email(guardians[g]) == "";
    assert a in accounts && accounts[a].email == Placeholder(g);
    assert [g][0] == g;
  }

  // ---- what consolidation leaves behind ----

  /** No guardian without an account, no two sharing one, no dangling row: every
      member and application is still there and reaches a guardian. */
  lemma ConsolidatedIsClean(before: Snapshot, after: Snapshot, accountOf: map<int, int>, survivorOf: map<int, int>)
    requires Consolidated(before, after, accountOf, survivorOf)
    ensures NoOrphans(after.guardians) && PhonesFilled(after.guardians, after.accounts)
    ensures Linked(after.guardians, after.accounts, after.members, after.applications)
    ensures after.members.Keys == before.members.Keys && after.applications.Keys == before.applications.Keys
  {
    hide IsSurvivor, Resolved, PhoneKept, PhonesFilled;
    var people := before.guardians;
    forall g | g in people ensures survivorOf[g] in after.guardians {
      var s := survivorOf[g];
      SurvivorInGroup(people, before.members, Group(accountOf, accountOf[g]), s);
      assert accountOf[s] == accountOf[g];
    }
    forall m | m in after.members ensures after.members[m] in after.guardians {
      var h := before.members[m];
      var s := survivorOf[h];
      assert after.members[m] == s;
    }
    forall p | p in after.applications && after.applications[p].Some?
      ensures after.applications[p].value in after.guardians
    {
      var h := before.applications[p].value;
      var s := survivorOf[h];
      assert after.applications[p] == Some(s);
    }
  }

  /** A second run finds nothing to do. */
  lemma SecondRunChangesNothing(before: Snapshot, first: Snapshot, second: Snapshot,
                                a1: map<int, int>, s1: map<int, int>, a2: map<int, int>, s2: map<int, int>)
    requires Consolidated(before, first, a1, s1) && Consolidated(first, second, a2, s2)
    ensures second == first
  {
    ConsolidatedIsClean(before, first, a1, s1);
    IdleRun(first, second, a2, s2);
  }

  lemma IdleRun(first: Snapshot, second: Snapshot, accountOf: map<int, int>, survivorOf: map<int, int>)
    requires NoOrphans(first.guardians) && PhonesFilled(first.guardians, first.accounts)
    requires Linked(first.guardians, first.accounts, first.members, first.applications)
    requires Consolidated(first, second, accountOf, survivorOf)
    ensures second == first
  {
    var people := first.guardians;
    hide IsSurvivor, Resolved, Blank;
    forall g | g in people ensures survivorOf[g] == g {
      var s := survivorOf[g];
      SurvivorInGroup(people, first.members, Group(accountOf, accountOf[g]), s);
      assert s in people && accountOf[s] == accountOf[g];
    }
    forall g | g in people ensures second.guardians[g] == people[g] {
      var p := people[g];
      assert p == Guardian(p.email, p.phone, p.clientId, Some(accountOf[g]));
    }
    MapExt(second.guardians, people);
    RepointedIdentity(first, second, survivorOf);
    forall a | a in first.accounts ensures second.accounts[a] == first.accounts[a] {
      var was, now := first.accounts[a], second.accounts[a];
      assert PhoneKept(second.guardians, was, now, a);
      assert was == Account(was.email, was.phone) && now == Account(now.email, now.phone);
    }
    assert forall a :: a in second.accounts ==> a in first.accounts;
    MapExt(second.accounts, first.accounts);
  }

  lemma RepointedIdentity(first: Snapshot, second: Snapshot, survivorOf: map<int, int>)
    requires Repointed(first, second, survivorOf) && forall g :: g in survivorOf ==> survivorOf[g] == g
    ensures second.members == first.members && second.applications == first.applications
  {
    forall m | m in first.members ensures second.members[m] == first.members[m] {
      var h := first.members[m];
      assert survivorOf[h] == h;
    }
    forall p | p in first.applications ensures second.applications[p] == first.applications[p] {
      if first.applications[p].Some? {
        var h := first.applications[p].value;
        assert survivorOf[h] == h;
      }
    }
  }

  /** The survivor takes over an external client only when it has none. */
  function Absorb(survivor: Guardian, loser: Guardian): Guardian {
    if Blank(survivor.clientId) && !Blank(loser.clientId) then survivor.(clientId := loser.clientId) else survivor
  }

  function Repoint(members: map<int, int>, loser: int, survivor: int): map<int, int> {
    map m | m in members :: if members[m] == loser then survivor else members[m]
  }

  function RepointSome(applications: map<int, Option<int>>, loser: int, survivor: int): map<int, Option<int>> {
    map p | p in applications :: if applications[p] == Some(loser) then Some(survivor) else applications[p]
  }

  ghost predicate MovesWith(g: Option<int>, group: set<int>) {
    g.Some? && g.value in group
  }

  ghost function Rest(group: seq<int>, k: nat): set<int>
    requires k <= |group|
  {
    set l | k <= l < |group| :: group[l]
  }

  lemma RestStep(group: seq<int>, k: nat)
    requires k < |group| && NoDuplicates(group)
    ensures Rest(group, k) == Rest(group, k + 1) + {group[k]} && group[k] !in Rest(group, k + 1)
  {
  }

  /** The survivor rule already prefers a guardian with an external client, so the
      copy that merging would make never happens. */
  lemma SurvivorHasClient(guardians: map<int, Guardian>, members: map<int, int>, group: set<int>, s: int)
    requires group <= guardians.Keys && IsSurvivor(guardians, members, group, s)
    ensures forall g :: g in group && !Blank(guardians[g].clientId) ==> !Blank(guardians[s].clientId)
  {
    hide Blank, Children;
  }

  ghost predicate NoDuplicates(s: seq<int>) {
    forall i, j :: 0 <= i < j < |s| ==> s[i] != s[j]
  }

  /** The dictionary of groups, its keys in insertion order. */
  ghost predicate Grouped(byAccount: map<int, seq<int>>, order: seq<int>, accountOf: map<int, int>) {
    && NoDuplicates(order)
    && (forall a :: a in byAccount <==> a in order)
    && (forall g :: g in accountOf ==> accountOf[g] in byAccount && g in byAccount[accountOf[g]])
    && (forall a, g :: a in byAccount && g in byAccount[a] ==> g in accountOf && accountOf[g] == a)
    && (forall a :: a in byAccount ==> byAccount[a] != [] && NoDuplicates(byAccount[a]))
  }

  /** What the first `n` orphans resolved to: blank ones to their own placeholder,
      the others to the first account of their e-mail. */
  ghost predicate ResolvedAll(guardians: map<int, Guardian>, before: map<int, Account>, accounts: map<int, Account>,
                              orphans: seq<int>, n: int, accountOf: map<int, int>)
    requires 0 <= n <= |orphans| && forall k :: 0 <= k < |orphans| ==> orphans[k] in guardians
  {
    && (forall a :: a in before ==> a in accounts && accounts[a] == before[a])
    && (forall g :: g in accountOf <==> exists k :: 0 <= k < n && orphans[k] == g)
    && (forall k :: 0 <= k < n ==> Resolved(guardians, before, accounts, orphans[k], accountOf))
    && (forall a :: a in accounts && a !in before ==>
          exists k :: 0 <= k < n && orphans[k] in accountOf && accountOf[orphans[k]] == a
                      && Creator(guardians, before, accounts[a].email, orphans[k]))
  }

  ghost predicate Resolved(guardians: map<int, Guardian>, before: map<int, Account>, accounts: map<int, Account>,
                           g: int, accountOf: map<int, int>)
    requires g in guardians
  {
    && g in accountOf && accountOf[g] in accounts
    && var email := Email(guardians[g]);
    if email == "" then
      accountOf[g] !in before && accounts[accountOf[g]].email == Placeholder(g)
    else
      && FirstMatch(accounts, email, accountOf[g])
      && (NoMatch(before, email) ==> accounts[accountOf[g]].email == email)
  }

  /** A new account's e-mail comes from the orphan it was created for. */
  ghost predicate Creator(guardians: map<int, Guardian>, before: map<int, Account>, email: string, g: int)
    requires g in guardians
  {
    if Email(guardians[g]) == "" then email == Placeholder(g)
    else email == Email(guardians[g]) && NoMatch(before, email)
  }

  lemma NothingResolved(guardians: map<int, Guardian>, accounts: map<int, Account>, orphans: seq<int>)
    requires forall k :: 0 <= k < |orphans| ==> orphans[k] in guardians
    ensures ResolvedAll(guardians, accounts, accounts, orphans, 0, map[])
    ensures Grouped(map[], [], map[])
  {
  }

  lemma NotYetResolved(guardians: map<int, Guardian>, before: map<int, Account>, accounts: map<int, Account>,
                       orphans: seq<int>, i: int, accountOf: map<int, int>)
    requires 0 <= i < |orphans| && NoDuplicates(orphans) && forall k :: 0 <= k < |orphans| ==> orphans[k] in guardians
    requires ResolvedAll(guardians, before, accounts, orphans, i, accountOf)
    ensures orphans[i] !in accountOf
  {
    hide Resolved, Creator;
    var g := orphans[i];
    assert forall k :: 0 <= k < i ==> orphans[k] != g;
  }

  lemma GroupedStep(byAccount: map<int, seq<int>>, order: seq<int>, accountOf: map<int, int>, a: int, g: int)
    requires Grouped(byAccount, order, accountOf) && g !in accountOf
    ensures if a in byAccount then Grouped(byAccount[a := byAccount[a] + [g]], order, accountOf[g := a])
            else Grouped(byAccount[a := [g]], order + [a], accountOf[g := a])
  {
    if a in byAccount {
      var next := byAccount[a := byAccount[a] + [g]];
      assert forall x :: x in next[a] <==> x in byAccount[a] || x == g;
      assert g in next[a];
    } else {
      assert forall x :: x in order + [a] <==> x in order || x == a;
    }
  }

  lemma EmailIsLower(g: Guardian)
    ensures Lower(Email(g)) == Email(g)
  {
    LowerIdempotent(Strip(g.email));
  }

  /** New accounts only ever carry lower-case e-mails. */
  lemma CreatorEmailIsLower(guardians: map<int, Guardian>, before: map<int, Account>, email: string, g: int)
    requires g in guardians && Creator(guardians, before, email, g)
    ensures Lower(email) == email
  {
    hide Lower, Placeholder, NoMatch;
    PlaceholderIsLower(g);
    EmailIsLower(guardians[g]);
  }

  lemma FoundAccountEmail(guardians: map<int, Guardian>, before: map<int, Account>, accounts: map<int, Account>,
                          orphans: seq<int>, n: int, accountOf: map<int, int>, email: string, a: int)
    requires 0 <= n <= |orphans| && forall k :: 0 <= k < |orphans| ==> orphans[k] in guardians
    requires ResolvedAll(guardians, before, accounts, orphans, n, accountOf)
    requires Lower(email) == email && FirstMatch(accounts, email, a) && NoMatch(before, email)
    ensures accounts[a].email == email
  {
    hide Lower, Strip, Email, Placeholder, Creator;
    assert a !in before;
    var k :| 0 <= k < n && Creator(guardians, before, accounts[a].email, orphans[k]);
    CreatorEmailIsLower(guardians, before, accounts[a].email, orphans[k]);
  }

  /** One more orphan, resolved to a found account or to the one just created. */
  lemma ResolvedStep(guardians: map<int, Guardian>, before: map<int, Account>, was: map<int, Account>,
                     accounts: map<int, Account>, orphans: seq<int>, i: int, accountOf: map<int, int>, a: int)
    requires 0 <= i < |orphans| && NoDuplicates(orphans) && forall k :: 0 <= k < |orphans| ==> orphans[k] in guardians
    requires ResolvedAll(guardians, before, was, orphans, i, accountOf)
    requires var email := Email(guardians[orphans[i]]);
             || (accounts == was && email != "" && FirstMatch(was, email, a))
             || (email != "" && NoMatch(was, email) && Added(was, accounts, a, email))
             || (email == "" && Added(was, accounts, a, Placeholder(orphans[i])))
    ensures ResolvedAll(guardians, before, accounts, orphans, i + 1, accountOf[orphans[i] := a])
    ensures !PlaceholderTaken(guardians, before, orphans, i)
  {
    hide Lower, Strip, Email, Placeholder, Creator, Resolved, NoMatch, FirstMatch, PlaceholderTaken;
    var g, email := orphans[i], Email(guardians[orphans[i]]);
    forall k | 0 <= k < i
      ensures Resolved(guardians, before, accounts, orphans[k], accountOf[g := a])
    {
      ResolvedKept(guardians, before, was, accounts, orphans[k], accountOf, g, a);
    }
    NewResolved(guardians, before, was, accounts, orphans, i, accountOf, a);
    if accounts != was {
      NewCreator(guardians, before, was, accounts[a].email, g);
    }
    if email == "" {
      NotTaken(guardians, before, was, orphans, i, accountOf);
    } else {
      NotBlankNotTaken(guardians, before, orphans, i);
    }
  }

  lemma NotBlankNotTaken(guardians: map<int, Guardian>, before: map<int, Account>, orphans: seq<int>, i: int)
    requires 0 <= i < |orphans| && forall k :: 0 <= k < |orphans| ==> orphans[k] in guardians
    requires Email(guardians[orphans[i]]) != ""
    ensures !PlaceholderTaken(guardians, before, orphans, i)
  {
  }

  lemma ResolvedKept(guardians: map<int, Guardian>, before: map<int, Account>, was: map<int, Account>,
                     accounts: map<int, Account>, g: int, accountOf: map<int, int>, h: int, a: int)
    requires g in guardians && g != h && Resolved(guardians, before, was, g, accountOf)
    requires accounts == was || (a in accounts && accounts == was[a := accounts[a]] && forall b :: b in was ==> b < a)
    ensures Resolved(guardians, before, accounts, g, accountOf[h := a])
  {
    hide Lower, Strip, Email, Placeholder, NoMatch;
  }

  lemma NewResolved(guardians: map<int, Guardian>, before: map<int, Account>, was: map<int, Account>,
                    accounts: map<int, Account>, orphans: seq<int>, i: int, accountOf: map<int, int>, a: int)
    requires 0 <= i < |orphans| && forall k :: 0 <= k < |orphans| ==> orphans[k] in guardians
    requires ResolvedAll(guardians, before, was, orphans, i, accountOf)
    requires var email := Email(guardians[orphans[i]]);
             || (accounts == was && email != "" && FirstMatch(was, email, a))
             || (email != "" && NoMatch(was, email) && Added(was, accounts, a, email))
             || (email == "" && Added(was, accounts, a, Placeholder(orphans[i])))
    ensures Resolved(guardians, before, accounts, orphans[i], accountOf[orphans[i] := a])
  {
    hide Lower, Strip, Email, Placeholder, Creator;
    var email := Email(guardians[orphans[i]]);
    EmailIsLower(guardians[orphans[i]]);
    if accounts == was && NoMatch(before, email) {
      FoundAccountEmail(guardians, before, was, orphans, i, accountOf, email, a);
    }
  }

  ghost predicate Added(was: map<int, Account>, accounts: map<int, Account>, a: int, email: string) {
    && (forall b :: b in was ==> b < a && was[b].email != email)
    && a in accounts && accounts == was[a := accounts[a]] && accounts[a].email == email
  }

  lemma NewCreator(guardians: map<int, Guardian>, before: map<int, Account>, was: map<int, Account>, email: string, g: int)
    requires g in guardians && (forall a :: a in before ==> a in was && was[a] == before[a])
    requires if Email(guardians[g]) == "" then email == Placeholder(g)
             else email == Email(guardians[g]) && NoMatch(was, email)
    ensures Creator(guardians, before, email, g)
  {
    hide Lower, Strip, Placeholder, Email;
  }

  lemma NotTaken(guardians: map<int, Guardian>, before: map<int, Account>, accounts: map<int, Account>,
                 orphans: seq<int>, i: int, accountOf: map<int, int>)
    requires 0 <= i < |orphans| && forall k :: 0 <= k < |orphans| ==> orphans[k] in guardians
    requires ResolvedAll(guardians, before, accounts, orphans, i, accountOf)
    requires Email(guardians[orphans[i]]) == ""
    requires forall a :: a in accounts ==> accounts[a].email != Placeholder(orphans[i])
    ensures !PlaceholderTaken(guardians, before, orphans, i)
  {
    hide Lower, Strip, Email, Creator;
    var p := Placeholder(orphans[i]);
    assert p[0] == 'g';
    hide Placeholder;
    assert forall k :: 0 <= k < i ==> Resolved(guardians, before, accounts, orphans[k], accountOf);
  }

  lemma CreateRefused(guardians: map<int, Guardian>, before: map<int, Account>, accounts: map<int, Account>,
                      orphans: seq<int>, i: int, accountOf: map<int, int>)
    requires 0 <= i < |orphans| && NoDuplicates(orphans) && forall k :: 0 <= k < |orphans| ==> orphans[k] in guardians
    requires ResolvedAll(guardians, before, accounts, orphans, i, accountOf)
    requires var email := Email(guardians[orphans[i]]);
             && (email == "" || NoMatch(accounts, email))
             && exists a :: a in accounts && accounts[a].email == if email != "" then email else Placeholder(orphans[i])
    ensures PlaceholderTaken(guardians, before, orphans, i)
  {
    hide Lower, Strip, Email, Placeholder;
    var email := Email(guardians[orphans[i]]);
    var a :| a in accounts && accounts[a].email == if email != "" then email else Placeholder(orphans[i]);
    assert email == "";
    if a !in before {
      var k :| 0 <= k < i && orphans[k] in accountOf && accountOf[orphans[k]] == a
               && Creator(guardians, before, accounts[a].email, orphans[k]);
      if Email(guardians[orphans[k]]) == "" {
        PlaceholderInjective(orphans[k], orphans[i]);
        assert false;
      }
    }
  }
}
