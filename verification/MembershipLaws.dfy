/** What membership promises in every state a run of calls can reach. */
module MembershipLaws {
  import opened Wrappers
  import opened Membership

  lemma {:induction false} RunKeeps(s: Roster, es: seq<Step>)
    requires Inv(s) && ValidRun(s, es)
    ensures Inv(Run(s, es))
    decreases |es|
  {
    if es != [] {
      StepKeeps(s, es[0]);
      RunKeeps(Do(s, es[0]).state, es[1..]);
    }
  }

  /** Every project always has a member who owns it and has an account. */
  lemma EveryProjectIsOwned(es: seq<Step>, p: ProjectId)
    requires ValidRun(EMPTY, es) && p in Run(EMPTY, es).projects
    ensures exists m :: m in Run(EMPTY, es).rows && Administers(Run(EMPTY, es).rows[m], p)
  {
    RunKeeps(EMPTY, es);
    assert HasOwner(Run(EMPTY, es), p);
  }

  /** At most one row of a project matches an account. */
  lemma OneRowPerAccount(s: Roster, u: UserId, p: ProjectId, m: RowId, n: RowId)
    requires Inv(s) && m in RowsFor(s, u, p) && n in RowsFor(s, u, p)
    ensures m == n
  {
    assert RowOk(s, m) && RowOk(s, n);
    assert SameSeat(s.rows[m], s.rows[n]);
  }

  /** An account that never confirmed its address gets at the rows `create_project` wrote for it alone. */
  lemma UnconfirmedReachesOnlyItsOwn(es: seq<Step>, u: UserId, p: ProjectId, m: RowId)
    requires ValidRun(EMPTY, es)
    requires var s := Run(EMPTY, es); u in s.users && !s.users[u].verified && m in RowsFor(s, u, p)
    ensures var s := Run(EMPTY, es);
            && p in s.projects && s.projects[p].owner == u
            && s.rows[m].invitedBy == u && s.rows[m].email == s.users[u].email
  {
    RunKeeps(EMPTY, es);
    assert RowOk(Run(EMPTY, es), m);
  }

  // ---- three views of one fact ----

  /** The rows the role lookup reads, in whatever order the query answers. */
  ghost predicate RoleAnswer(s: Roster, u: UserId, ids: set<ProjectId>, found: seq<RowId>) {
    forall m :: m in found <==> m in s.rows && s.rows[m].project in ids && m in RowsFor(s, u, s.rows[m].project)
  }

  lemma {:induction false} RoleMapHolds(s: Roster, u: UserId, found: seq<RowId>, p: ProjectId)
    requires Inv(s) && forall m :: m in found ==> m in s.rows && m in RowsFor(s, u, s.rows[m].project)
    ensures p in RoleMap(s, found) <==> exists m :: m in found && s.rows[m].project == p
    ensures forall m :: m in found && s.rows[m].project == p ==>
              p in RoleMap(s, found) && RoleMap(s, found)[p] == s.rows[m].role
  {
    if found != [] {
      var rest, last := found[..|found| - 1], found[|found| - 1];
      assert found == rest + [last];
      RoleMapHolds(s, u, rest, p);
      forall m | m in found && s.rows[m].project == p
        ensures p in RoleMap(s, found) && RoleMap(s, found)[p] == s.rows[m].role
      {
        if s.rows[last].project == p { OneRowPerAccount(s, u, p, m, last); }
      }
    }
  }

  /** The project list, the role lookup and the access check never disagree: a project is listed exactly
      if opening it as a viewer succeeds, and its role is the one the lookup gives. */
  lemma ViewsAgree(s: Roster, u: UserId, p: ProjectId, ids: set<ProjectId>, found: seq<RowId>)
    requires Inv(s) && u in s.users && p in s.projects && p in ids && RoleAnswer(s, u, ids, found)
    ensures var entry := Access(s, p, u, Viewer).answer;
            && (p in Visible(s, u) <==> entry.Success?)
            && (entry.Success? ==>
                  && entry.value in s.rows && p in RoleMap(s, found)
                  && RoleMap(s, found)[p] == s.rows[entry.value].role)
            && (p in RoleMap(s, found) && !s.projects[p].deleted ==> entry.Success?)
  {
    RoleMapHolds(s, u, found, p);
    if RowsFor(s, u, p) == {} {
      assert forall m :: m in found && s.rows[m].project == p ==> m in RowsFor(s, u, p);
    } else {
      var m := Find(s, u, p).value;
      assert m in found;
    }
  }

  /** Who gets in with what: a member whose role is high enough. To anyone else a project answers exactly as
      one that does not exist; only a member ever learns that a role is too low. */
  lemma AccessExactly(s: Roster, p: ProjectId, u: UserId, minimum: Role)
    requires Inv(s) && u in s.users
    ensures var answer := Access(s, p, u, minimum).answer;
            && (answer == Failure(NotFound) <==> p !in Visible(s, u))
            && (answer.Success? <==>
                  && p in Visible(s, u)
                  && forall m :: m in RowsFor(s, u, p) ==> Rank(s.rows[m].role) >= Rank(minimum))
            && (answer.Success? ==> answer.value in RowsFor(s, u, p))
            && (answer.Failure? ==> answer.error in {NotFound, RoleTooLow})
  {
    if p in s.projects && !s.projects[p].deleted && Find(s, u, p).Some? {
      var m := Find(s, u, p).value;
      AccessIsClaim(s, p, u, minimum);
      forall k | k in RowsFor(s, u, p) ensures k == m { OneRowPerAccount(s, u, p, k, m); }
    } else {
      AccessRefused(s, p, u, minimum);
    }
  }

  // ---- claiming and leaving ----

  /** Claiming invitations, all at sign-up or one on first sight, changes nobody's access: it only writes
      down whose the rows already were. */
  lemma ClaimingGrantsNothing(s: Roster, u: UserId, v: UserId, p: ProjectId)
    requires Inv(s) && u in s.users && s.users[u].verified
    ensures RowsFor(ClaimInvites(s, u), v, p) == RowsFor(s, v, p)
    ensures forall m :: m in RowsFor(s, v, p) ==> ClaimInvites(s, u).rows[m].role == s.rows[m].role
    ensures forall m :: m in RowsFor(s, u, p) ==> ClaimInvites(s, u).rows[m].user == Some(u)
  {
    var s' := ClaimInvites(s, u);
    forall m | m in s.rows ensures m in RowsFor(s', v, p) <==> m in RowsFor(s, v, p) { assert RowOk(s, m); }
    forall m | m in RowsFor(s, u, p) ensures s'.rows[m].user == Some(u) { assert RowOk(s, m); }
  }

  lemma LazyClaimGrantsNothing(s: Roster, m: RowId, u: UserId, v: UserId, p: ProjectId, q: ProjectId)
    requires Inv(s) && m in RowsFor(s, u, q)
    ensures RowsFor(LazyClaim(s, m, u), v, p) == RowsFor(s, v, p)
    ensures forall k :: k in RowsFor(s, v, p) ==> LazyClaim(s, m, u).rows[k].role == s.rows[k].role
    ensures LazyClaim(s, m, u).rows[m].user == Some(u)
  {
    forall k | k in s.rows
      ensures k in RowsFor(LazyClaim(s, m, u), v, p) <==> k in RowsFor(s, v, p)
    {
      assert RowOk(s, k);
    }
  }

  /** A role change is refused for one's own row and for the last owner's demotion, and otherwise gives that
      row the new role: nobody enters or leaves, and nobody else's role moves. */
  lemma RoleChangeExactly(s: Roster, p: ProjectId, actor: UserId, m: RowId, role: Role, u: UserId, q: ProjectId)
    requires Inv(s) && m in s.rows && s.rows[m].project == p
    ensures var done := UpdateRole(s, p, actor, m, role);
            && (done.answer.Failure? <==>
                  || s.rows[m].user == Some(actor)
                  || (role != Owner && OnlyOwner(s, p, m)))
            && RowsFor(done.state, u, q) == RowsFor(s, u, q)
            && forall k :: k in RowsFor(s, u, q) ==>
                 && k in done.state.rows
                 && done.state.rows[k].role == if k == m && done.answer.Success? then role else s.rows[k].role
  {
    LastOwnerExactly(s, p, m);
  }

  /** Once its row is gone, an account cannot open the project; everyone else's access is as it was. */
  lemma RemovalEndsAccess(s: Roster, p: ProjectId, m: RowId, u: UserId, q: ProjectId)
    requires Inv(s) && RemoveMember(s, p, m).answer.Success?
    ensures var s' := RemoveMember(s, p, m).state;
            && m in s.rows
            && (m in RowsFor(s, u, p) ==>
                  RowsFor(s', u, p) == {} && Access(s', p, u, Viewer).answer == Failure(NotFound))
            && (m !in RowsFor(s, u, q) ==> RowsFor(s', u, q) == RowsFor(s, u, q))
  {
    var s' := RemoveMember(s, p, m).state;
    if m in RowsFor(s, u, p) {
      forall k | k in RowsFor(s', u, p) ensures false {
        assert k in RowsFor(s, u, p);
        OneRowPerAccount(s, u, p, k, m);
      }
      assert RowsFor(s', u, p) == {};
    }
  }

  /** The project's one owner with an account. */
  ghost predicate OnlyOwner(s: Roster, p: ProjectId, m: RowId)
    requires m in s.rows
  {
    Administers(s.rows[m], p) && forall k :: k in s.rows && Administers(s.rows[k], p) ==> k == m
  }

  /** The last-owner refusal comes exactly for the one owner with an account: a pending owner row, or one of
      two, may always go. */
  lemma LastOwnerExactly(s: Roster, p: ProjectId, m: RowId)
    requires Inv(s) && m in s.rows && s.rows[m].project == p
    ensures RemoveMember(s, p, m).answer == Failure(LastOwner) <==>
            OnlyOwner(s, p, m)
  {
    assert RowOk(s, m);
    assert HasOwner(s, p);
    if s.rows[m].role == Owner && !AnotherOwner(s, p, m) {
      var k :| k in s.rows && Administers(s.rows[k], p);
      assert k == m;
    }
  }

  // ---- a new project's roster ----

  /** `create_project` after its commit: an invitation to each address not seen yet, refusals skipped. */
  ghost function InviteEach(s: Roster, p: ProjectId, u: UserId, emails: seq<Email>, seen: set<Email>): Roster
    decreases |emails|
  {
    if emails == [] then s
    else if emails[0] in seen then InviteEach(s, p, u, emails[1..], seen)
    else InviteEach(InviteMember(s, p, u, emails[0], Editor).state, p, u, emails[1..], seen + {emails[0]})
  }

  function Addresses(s: Roster, p: ProjectId): set<Email> {
    set m | m in s.rows && s.rows[m].project == p :: s.rows[m].email
  }

  lemma RowAddsAddress(s: Roster, s': Roster, p: ProjectId, m: RowId, x: Row)
    requires m !in s.rows && s'.rows == s.rows[m := x] && x.project == p
    ensures Addresses(s', p) == Addresses(s, p) + {x.email}
  {
    forall e ensures e in Addresses(s', p) <==> e in Addresses(s, p) + {x.email} {
      if e in Addresses(s, p) {
        var k :| k in s.rows && s.rows[k].project == p && s.rows[k].email == e;
        assert k in s'.rows && s'.rows[k] == s.rows[k];
      }
      assert s'.rows[m] == x;
    }
  }

  ghost predicate KeepsRows(s: Roster, s': Roster) {
    && s'.projects == s.projects && s'.users == s.users
    && forall m :: m in s.rows ==> m in s'.rows && s'.rows[m] == s.rows[m]
  }

  lemma InviteAddsAddress(s: Roster, p: ProjectId, u: UserId, email: Email, role: Role)
    requires RowsOk(s) && p in s.projects
    ensures var s' := InviteMember(s, p, u, email, role).state;
            Addresses(s', p) == Addresses(s, p) + {email} && KeepsRows(s, s')
  {
    InviteShape(s, p, u, email, role);
    NextIsFresh(s);
    if RowAt(s, p, email).None? {
      RowAddsAddress(s, InviteMember(s, p, u, email, role).state, p, s.next, InvitedRow(s, p, u, email, role));
    } else {
      assert s.rows[RowAt(s, p, email).value].email == email;
    }
  }

  lemma {:induction false} InvitedKeeps(s: Roster, p: ProjectId, u: UserId, emails: seq<Email>, seen: set<Email>)
    requires Inv(s) && p in s.projects
    ensures Inv(InviteEach(s, p, u, emails, seen))
    decreases |emails|
  {
    if emails != [] {
      if emails[0] in seen {
        InvitedKeeps(s, p, u, emails[1..], seen);
      } else {
        InviteKeeps(s, p, u, emails[0], Editor);
        InviteAddsAddress(s, p, u, emails[0], Editor);
        InvitedKeeps(InviteMember(s, p, u, emails[0], Editor).state, p, u, emails[1..], seen + {emails[0]});
      }
    }
  }

  ghost predicate AddsAddresses(s: Roster, s': Roster, p: ProjectId, emails: set<Email>) {
    Addresses(s', p) == Addresses(s, p) + emails && KeepsRows(s, s')
  }

  lemma AddsThrough(s: Roster, t: Roster, u: Roster, p: ProjectId, a: set<Email>, b: set<Email>)
    requires AddsAddresses(s, t, p, a) && AddsAddresses(t, u, p, b)
    ensures AddsAddresses(s, u, p, a + b)
  {
    forall m | m in s.rows ensures m in u.rows && u.rows[m] == s.rows[m] { assert m in t.rows; }
  }

  lemma {:induction false} InvitedAll(s: Roster, p: ProjectId, u: UserId, emails: seq<Email>, seen: set<Email>)
    requires Inv(s) && p in s.projects && seen <= Addresses(s, p)
    ensures AddsAddresses(s, InviteEach(s, p, u, emails, seen), p, Given(emails))
    decreases |emails|
  {
    if emails == [] {
      assert Given(emails) == {};
    } else {
      GivenSplits(emails);
      if emails[0] in seen {
        InvitedAll(s, p, u, emails[1..], seen);
        assert Addresses(s, p) + Given(emails) == Addresses(s, p) + Given(emails[1..]);
      } else {
        var s1 := InviteMember(s, p, u, emails[0], Editor).state;
        InviteKeeps(s, p, u, emails[0], Editor);
        InviteAddsAddress(s, p, u, emails[0], Editor);
        InvitedAll(s1, p, u, emails[1..], seen + {emails[0]});
        AddsThrough(s, s1, InviteEach(s1, p, u, emails[1..], seen + {emails[0]}), p, {emails[0]}, Given(emails[1..]));
      }
    }
  }

  function Given(emails: seq<Email>): set<Email> {
    set e | e in emails
  }

  lemma GivenSplits(emails: seq<Email>)
    requires emails != []
    ensures Given(emails) == {emails[0]} + Given(emails[1..])
  {
    assert emails == [emails[0]] + emails[1..];
  }

  lemma FoundedRoster(s: Roster, u: UserId, p: ProjectId)
    requires RowsOk(s) && u in s.users && p !in s.projects
    ensures var s' := FoundProject(s, u, p);
            && Addresses(s', p) == {s.users[u].email} && s.next in s'.rows
            && s'.rows[s.next] == Row(p, s.users[u].email, Some(u), Owner, Active, u)
            && s'.users == s.users && p in s'.projects
  {
    forall k | k in s.rows ensures s.rows[k].project != p { assert RowOk(s, k); }
    assert Addresses(s, p) == {};
    NextIsFresh(s);
    RowAddsAddress(s, FoundProject(s, u, p), p, s.next, Row(p, s.users[u].email, Some(u), Owner, Active, u));
  }

  /** A new project has one row for its creator, who owns it, one for each other address given, and no
      more, however often an address was repeated. */
  lemma NewProjectRoster(s: Roster, u: UserId, p: ProjectId, emails: seq<Email>)
    requires Inv(s) && u in s.users && p !in s.projects
    ensures var s' := InviteEach(FoundProject(s, u, p), p, u, emails, {s.users[u].email});
            && Inv(s') && Addresses(s', p) == {s.users[u].email} + Given(emails)
            && s.next in s'.rows && s'.rows[s.next] == Row(p, s.users[u].email, Some(u), Owner, Active, u)
            && RowsFor(s', u, p) == {s.next}
  {
    FoundKeeps(s, u, p);
    FoundedRoster(s, u, p);
    var s1 := FoundProject(s, u, p);
    InvitedKeeps(s1, p, u, emails, {s.users[u].email});
    InvitedAll(s1, p, u, emails, {s.users[u].email});
    var s' := InviteEach(s1, p, u, emails, {s.users[u].email});
    assert s.next in RowsFor(s', u, p);
    forall m | m in RowsFor(s', u, p) ensures m == s.next { OneRowPerAccount(s', u, p, m, s.next); }
  }
}
