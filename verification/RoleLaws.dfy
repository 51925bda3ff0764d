/** What each membership call gives and takes, told in roles and addresses. */
module RoleLaws {
  import opened Wrappers
  import opened Membership
  import opened MembershipLaws

  // ---- what a role lets one do ----

  /** The roles a request that asks for `minimum` lets in. */
  function Enough(minimum: Role): set<Role> {
    match minimum
    case Viewer => {Viewer, Commenter, Editor, Owner}
    case Commenter => {Commenter, Editor, Owner}
    case Editor => {Editor, Owner}
    case Owner => {Owner}
  }

  /** A member of a project that is not in the bin is let in exactly if the role on its row is one of those;
      otherwise it is told that its role is too low. */
  lemma RolesLetIn(s: Roster, p: ProjectId, u: UserId, minimum: Role, m: RowId)
    requires Inv(s) && m in RowsFor(s, u, p) && p in s.projects && !s.projects[p].deleted
    ensures Access(s, p, u, minimum).answer ==
            if s.rows[m].role in Enough(minimum) then Success(m) else Failure(RoleTooLow)
  {
    AccessIsClaim(s, p, u, minimum);
    OneRowPerAccount(s, u, p, m, Find(s, u, p).value);
  }

  // ---- inviting ----

  /** A successful invitation puts the address on the project with that role, in that person's name. An account
      that has proved the address is a member from now on, with that role; an account that has not, or that
      holds another address, sees exactly what it saw. */
  lemma InvitationGives(s: Roster, p: ProjectId, actor: UserId, email: Email, role: Role, u: UserId, q: ProjectId)
    requires Inv(s) && p in s.projects && u in s.users && InviteMember(s, p, actor, email, role).answer.Success?
    ensures var out := InviteMember(s, p, actor, email, role);
            var m := out.answer.value;
            && m !in s.rows && m in out.state.rows && out.state.rows.Keys == s.rows.Keys + {m}
            && out.state.rows[m].project == p && out.state.rows[m].email == email
            && out.state.rows[m].role == role && out.state.rows[m].invitedBy == actor
            && (if s.users[u].verified && s.users[u].email == email && q == p
                then RowsFor(out.state, u, q) == {m} && out.state.rows[m].user == Some(u)
                else RowsFor(out.state, u, q) == RowsFor(s, u, q))
  {
    InviteShape(s, p, actor, email, role);
    NextIsFresh(s);
    var out := InviteMember(s, p, actor, email, role);
    var x := InvitedRow(s, p, actor, email, role);
    assert out.state == s.(rows := s.rows[s.next := x], next := s.next + 1);
    if x.user.Some? && s.users[u].email == email { assert x.user == AccountAt(s, email); }
    NewRowSeen(s, out.state, x, u, q);
    if s.users[u].verified && s.users[u].email == email && q == p {
      forall k | k in s.rows ensures k !in RowsFor(s, u, p) { assert RowOk(s, k); }
      assert AccountAt(s, email) == Some(u);
    }
  }

  /** One more row is seen by whom it matches, and nothing else changes. */
  lemma NewRowSeen(s: Roster, s': Roster, x: Row, u: UserId, q: ProjectId)
    requires s.next !in s.rows && s' == s.(rows := s.rows[s.next := x], next := s.next + 1) && u in s.users
    ensures RowsFor(s', u, q) ==
            RowsFor(s, u, q) + if x.project == q && x.status != Revoked &&
                Matches(u, s.users[u], x) then {s.next} else {}
  {
  }

  // ---- a new project ----

  /** All rows a new project has besides its owner's are invited editors, in the creator's name. */
  ghost predicate OthersEdit(s: Roster, p: ProjectId, owner: RowId, founder: UserId) {
    forall m :: m in s.rows && s.rows[m].project == p && m != owner ==>
      s.rows[m].role == Editor && s.rows[m].invitedBy == founder
  }

  lemma {:induction false} InvitedEdit(s: Roster, p: ProjectId, u: UserId, emails: seq<Email>, seen: set<Email>,
                                       owner: RowId)
    requires Inv(s) && p in s.projects && OthersEdit(s, p, owner, u)
    ensures OthersEdit(InviteEach(s, p, u, emails, seen), p, owner, u)
    decreases |emails|
  {
    if emails != [] {
      if emails[0] in seen {
        InvitedEdit(s, p, u, emails[1..], seen, owner);
      } else {
        var s1 := InviteMember(s, p, u, emails[0], Editor).state;
        InviteKeeps(s, p, u, emails[0], Editor);
        InviteAddsAddress(s, p, u, emails[0], Editor);
        InviteShape(s, p, u, emails[0], Editor);
        InvitedEdit(s1, p, u, emails[1..], seen + {emails[0]}, owner);
      }
    }
  }

  lemma NewProjectRoles(s: Roster, u: UserId, p: ProjectId, emails: seq<Email>)
    requires Inv(s) && u in s.users && p !in s.projects
    ensures var s' := InviteEach(FoundProject(s, u, p), p, u, emails, {s.users[u].email});
            && s.next in s'.rows && s'.rows[s.next].role == Owner && OthersEdit(s', p, s.next, u)
            && p in s'.projects && s'.projects[p] == Project(u, false)
  {
    FoundKeeps(s, u, p);
    FoundedRoster(s, u, p);
    var s1 := FoundProject(s, u, p);
    forall k | k in s.rows ensures s.rows[k].project != p { assert RowOk(s, k); }
    InvitedEdit(s1, p, u, emails, {s.users[u].email}, s.next);
    InvitedAll(s1, p, u, emails, {s.users[u].email});
    NewProjectRoster(s, u, p, emails);
  }

  // ---- leaving ----

  /** The row a member who may see the project leaves, and the state it is in when it does. */
  lemma LeaveIsRemoval(s: Roster, p: ProjectId, u: UserId) returns (m: RowId)
    requires Inv(s) && Enabled(s, Leave(p, u)) && p in Visible(s, u)
    ensures m in RowsFor(s, u, p) && Inv(LazyClaim(s, m, u)) && m in RowsFor(LazyClaim(s, m, u), u, p)
    ensures Do(s, Leave(p, u)) == RemoveMember(LazyClaim(s, m, u), p, m)
  {
    m := Find(s, u, p).value;
    RolesLetIn(s, p, u, Viewer, m);
    AccessIsClaim(s, p, u, Viewer);
    LazyClaimKeeps(s, m, u, p);
    LeaverFound(s, m, u, p);
  }

  lemma LeaveUnseen(s: Roster, p: ProjectId, u: UserId)
    requires Inv(s) && Enabled(s, Leave(p, u)) && p !in Visible(s, u)
    ensures Do(s, Leave(p, u)) == Outcome(s, Failure(NotFound))
  {
    AccessRefused(s, p, u, Viewer);
  }

  /** Leaving takes the leaver's own row, whatever it was matched by, unless the leaver is the only owner with an
      account (who stays, and is told so); afterwards the project answers as one that does not exist. Nobody
      else's rows, and none of the leaver's on other projects, change either way. */
  lemma LeavingTakesTheLeaver(s: Roster, p: ProjectId, u: UserId, v: UserId, q: ProjectId)
    requires Inv(s) && Enabled(s, Leave(p, u)) && v in s.users
    ensures var out := Do(s, Leave(p, u));
            && (out.answer == Failure(NotFound) <==> p !in Visible(s, u))
            && (out.answer.Success? ==>
                  && RowsFor(out.state, u, p) == {} && Access(out.state, p, u, Viewer).answer == Failure(NotFound)
                  && out.answer.value in RowsFor(s, u, p) && out.state.rows.Keys == s.rows.Keys - {out.answer.value})
            && (out.answer.Failure? ==>
                  out.answer.error in {NotFound, LastOwner} && RowsFor(out.state, v, q) == RowsFor(s, v, q))
            && (v != u || q != p ==> RowsFor(out.state, v, q) == RowsFor(s, v, q))
  {
    if p in Visible(s, u) {
      var m := LeaveIsRemoval(s, p, u);
      LeaverRemoved(LazyClaim(s, m, u), p, m, u, v, q);
      LazyClaimGrantsNothing(s, m, u, v, q, p);
    } else {
      LeaveUnseen(s, p, u);
    }
  }

  lemma LeaverFound(s: Roster, m: RowId, u: UserId, p: ProjectId)
    requires Inv(s) && m in RowsFor(s, u, p)
    ensures m in RowsFor(LazyClaim(s, m, u), u, p) && LazyClaim(s, m, u).rows.Keys == s.rows.Keys
  {
    LazyClaimGrantsNothing(s, m, u, u, p, p);
  }

  lemma LeaverRemoved(s: Roster, p: ProjectId, m: RowId, u: UserId, v: UserId, q: ProjectId)
    requires Inv(s) && m in RowsFor(s, u, p) && u in s.users
    ensures var out := RemoveMember(s, p, m);
            && (out.answer.Success? ==>
                  && out.answer.value == m && RowsFor(out.state, u, p) == {}
                  && Access(out.state, p, u, Viewer).answer == Failure(NotFound)
                  && out.state.rows.Keys == s.rows.Keys - {m} && out.state.projects == s.projects)
            && (out.answer.Failure? ==> out == Outcome(s, Failure(LastOwner)))
            && (v != u || q != p ==> RowsFor(out.state, v, q) == RowsFor(s, v, q))
  {
    assert m in s.rows;
    if RemoveMember(s, p, m).answer.Success? {
      RemovalEndsAccess(s, p, m, u, q);
      RemovalEndsAccess(s, p, m, v, q);
      if m in RowsFor(s, v, q) { SeenByOne(s, m, u, v, p, q); }
    }
  }

  /** A row is seen by the holder of its address only. */
  lemma SeenByOne(s: Roster, m: RowId, u: UserId, v: UserId, p: ProjectId, q: ProjectId)
    requires Inv(s) && m in RowsFor(s, u, p) && m in RowsFor(s, v, q)
    ensures u == v && p == q
  {
    assert RowOk(s, m);
  }

  // ---- signing up and confirming ----

  /** A new account that has not proved its address sees no project; one that has sees exactly those its address
      is on, and the rows are its own from now on. Nobody else's projects change. */
  lemma NewAccountSees(s: Roster, u: UserId, email: Email, verified: bool, v: UserId, p: ProjectId)
    requires Inv(s) && Enabled(s, Register(u, email, verified)) && Do(s, Register(u, email, verified)).answer.Success?
    ensures var s' := Do(s, Register(u, email, verified)).state;
            && u in s'.users && s'.users[u] == Account(email, verified)
            && RowsFor(s', u, p) == (if verified then RowsOf(s, email, p) else {})
            && (forall m :: m in RowsFor(s', u, p) ==> s'.rows[m].user == Some(u))
            && (v in s.users ==> RowsFor(s', v, p) == RowsFor(s, v, p))
  {
    var s1 := s.(users := s.users[u := Account(email, verified)]);
    RegisterKeeps(s, u, email, verified);
    NewAccountMatches(s, s1, u, email, verified, v, p);
    if verified {
      ClaimingGrantsNothing(s1, u, u, p);
      ClaimingGrantsNothing(s1, u, v, p);
    }
  }

  lemma NewAccountMatches(s: Roster, s1: Roster, u: UserId, email: Email, verified: bool, v: UserId, p: ProjectId)
    requires RowsOk(s) && u !in s.users && s1 == s.(users := s.users[u := Account(email, verified)])
    ensures RowsFor(s1, u, p) == if verified then RowsOf(s, email, p) else {}
    ensures v in s.users ==> RowsFor(s1, v, p) == RowsFor(s, v, p)
  {
    forall m | m in s.rows ensures s.rows[m].user != Some(u) && s.rows[m].status != Revoked { assert RowOk(s, m); }
  }

  function RowsOf(s: Roster, email: Email, p: ProjectId): set<RowId> {
    set m | m in s.rows && s.rows[m].project == p && s.rows[m].email == email
  }

  /** Confirming an address brings exactly the projects that address is on; nobody else's change. */
  lemma ConfirmingSees(s: Roster, u: UserId, v: UserId, p: ProjectId)
    requires Inv(s) && Enabled(s, Verify(u))
    ensures var s' := Do(s, Verify(u)).state;
            && u in s'.users && s'.users[u] == Account(s.users[u].email, true)
            && RowsFor(s', u, p) == RowsOf(s, s.users[u].email, p)
            && (forall m :: m in RowsFor(s', u, p) ==> s'.rows[m].user == Some(u))
            && (v != u ==> RowsFor(s', v, p) == RowsFor(s, v, p))
  {
    var s1 := s.(users := s.users[u := s.users[u].(verified := true)]);
    VerifyKeeps(s, u);
    forall m | m in s.rows
      ensures s.rows[m].status != Revoked && (s.rows[m].user == Some(u) ==> s.rows[m].email == s.users[u].email)
    {
      assert RowOk(s, m);
    }
    assert RowsFor(s1, u, p) == RowsOf(s, s.users[u].email, p);
    ClaimingGrantsNothing(s1, u, u, p);
    ClaimingGrantsNothing(s1, u, v, p);
    if v != u { assert RowsFor(s1, v, p) == RowsFor(s, v, p); }
  }

  // ---- the bin ----

  /** A project in the bin answers as one that does not exist; taken out again, it is seen by whom it was. */
  lemma BinHides(s: Roster, p: ProjectId, u: UserId, minimum: Role)
    requires p in s.projects && u in s.users
    ensures var s' := Do(s, Bin(p)).state;
            Visible(s', u) == Visible(s, u) - {p} && Access(s', p, u, minimum).answer == Failure(NotFound)
  {
    var s' := Do(s, Bin(p)).state;
    forall q: ProjectId ensures RowsFor(s', u, q) == RowsFor(s, u, q) { SameRowsSeen(s, s', u, q); }
    AccessRefused(s', p, u, minimum);
  }

  lemma UnbinShows(s: Roster, p: ProjectId, u: UserId)
    requires p in s.projects && u in s.users
    ensures Visible(Do(s, Unbin(p)).state, u) == Visible(s, u) + if RowsFor(s, u, p) != {} then {p} else {}
  {
    var s' := Do(s, Unbin(p)).state;
    forall q: ProjectId ensures RowsFor(s', u, q) == RowsFor(s, u, q) { SameRowsSeen(s, s', u, q); }
  }

  lemma SameRowsSeen(s: Roster, s': Roster, u: UserId, q: ProjectId)
    requires s'.users == s.users && s'.rows == s.rows
    ensures RowsFor(s', u, q) == RowsFor(s, u, q)
  {
  }
}
