/** The membership service: rows updated in place, each method one transaction or a run of them. */
module MembershipStore {
  import opened Wrappers
  import opened Membership
  import opened MembershipLaws

  lemma RowAtIs(s: Roster, p: ProjectId, email: Email, found: set<RowId>)
    requires found == set m | m in s.rows && s.rows[m].project == p && s.rows[m].email == email
    ensures RowAt(s, p, email).None? <==> found == {}
  {
    var m := RowAt(s, p, email);
    if m.Some? { assert m.value in found; }
  }

  lemma AccountAtIs(s: Roster, email: Email, holders: set<UserId>)
    requires AccountsOk(s) && holders == set u | u in s.users && s.users[u].email == email
    ensures AccountAt(s, email).None? <==> holders == {}
    ensures forall u :: u in holders ==> AccountAt(s, email) == Some(u)
  {
    var u := AccountAt(s, email);
    if u.Some? { assert u.value in holders; }
  }

  /** An invitation as the machine has it: a refusal, or one new row that keeps the invariant. */
  lemma InviteDone(s: Roster, p: ProjectId, actor: UserId, email: Email, role: Role)
    requires Inv(s) && p in s.projects
    ensures var out := Membership.InviteMember(s, p, actor, email, role);
            if RowAt(s, p, email).Some? then out == Outcome(s, Failure(AlreadyAdded))
            else
              var s' := s.(rows := s.rows[s.next := InvitedRow(s, p, actor, email, role)], next := s.next + 1);
              out == Outcome(s', Success(s.next)) && Inv(s')
  {
    InviteKeeps(s, p, actor, email, role);
    InviteShape(s, p, actor, email, role);
  }

  class MembershipStore {
    var users: map<UserId, Account>
    var projects: map<ProjectId, Project>
    var rows: map<RowId, Row>
    var next: RowId

    function State(): Roster
      reads this
    {
      Roster(users, projects, rows, next)
    }

    constructor ()
      ensures State() == EMPTY
    {
      users, projects, rows, next := map[], map[], map[], 0;
    }

    /** Attaches each pending invitation for the account's address. `pending` is what the query answered,
        in any order. */
    method ClaimInvites(u: UserId, pending: seq<RowId>) returns (count: nat)
      requires u in users
      requires forall m :: m in pending <==> m in rows && rows[m].email == users[u].email && rows[m].user.None?
      requires forall i, j :: 0 <= i < j < |pending| ==> pending[i] != pending[j]
      modifies this`rows
      ensures State() == Membership.ClaimInvites(old(State()), u)
      ensures count == |pending|
    {
      for i := 0 to |pending|
        invariant rows.Keys == old(rows).Keys
        invariant forall m :: m in rows ==>
                    rows[m] == if m in pending[..i] then Attach(old(rows)[m], u) else old(rows)[m]
      {
        assert pending[i] in pending;
        assert pending[..i + 1] == pending[..i] + [pending[i]];
        rows := rows[pending[i] := Attach(rows[pending[i]], u)];
      }
      assert pending[..|pending|] == pending;
      assert rows == Membership.ClaimInvites(old(State()), u).rows;
      return |pending|;
    }

    /** The caller's row on a project, with its account filled in. */
    method FindMembership(p: ProjectId, u: UserId) returns (found: Option<RowId>)
      requires Inv(State()) && u in users
      modifies this`rows
      ensures found == Find(old(State()), u, p)
      ensures State() == if found.Some? then LazyClaim(old(State()), found.value, u) else old(State())
    {
      var matching := RowsFor(State(), u, p);
      if matching == {} { return None; }
      var m :| m in matching;
      OneRowPerAccount(State(), u, p, m, Find(State(), u, p).value);
      if rows[m].user.None? { rows := rows[m := Attach(rows[m], u)]; }
      return Some(m);
    }

    method ResolveAccess(p: ProjectId, u: UserId, minimum: Role) returns (answer: Result<RowId, Refusal>)
      requires Inv(State()) && u in users
      modifies this`rows
      ensures Outcome(State(), answer) == Access(old(State()), p, u, minimum) && Inv(State())
    {
      AccessKeeps(State(), p, u, minimum);
      if p !in projects || projects[p].deleted { return Failure(NotFound); }
      var found := FindMembership(p, u);
      if found.None? { return Failure(NotFound); }
      if Rank(rows[found.value].role) < Rank(minimum) { return Failure(RoleTooLow); }
      return Success(found.value);
    }

    method InviteMember(p: ProjectId, actor: UserId, email: Email, role: Role) returns (answer: Result<RowId, Refusal>)
      requires Inv(State()) && p in projects
      modifies this`rows, this`next
      ensures Outcome(State(), answer) == Membership.InviteMember(old(State()), p, actor, email, role) && Inv(State())
    {
      InviteDone(State(), p, actor, email, role);
      var member := MemberToAdd(p, actor, email, role);
      if member.None? { return Failure(AlreadyAdded); }
      var m := Add(member.value);
      return Success(m);
    }

    /** Writes a row under a fresh key. */
    method Add(member: Row) returns (m: RowId)
      modifies this`rows, this`next
      ensures m == old(next)
      ensures State() == old(State()).(rows := old(rows)[m := member], next := m + 1)
    {
      m := next;
      rows := rows[m := member];
      next := m + 1;
    }

    /** The row an invitation writes, unless the address has one. */
    method MemberToAdd(p: ProjectId, actor: UserId, email: Email, role: Role) returns (member: Option<Row>)
      requires AccountsOk(State())
      ensures member == if RowAt(State(), p, email).Some? then None
                        else Some(InvitedRow(State(), p, actor, email, role))
    {
      var existing := set m | m in rows && rows[m].project == p && rows[m].email == email;
      RowAtIs(State(), p, email, existing);
      if existing != {} { return None; }
      var claimed := VerifiedAccount(email);
      return Some(Row(p, email, claimed, role, if claimed.Some? then Active else Invited, actor));
    }

    /** The account that has proved it holds this address. */
    method VerifiedAccount(email: Email) returns (claimed: Option<UserId>)
      requires AccountsOk(State())
      ensures claimed == if AccountAt(State(), email).Some? && users[AccountAt(State(), email).value].verified
                         then AccountAt(State(), email) else None
    {
      var holders := set u | u in users && users[u].email == email;
      AccountAtIs(State(), email, holders);
      if holders == {} { return None; }
      var u :| u in holders;
      return if users[u].verified then Some(u) else None;
    }

    /** Does some other member with an account own the project? */
    method AnotherOwnerRemains(p: ProjectId, except: RowId) returns (yes: bool)
      ensures yes <==> AnotherOwner(State(), p, except)
    {
      var others := set m | m in rows && m != except && Administers(rows[m], p);
      yes := others != {};
      if AnotherOwner(State(), p, except) {
        ghost var m :| m in rows && m != except && Administers(rows[m], p);
        assert m in others;
      }
    }

    method UpdateMemberRole(p: ProjectId, actor: UserId, m: RowId, role: Role) returns (answer: Result<RowId, Refusal>)
      requires Inv(State())
      modifies this`rows
      ensures Outcome(State(), answer) == UpdateRole(old(State()), p, actor, m, role) && Inv(State())
    {
      UpdateRoleKeeps(State(), p, actor, m, role);
      if m !in rows || rows[m].project != p { return Failure(NotFound); }
      if rows[m].user == Some(actor) { return Failure(OwnRole); }
      if rows[m].role == Owner && role != Owner {
        var remains := AnotherOwnerRemains(p, m);
        if !remains { return Failure(LastOwner); }
      }
      ghost var s := State();
      rows := rows[m := rows[m].(role := role)];
      assert State() == UpdateRole(s, p, actor, m, role).state;
      return Success(m);
    }

    method RemoveMember(p: ProjectId, m: RowId) returns (answer: Result<RowId, Refusal>)
      requires Inv(State())
      modifies this`rows
      ensures Outcome(State(), answer) == Membership.RemoveMember(old(State()), p, m) && Inv(State())
    {
      RemoveKeeps(State(), p, m);
      if m !in rows || rows[m].project != p { return Failure(NotFound); }
      if rows[m].role == Owner {
        var remains := AnotherOwnerRemains(p, m);
        if !remains { return Failure(LastOwner); }
      }
      ghost var s := State();
      rows := rows - {m};
      assert State() == Membership.RemoveMember(s, p, m).state;
      return Success(m);
    }

    /** Writes the project and its owner's row, then invites each other address once. */
    method CreateProject(u: UserId, p: ProjectId, emails: seq<Email>)
      requires Inv(State()) && u in users && p !in projects
      modifies this
      ensures State() == InviteEach(FoundProject(old(State()), u, p), p, u, emails, {old(users)[u].email})
      ensures Inv(State())
    {
      ghost var s := FoundProject(State(), u, p);
      FoundKeeps(State(), u, p);
      projects := projects[p := Project(u, false)];
      rows := rows[next := Row(p, users[u].email, Some(u), Owner, Active, u)];
      next := next + 1;
      var seen := {users[u].email};
      var i := 0;
      while i < |emails|
        invariant 0 <= i <= |emails|
        invariant Inv(State()) && p in projects
        invariant InviteEach(State(), p, u, emails[i..], seen) == InviteEach(s, p, u, emails, {old(users)[u].email})
      {
        assert emails[i..][0] == emails[i] && emails[i..][1..] == emails[i + 1..];
        if emails[i] !in seen {
          seen := seen + {emails[i]};
          var _ := InviteMember(p, u, emails[i], Editor);
        }
        i := i + 1;
      }
    }
  }
}
