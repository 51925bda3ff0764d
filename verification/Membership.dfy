/** Who may open which project: accounts, projects and one membership row per address. Each call is one
    transaction; addresses are taken as already normalised. */
module Membership {
  import opened Wrappers

  type UserId = nat
  type ProjectId = nat
  type RowId = nat
  type Email = nat

  datatype Role = Viewer | Commenter | Editor | Owner
  datatype Status = Invited | Active | Revoked

  datatype Account = Account(email: Email, verified: bool)
  datatype Project = Project(owner: UserId, deleted: bool)

  /** `user` is empty until an account that has proved the address is attached. */
  datatype Row = Row(project: ProjectId, email: Email, user: Option<UserId>, role: Role, status: Status,
                     invitedBy: UserId)

  /** `next` is the key the next row gets. */
  datatype Roster = Roster(users: map<UserId, Account>, projects: map<ProjectId, Project>, rows: map<RowId, Row>,
                           next: RowId)

  const EMPTY := Roster(map[], map[], map[], 0)

  datatype Refusal = NotFound | RoleTooLow | AlreadyAdded | OwnRole | LastOwner | EmailTaken

  /** What a call leaves and what it answers; a refusal may follow a claim that is already committed. */
  datatype Outcome = Outcome(state: Roster, answer: Result<RowId, Refusal>)

  function Rank(role: Role): nat {
    match role case Viewer => 10 case Commenter => 20 case Editor => 30 case Owner => 40
  }

  // ---- which rows are whose ----

  /** The address counts only once the account has confirmed it. */
  predicate Matches(u: UserId, account: Account, x: Row) {
    x.user == Some(u) || (account.verified && x.email == account.email)
  }

  function RowsFor(s: Roster, u: UserId, p: ProjectId): set<RowId> {
    set m | m in s.rows && u in s.users && s.rows[m].project == p && s.rows[m].status != Revoked
            && Matches(u, s.users[u], s.rows[m])
  }

  /** The project list. */
  function Visible(s: Roster, u: UserId): set<ProjectId> {
    set p | p in s.projects && !s.projects[p].deleted && RowsFor(s, u, p) != {}
  }

  /** The role lookup: a dictionary filled from the rows the query answered, in its order. */
  function RoleMap(s: Roster, found: seq<RowId>): map<ProjectId, Role>
    requires forall m :: m in found ==> m in s.rows
  {
    if found == [] then map[]
    else RoleMap(s, found[..|found| - 1])[s.rows[found[|found| - 1]].project := s.rows[found[|found| - 1]].role]
  }

  /** `find_membership`: any one of the rows that match. */
  ghost function Find(s: Roster, u: UserId, p: ProjectId): (m: Option<RowId>)
    ensures m.Some? ==> m.value in RowsFor(s, u, p)
    ensures m.None? <==> RowsFor(s, u, p) == {}
  {
    if RowsFor(s, u, p) == {} then None else var m :| m in RowsFor(s, u, p); Some(m)
  }

  ghost function RowAt(s: Roster, p: ProjectId, email: Email): (m: Option<RowId>)
    ensures m.Some? ==> m.value in s.rows && s.rows[m.value].project == p && s.rows[m.value].email == email
    ensures m.None? ==> forall k :: k in s.rows && s.rows[k].project == p ==> s.rows[k].email != email
  {
    if exists m :: m in s.rows && s.rows[m].project == p && s.rows[m].email == email
    then var m :| m in s.rows && s.rows[m].project == p && s.rows[m].email == email; Some(m)
    else None
  }

  ghost function AccountAt(s: Roster, email: Email): (u: Option<UserId>)
    ensures u.Some? ==> u.value in s.users && s.users[u.value].email == email
    ensures u.None? ==> forall v :: v in s.users ==> s.users[v].email != email
  {
    if exists u :: u in s.users && s.users[u].email == email
    then var u :| u in s.users && s.users[u].email == email; Some(u)
    else None
  }

  /** Whether a row gives its project somebody who can administer it. */
  predicate Administers(x: Row, p: ProjectId) {
    x.project == p && x.role == Owner && x.status != Revoked && x.user.Some?
  }

  ghost predicate AnotherOwner(s: Roster, p: ProjectId, except: RowId) {
    exists m :: m in s.rows && m != except && Administers(s.rows[m], p)
  }

  // ---- calls ----

  function Attach(x: Row, u: UserId): Row {
    x.(user := Some(u), status := Active)
  }

  /** Fills in the account on a row that was matched by its address. */
  function LazyClaim(s: Roster, m: RowId, u: UserId): Roster
    requires m in s.rows
  {
    if s.rows[m].user.None? then s.(rows := s.rows[m := Attach(s.rows[m], u)]) else s
  }

  ghost function Access(s: Roster, p: ProjectId, u: UserId, minimum: Role): Outcome {
    if p !in s.projects || s.projects[p].deleted then Outcome(s, Failure(NotFound))
    else
      var found := Find(s, u, p);
      if found.None? then Outcome(s, Failure(NotFound))
      else
        var s' := LazyClaim(s, found.value, u);
        if Rank(s.rows[found.value].role) < Rank(minimum) then Outcome(s', Failure(RoleTooLow))
        else Outcome(s', Success(found.value))
  }

  function ClaimInvites(s: Roster, u: UserId): Roster
    requires u in s.users
  {
    s.(rows := map m | m in s.rows ::
         if s.rows[m].email == s.users[u].email && s.rows[m].user.None? then Attach(s.rows[m], u) else s.rows[m])
  }

  function FoundProject(s: Roster, u: UserId, p: ProjectId): Roster
    requires u in s.users
  {
    s.(projects := s.projects[p := Project(u, false)],
       rows := s.rows[s.next := Row(p, s.users[u].email, Some(u), Owner, Active, u)], next := s.next + 1)
  }

  ghost function InviteMember(s: Roster, p: ProjectId, actor: UserId, email: Email, role: Role): Outcome {
    var existing := RowAt(s, p, email);
    if existing.Some? && s.rows[existing.value].status != Revoked then Outcome(s, Failure(AlreadyAdded))
    else
      var account := AccountAt(s, email);
      var claimed := if account.Some? && s.users[account.value].verified then account else None;
      var m := if existing.Some? then existing.value else s.next;
      var x := Row(p, email, claimed, role, if claimed.Some? then Active else Invited, actor);
      Outcome(s.(rows := s.rows[m := x], next := if existing.Some? then s.next else s.next + 1), Success(m))
  }

  ghost function UpdateRole(s: Roster, p: ProjectId, actor: UserId, m: RowId, role: Role): Outcome {
    if m !in s.rows || s.rows[m].project != p then Outcome(s, Failure(NotFound))
    else if s.rows[m].user == Some(actor) then Outcome(s, Failure(OwnRole))
    else if s.rows[m].role == Owner && role != Owner && !AnotherOwner(s, p, m) then Outcome(s, Failure(LastOwner))
    else Outcome(s.(rows := s.rows[m := s.rows[m].(role := role)]), Success(m))
  }

  ghost function RemoveMember(s: Roster, p: ProjectId, m: RowId): Outcome {
    if m !in s.rows || s.rows[m].project != p then Outcome(s, Failure(NotFound))
    else if s.rows[m].role == Owner && !AnotherOwner(s, p, m) then Outcome(s, Failure(LastOwner))
    else Outcome(s.(rows := s.rows - {m}), Success(m))
  }

  // ---- the machine ----

  datatype Step =
    | Register(u: UserId, email: Email, verified: bool) // also an operator's new account, which is verified
    | Verify(u: UserId)
    | Create(u: UserId, p: ProjectId)
    | Invite(p: ProjectId, actor: UserId, email: Email, role: Role)
    | Appoint(p: ProjectId, founder: UserId, email: Email, role: Role) // an invitation `create_project` sends
    | ChangeRole(p: ProjectId, actor: UserId, m: RowId, role: Role)
    | Remove(p: ProjectId, actor: UserId, m: RowId)
    | Leave(p: ProjectId, u: UserId)
    | Visit(p: ProjectId, u: UserId, minimum: Role)
    | Bin(p: ProjectId)
    | Unbin(p: ProjectId)

  ghost predicate Enabled(s: Roster, e: Step) {
    match e
    case Register(u, _, _) => u !in s.users
    case Verify(u) => u in s.users
    case Create(u, p) => u in s.users && p !in s.projects
    case Invite(_, actor, _, _) => actor in s.users
    case Appoint(p, founder, _, _) => founder in s.users && p in s.projects
    case ChangeRole(_, actor, _, _) => actor in s.users
    case Remove(_, actor, _) => actor in s.users
    case Leave(_, u) => u in s.users
    case Visit(_, u, _) => u in s.users
    case Bin(p) => p in s.projects
    case Unbin(p) => p in s.projects
  }

  ghost function Do(s: Roster, e: Step): Outcome
    requires Enabled(s, e)
  {
    match e
    case Register(u, email, verified) =>
      if AccountAt(s, email).Some? then Outcome(s, Failure(EmailTaken))
      else
        var s' := s.(users := s.users[u := Account(email, verified)]);
        Outcome(if verified then ClaimInvites(s', u) else s', Success(u))
    case Verify(u) => Outcome(ClaimInvites(s.(users := s.users[u := s.users[u].(verified := true)]), u), Success(u))
    case Create(u, p) => Outcome(FoundProject(s, u, p), Success(s.next))
    case Invite(p, actor, email, role) =>
      var a := Access(s, p, actor, Owner);
      if a.answer.Failure? then a else InviteMember(a.state, p, actor, email, role)
    case Appoint(p, founder, email, role) => InviteMember(s, p, founder, email, role)
    case ChangeRole(p, actor, m, role) =>
      var a := Access(s, p, actor, Owner);
      if a.answer.Failure? then a else UpdateRole(a.state, p, actor, m, role)
    case Remove(p, actor, m) =>
      var a := Access(s, p, actor, Owner);
      if a.answer.Failure? then a else RemoveMember(a.state, p, m)
    case Leave(p, u) =>
      var a := Access(s, p, u, Viewer);
      if a.answer.Failure? then a else RemoveMember(a.state, p, a.answer.value)
    case Visit(p, u, minimum) => Access(s, p, u, minimum)
    case Bin(p) => Outcome(s.(projects := s.projects[p := s.projects[p].(deleted := true)]), Success(p))
    case Unbin(p) => Outcome(s.(projects := s.projects[p := s.projects[p].(deleted := false)]), Success(p))
  }

  ghost predicate ValidRun(s: Roster, es: seq<Step>)
    decreases |es|
  {
    es == [] || (Enabled(s, es[0]) && ValidRun(Do(s, es[0]).state, es[1..]))
  }

  ghost function Run(s: Roster, es: seq<Step>): Roster
    requires ValidRun(s, es)
    decreases |es|
  {
    if es == [] then s else Run(Do(s, es[0]).state, es[1..])
  }

  // ---- what every state keeps ----

  /** A row belongs to its address: the account on it holds that address and has proved it, unless
      `create_project` wrote the row for its own caller. */
  ghost predicate RowOk(s: Roster, m: RowId)
    requires m in s.rows
  {
    var x := s.rows[m];
    && x.project in s.projects && m < s.next
    && x.status == (if x.user.Some? then Active else Invited)
    && (x.user.Some? ==>
          && x.user.value in s.users && s.users[x.user.value].email == x.email
          && (s.users[x.user.value].verified || (s.projects[x.project].owner == x.user.value == x.invitedBy)))
  }

  ghost predicate RowsOk(s: Roster) { forall m :: m in s.rows ==> RowOk(s, m) }

  ghost predicate AccountsOk(s: Roster) {
    forall u, v :: u in s.users && v in s.users && s.users[u].email == s.users[v].email ==> u == v
  }

  predicate SameSeat(x: Row, y: Row) { x.project == y.project && x.email == y.email }

  ghost predicate SeatsOk(s: Roster) {
    forall m, n :: m in s.rows && n in s.rows && SameSeat(s.rows[m], s.rows[n]) ==> m == n
  }

  ghost predicate HasOwner(s: Roster, p: ProjectId) {
    exists m :: m in s.rows && Administers(s.rows[m], p)
  }

  ghost predicate OwnersOk(s: Roster) { forall p :: p in s.projects ==> HasOwner(s, p) }

  ghost predicate Inv(s: Roster) {
    RowsOk(s) && AccountsOk(s) && SeatsOk(s) && OwnersOk(s)
  }

  // ---- each call keeps them ----

  /** Rows keep their address and project, and an account already on one stays. */
  ghost predicate RowsCarry(s: Roster, s': Roster) {
    && s'.rows.Keys == s.rows.Keys
    && (forall m :: m in s.rows ==>
          && SameSeat(s.rows[m], s'.rows[m])
          && (s.rows[m].user.Some? ==> s'.rows[m] == s.rows[m]))
  }

  lemma OwnerCarries(s: Roster, s': Roster, p: ProjectId)
    requires RowsCarry(s, s') && HasOwner(s, p)
    ensures HasOwner(s', p)
  {
    var m :| m in s.rows && Administers(s.rows[m], p);
    assert Administers(s'.rows[m], p);
  }

  lemma CarryKeeps(s: Roster, s': Roster)
    requires Inv(s) && RowsCarry(s, s') && s'.projects.Keys == s.projects.Keys
    requires forall m :: m in s'.rows ==> RowOk(s', m)
    requires AccountsOk(s')
    ensures Inv(s')
  {
    forall p | p in s'.projects ensures HasOwner(s', p) { OwnerCarries(s, s', p); }
    SeatsCarry(s, s');
  }

  lemma LazyClaimKeeps(s: Roster, m: RowId, u: UserId, p: ProjectId)
    requires Inv(s) && m in RowsFor(s, u, p)
    ensures Inv(LazyClaim(s, m, u)) && LazyClaim(s, m, u).rows[m].user.Some?
  {
    var s' := LazyClaim(s, m, u);
    forall k | k in s'.rows ensures RowOk(s', k) { assert RowOk(s, k); }
    CarryKeeps(s, s');
  }

  lemma AccessIsClaim(s: Roster, p: ProjectId, u: UserId, minimum: Role)
    requires p in s.projects && !s.projects[p].deleted && Find(s, u, p).Some?
    ensures var m, a := Find(s, u, p).value, Access(s, p, u, minimum);
            && m in s.rows && a.state == LazyClaim(s, m, u)
            && a.answer == if Rank(s.rows[m].role) < Rank(minimum) then Failure(RoleTooLow) else Success(m)
  {
  }

  lemma AccessRefused(s: Roster, p: ProjectId, u: UserId, minimum: Role)
    requires p !in s.projects || s.projects[p].deleted || Find(s, u, p).None?
    ensures Access(s, p, u, minimum) == Outcome(s, Failure(NotFound))
  {
  }

  lemma AccessKeeps(s: Roster, p: ProjectId, u: UserId, minimum: Role)
    requires Inv(s)
    ensures var a := Access(s, p, u, minimum);
            && Inv(a.state) && a.state.users == s.users && a.state.projects == s.projects
            && (a.answer.Success? ==> p in s.projects && a.answer.value in a.state.rows)
  {
    if p in s.projects && !s.projects[p].deleted && Find(s, u, p).Some? {
      AccessIsClaim(s, p, u, minimum);
      LazyClaimKeeps(s, Find(s, u, p).value, u, p);
    } else {
      AccessRefused(s, p, u, minimum);
    }
  }

  lemma ClaimKeeps(s: Roster, u: UserId)
    requires Inv(s) && u in s.users && s.users[u].verified
    ensures Inv(ClaimInvites(s, u))
  {
    var s' := ClaimInvites(s, u);
    forall k | k in s'.rows ensures RowOk(s', k) { assert RowOk(s, k); }
    CarryKeeps(s, s');
  }

  lemma VerifyKeeps(s: Roster, u: UserId)
    requires Inv(s) && u in s.users
    ensures Inv(s.(users := s.users[u := s.users[u].(verified := true)]))
  {
    var s' := s.(users := s.users[u := s.users[u].(verified := true)]);
    forall k | k in s'.rows ensures RowOk(s', k) { assert RowOk(s, k); }
    CarryKeeps(s, s');
  }

  lemma RegisterKeeps(s: Roster, u: UserId, email: Email, verified: bool)
    requires Inv(s) && u !in s.users && AccountAt(s, email).None?
    ensures Inv(s.(users := s.users[u := Account(email, verified)]))
  {
    var s' := s.(users := s.users[u := Account(email, verified)]);
    forall k | k in s'.rows ensures RowOk(s', k) { assert RowOk(s, k); }
    CarryKeeps(s, s');
  }

  lemma BinKeeps(s: Roster, p: ProjectId, deleted: bool)
    requires Inv(s) && p in s.projects
    ensures Inv(s.(projects := s.projects[p := s.projects[p].(deleted := deleted)]))
  {
    var s' := s.(projects := s.projects[p := s.projects[p].(deleted := deleted)]);
    forall k | k in s'.rows ensures RowOk(s', k) { assert RowOk(s, k); }
    CarryKeeps(s, s');
  }

  /** One row written anew, under a fresh key. */
  ghost predicate Adds(s: Roster, s': Roster, x: Row) {
    && s' == s.(projects := s'.projects, rows := s.rows[s.next := x], next := s.next + 1)
    && s.next !in s.rows
    && s.projects.Keys <= s'.projects.Keys && (forall p :: p in s.projects ==> s'.projects[p] == s.projects[p])
  }

  lemma AddKeepsRow(s: Roster, s': Roster, x: Row, k: RowId)
    requires Adds(s, s', x) && k in s.rows && RowOk(s, k)
    ensures RowOk(s', k)
  {
  }

  lemma AddKeepsSeats(s: Roster, s': Roster, x: Row)
    requires Adds(s, s', x) && SeatsOk(s) && forall k :: k in s.rows ==> !SameSeat(s.rows[k], x)
    ensures SeatsOk(s')
  {
    forall m, n | m in s'.rows && n in s'.rows && SameSeat(s'.rows[m], s'.rows[n]) ensures m == n {
      if m in s.rows && n in s.rows { assert SameSeat(s.rows[m], s.rows[n]); }
    }
  }

  lemma AddKeepsOwner(s: Roster, s': Roster, x: Row, p: ProjectId)
    requires Adds(s, s', x) && (HasOwner(s, p) || Administers(x, p))
    ensures HasOwner(s', p)
  {
    if HasOwner(s, p) {
      var m :| m in s.rows && Administers(s.rows[m], p);
      assert m in s'.rows && s'.rows[m] == s.rows[m];
    } else {
      assert s'.rows[s.next] == x;
    }
  }

  lemma NextIsFresh(s: Roster)
    requires RowsOk(s)
    ensures s.next !in s.rows
  {
  }

  lemma AddKeeps(s: Roster, s': Roster, x: Row)
    requires Inv(s) && Adds(s, s', x)
    requires forall p :: p in s'.projects && p !in s.projects ==> Administers(x, p)
    requires RowOk(s', s.next) && forall k :: k in s.rows ==> !SameSeat(s.rows[k], x)
    ensures Inv(s')
  {
    forall k | k in s'.rows ensures RowOk(s', k) { if k in s.rows { AddKeepsRow(s, s', x, k); } }
    forall p | p in s'.projects ensures HasOwner(s', p) { AddKeepsOwner(s, s', x, p); }
    AddKeepsSeats(s, s', x);
  }

  lemma FoundKeeps(s: Roster, u: UserId, p: ProjectId)
    requires Inv(s) && u in s.users && p !in s.projects
    ensures Inv(FoundProject(s, u, p))
  {
    NextIsFresh(s);
    forall k | k in s.rows ensures s.rows[k].project != p { assert RowOk(s, k); }
    AddKeeps(s, FoundProject(s, u, p), Row(p, s.users[u].email, Some(u), Owner, Active, u));
  }

  lemma InviteKeeps(s: Roster, p: ProjectId, actor: UserId, email: Email, role: Role)
    requires Inv(s) && p in s.projects
    ensures Inv(InviteMember(s, p, actor, email, role).state)
    ensures InviteMember(s, p, actor, email, role).answer.Failure? <==> RowAt(s, p, email).Some?
  {
    var existing := RowAt(s, p, email);
    if existing.Some? {
      assert RowOk(s, existing.value);
    } else {
      NextIsFresh(s);
      var s' := InviteMember(s, p, actor, email, role).state;
      AddKeeps(s, s', s'.rows[s.next]);
    }
  }

  ghost function InvitedRow(s: Roster, p: ProjectId, actor: UserId, email: Email, role: Role): Row {
    var account := AccountAt(s, email);
    var claimed := if account.Some? && s.users[account.value].verified then account else None;
    Row(p, email, claimed, role, if claimed.Some? then Active else Invited, actor)
  }

  /** An invitation is refused for an address that has a row, and writes one new row otherwise. */
  lemma InviteShape(s: Roster, p: ProjectId, actor: UserId, email: Email, role: Role)
    requires RowsOk(s)
    ensures InviteMember(s, p, actor, email, role) ==
            if RowAt(s, p, email).Some? then Outcome(s, Failure(AlreadyAdded))
            else Outcome(s.(rows := s.rows[s.next := InvitedRow(s, p, actor, email, role)], next := s.next + 1),
                         Success(s.next))
  {
    if RowAt(s, p, email).Some? { assert RowOk(s, RowAt(s, p, email).value); }
  }

  lemma OwnerElsewhere(s: Roster, s': Roster, p: ProjectId, m: RowId)
    requires HasOwner(s, p) && m in s.rows
    requires forall k :: k in s.rows && k != m ==> k in s'.rows && s'.rows[k] == s.rows[k]
    requires AnotherOwner(s, p, m) || !Administers(s.rows[m], p) || (m in s'.rows && Administers(s'.rows[m], p))
    ensures HasOwner(s', p)
  {
    if AnotherOwner(s, p, m) {
      var k :| k in s.rows && k != m && Administers(s.rows[k], p);
      assert k in s'.rows && s'.rows[k] == s.rows[k];
    } else {
      var k :| k in s.rows && Administers(s.rows[k], p);
      if k != m { assert k in s'.rows && s'.rows[k] == s.rows[k]; }
    }
  }

  lemma SeatsCarry(s: Roster, s': Roster)
    requires SeatsOk(s) && s'.rows.Keys <= s.rows.Keys
    requires forall m :: m in s'.rows ==> SameSeat(s.rows[m], s'.rows[m])
    ensures SeatsOk(s')
  {
    forall m, n | m in s'.rows && n in s'.rows && SameSeat(s'.rows[m], s'.rows[n]) ensures m == n {
      assert SameSeat(s.rows[m], s.rows[n]);
    }
  }

  lemma RoleKeepsRow(s: Roster, m: RowId, role: Role, k: RowId)
    requires m in s.rows && k in s.rows && RowOk(s, k)
    ensures RowOk(s.(rows := s.rows[m := s.rows[m].(role := role)]), k)
  {
  }

  lemma UpdateRoleKeeps(s: Roster, p: ProjectId, actor: UserId, m: RowId, role: Role)
    requires Inv(s)
    ensures Inv(UpdateRole(s, p, actor, m, role).state)
  {
    var s' := UpdateRole(s, p, actor, m, role).state;
    if s' != s {
      assert m in s.rows && s' == s.(rows := s.rows[m := s.rows[m].(role := role)]);
      forall k | k in s'.rows ensures RowOk(s', k) { RoleKeepsRow(s, m, role, k); }
      forall q | q in s'.projects ensures HasOwner(s', q) { OwnerElsewhere(s, s', q, m); }
      SeatsCarry(s, s');
    }
  }

  lemma RemoveKeeps(s: Roster, p: ProjectId, m: RowId)
    requires Inv(s)
    ensures Inv(RemoveMember(s, p, m).state)
  {
    var s' := RemoveMember(s, p, m).state;
    if s' != s {
      assert m in s.rows && s' == s.(rows := s.rows - {m});
      forall k | k in s'.rows ensures RowOk(s', k) { assert RowOk(s, k); }
      forall q | q in s'.projects ensures HasOwner(s', q) { OwnerElsewhere(s, s', q, m); }
      SeatsCarry(s, s');
    }
  }

  lemma AccountStepKeeps(s: Roster, e: Step)
    requires e.Register? || e.Verify? || e.Create?
    requires Inv(s) && Enabled(s, e)
    ensures Inv(Do(s, e).state)
  {
    match e
    case Register(u, email, verified) =>
      if AccountAt(s, email).None? {
        RegisterKeeps(s, u, email, verified);
        if verified { ClaimKeeps(s.(users := s.users[u := Account(email, verified)]), u); }
      }
    case Verify(u) =>
      VerifyKeeps(s, u);
      ClaimKeeps(s.(users := s.users[u := s.users[u].(verified := true)]), u);
    case Create(u, p) => FoundKeeps(s, u, p);
  }

  lemma InviteStepKeeps(s: Roster, p: ProjectId, actor: UserId, email: Email, role: Role)
    requires Inv(s) && Enabled(s, Invite(p, actor, email, role))
    ensures Inv(Do(s, Invite(p, actor, email, role)).state)
  {
    AccessKeeps(s, p, actor, Owner);
    var a := Access(s, p, actor, Owner);
    if a.answer.Success? { InviteKeeps(a.state, p, actor, email, role); }
  }

  lemma ChangeRoleStepKeeps(s: Roster, p: ProjectId, actor: UserId, m: RowId, role: Role)
    requires Inv(s) && Enabled(s, ChangeRole(p, actor, m, role))
    ensures Inv(Do(s, ChangeRole(p, actor, m, role)).state)
  {
    AccessKeeps(s, p, actor, Owner);
    UpdateRoleKeeps(Access(s, p, actor, Owner).state, p, actor, m, role);
  }

  lemma RemoveStepKeeps(s: Roster, p: ProjectId, actor: UserId, m: RowId)
    requires Inv(s) && Enabled(s, Remove(p, actor, m))
    ensures Inv(Do(s, Remove(p, actor, m)).state)
  {
    AccessKeeps(s, p, actor, Owner);
    RemoveKeeps(Access(s, p, actor, Owner).state, p, m);
  }

  lemma LeaveStepKeeps(s: Roster, p: ProjectId, u: UserId)
    requires Inv(s) && Enabled(s, Leave(p, u))
    ensures Inv(Do(s, Leave(p, u)).state)
  {
    AccessKeeps(s, p, u, Viewer);
    var a := Access(s, p, u, Viewer);
    RemoveKeeps(a.state, p, if a.answer.Success? then a.answer.value else 0);
  }

  lemma StepKeeps(s: Roster, e: Step)
    requires Inv(s) && Enabled(s, e)
    ensures Inv(Do(s, e).state)
  {
    match e
    case Register(_, _, _) => AccountStepKeeps(s, e);
    case Verify(_) => AccountStepKeeps(s, e);
    case Create(_, _) => AccountStepKeeps(s, e);
    case Appoint(p, founder, email, role) => InviteKeeps(s, p, founder, email, role);
    case Invite(p, actor, email, role) => InviteStepKeeps(s, p, actor, email, role);
    case ChangeRole(p, actor, m, role) => ChangeRoleStepKeeps(s, p, actor, m, role);
    case Remove(p, actor, m) => RemoveStepKeeps(s, p, actor, m);
    case Leave(p, u) => LeaveStepKeeps(s, p, u);
    case Visit(p, u, minimum) => AccessKeeps(s, p, u, minimum);
    case Bin(p) => BinKeeps(s, p, true);
    case Unbin(p) => BinKeeps(s, p, false);
  }
}
