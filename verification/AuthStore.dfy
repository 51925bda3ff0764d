/** The sign-in service: rows, denylist and accounts updated in place. Each method runs as one transaction
    and does what the session machine says. */
module AuthStore {
  import opened Wrappers
  import opened Sessions
  import opened SessionLaws

  datatype Refusal = InvalidRefreshToken | TokenRevoked | ResetTokenUsed | InvalidResetToken | UserInactive

  /** The access tokens the loop over the account's rows has denied once it has handled `done`. */
  function Ended(s: Auth, user: UserId, keep: Option<Jti>, done: set<SessionId>): set<Jti> {
    set id | id in s.sessions && id in done && Swept(s.sessions[id], user, keep, s.now)
             && s.sessions[id].accessExpires > s.now :: s.sessions[id].access
  }

  /** What is left when the loop over the account's rows has handled `done`. */
  function SweepSome(s: Auth, user: UserId, keep: Option<Jti>, done: set<SessionId>): Auth {
    s.(sessions := map id | id in s.sessions ::
         var x := s.sessions[id];
         if id in done && Swept(x, user, keep, s.now) && x.revoked.None? then x.(revoked := Some(s.now)) else x,
       denied := DeniedWith(s, Ended(s, user, keep, done)))
  }

  function DeniedWith(s: Auth, ended: set<Jti>): map<Jti, Time> {
    map j | j in s.denied.Keys + ended ::
      if j in s.denied then s.denied[j] else if j in s.minted then s.minted[j].exp else 0
  }

  lemma DeniedWithOne(s: Auth, ended: set<Jti>, j: Jti)
    requires j in s.minted
    ensures var before := DeniedWith(s, ended);
            DeniedWith(s, ended + {j}) == if j in before then before else before[j := s.minted[j].exp]
  {
  }

  /** The turn of one row of the loop. */
  function SweepRow(s: Auth, keep: Option<Jti>, id: SessionId): Auth
    requires id in s.sessions
  {
    if keep == Some(s.sessions[id].access) then s else EndRow(s, id)
  }

  lemma SweepNone(s: Auth, user: UserId, keep: Option<Jti>)
    ensures SweepSome(s, user, keep, {}) == s
  {
  }

  lemma SweepAll(s: Auth, user: UserId, keep: Option<Jti>, done: set<SessionId>)
    requires forall id :: id in s.sessions && s.sessions[id].user == user && s.sessions[id].expires > s.now ==>
             id in done
    ensures SweepSome(s, user, keep, done) == Sweep(s, user, keep)
  {
    var s1, s2 := SweepSome(s, user, keep, done), Sweep(s, user, keep);
    assert s1.sessions == s2.sessions;
    assert s1.denied == s2.denied;
  }

  lemma SweepNextSessions(s: Auth, user: UserId, keep: Option<Jti>, done: set<SessionId>, id: SessionId)
    requires id in s.sessions && id !in done && s.sessions[id].user == user && s.sessions[id].expires > s.now
    ensures SweepRow(SweepSome(s, user, keep, done), keep, id).sessions ==
            SweepSome(s, user, keep, done + {id}).sessions
  {
  }

  lemma EndedNext(s: Auth, user: UserId, keep: Option<Jti>, done: set<SessionId>, id: SessionId)
    requires id in s.sessions
    ensures Ended(s, user, keep, done + {id}) == Ended(s, user, keep, done)
              + if Swept(s.sessions[id], user, keep, s.now) && s.sessions[id].accessExpires > s.now
                then {s.sessions[id].access} else {}
  {
  }

  lemma SweepNextDenied(s: Auth, user: UserId, keep: Option<Jti>, done: set<SessionId>, id: SessionId)
    requires id in s.sessions && s.sessions[id].user == user && s.sessions[id].expires > s.now && RowOk(s, id)
    ensures SweepRow(SweepSome(s, user, keep, done), keep, id).denied == SweepSome(s, user, keep, done + {id}).denied
  {
    EndedNext(s, user, keep, done, id);
    DeniedWithOne(s, Ended(s, user, keep, done), s.sessions[id].access);
    RowDenies(SweepSome(s, user, keep, done), keep, id);
    var ended := Ended(s, user, keep, done);
    assert ended + {} == ended;
  }

  lemma RowDenies(s: Auth, keep: Option<Jti>, id: SessionId)
    requires id in s.sessions
    ensures var x := s.sessions[id];
            SweepRow(s, keep, id).denied ==
            if keep == Some(x.access) || x.accessExpires <= s.now || x.access in s.denied then s.denied
            else s.denied[x.access := x.accessExpires]
  {
  }

  lemma SweepNext(s: Auth, user: UserId, keep: Option<Jti>, done: set<SessionId>, id: SessionId)
    requires id in s.sessions && id !in done && RowOk(s, id)
    requires s.sessions[id].user == user && s.sessions[id].expires > s.now
    ensures SweepRow(SweepSome(s, user, keep, done), keep, id) == SweepSome(s, user, keep, done + {id})
    ensures SweepSome(s, user, keep, done).sessions[id] == s.sessions[id]
  {
    SweepNextSessions(s, user, keep, done, id);
    SweepNextDenied(s, user, keep, done, id);
  }

  /** The account's rows the loop has stamped: what it counts. */
  function StampedIn(s: Auth, user: UserId, keep: Option<Jti>, done: set<SessionId>): set<SessionId> {
    set id | id in s.sessions && id in done && Swept(s.sessions[id], user, keep, s.now) && s.sessions[id].revoked.None?
  }

  lemma StampedNext(s: Auth, user: UserId, keep: Option<Jti>, done: set<SessionId>, id: SessionId)
    requires id in s.sessions && id !in done && s.sessions[id].user == user && s.sessions[id].expires > s.now
    ensures |StampedIn(s, user, keep, done + {id})| == |StampedIn(s, user, keep, done)|
              + if keep != Some(s.sessions[id].access) && s.sessions[id].revoked.None? then 1 else 0
  {
    var before, after := StampedIn(s, user, keep, done), StampedIn(s, user, keep, done + {id});
    if keep != Some(s.sessions[id].access) && s.sessions[id].revoked.None? {
      assert after == before + {id};
    } else {
      assert after == before;
    }
  }

  /** The query behind "sign out everywhere": the account's unexpired rows, each once. */
  ghost predicate Answers(s: Auth, user: UserId, rows: seq<SessionId>) {
    && (forall id :: id in rows <==> id in s.sessions && s.sessions[id].user == user && s.sessions[id].expires > s.now)
    && (forall i, j :: 0 <= i < j < |rows| ==> rows[i] != rows[j])
  }

  function Handled(rows: seq<SessionId>): set<SessionId> {
    set id | id in rows
  }

  lemma TurnOf(s: Auth, user: UserId, rows: seq<SessionId>, i: nat)
    requires RowsOk(s) && Answers(s, user, rows) && i < |rows|
    ensures rows[i] in s.sessions && rows[i] !in Handled(rows[..i]) && RowOk(s, rows[i])
    ensures s.sessions[rows[i]].user == user && s.sessions[rows[i]].expires > s.now
    ensures Handled(rows[..i + 1]) == Handled(rows[..i]) + {rows[i]}
  {
    assert rows[i] in rows;
    assert rows[..i + 1] == rows[..i] + [rows[i]];
  }

  class AuthStore {
    const limits: Limits
    var now: Time
    var accounts: map<UserId, Account>
    var sessions: map<SessionId, Session>
    var denied: map<Jti, Time>
    var minted: map<Jti, Token>
    var made: map<Jti, SessionId>
    var signIns: set<SessionId>

    /** The machine's state between requests: nobody holds a row. */
    function State(): Auth
      reads this
    {
      Auth(limits, now, accounts, sessions, denied, minted, made, signIns, map[])
    }

    constructor (limits: Limits, now: Time)
      ensures State() == Start(limits, now)
    {
      this.limits := limits;
      this.now := now;
      accounts, sessions, denied, minted, made, signIns := map[], map[], map[], map[], map[], {};
    }

    method Pair(user: UserId, chain: SessionId, refresh: Jti, access: Jti, id: SessionId)
      modifies this
      ensures State() == Issue(old(State()), user, chain, refresh, access, id)
    {
      var r, a := Mint(State(), Refresh, user), Mint(State(), Access, user);
      signIns := signIns + {chain};
      minted := minted[refresh := r][access := a];
      made := made[refresh := id][access := id];
      sessions := sessions[id := Session(user, chain, refresh, access, a.exp, now + limits.refresh, None)];
    }

    method RevokeJti(j: Jti)
      requires j in minted
      modifies this`denied
      ensures State() == Deny(old(State()), j)
    {
      if j !in denied { denied := denied[j := minted[j].exp]; }
    }

    method RevokeSessionAccess(id: SessionId)
      requires id in sessions
      modifies this`denied
      ensures State() == DenyAccess(old(State()), id)
      ensures sessions[id].accessExpires <= now || sessions[id].access in denied
      ensures forall j :: j != sessions[id].access || j in old(denied) ==>
                (j in denied <==> j in old(denied)) && (j in denied ==> denied[j] == old(denied)[j])
    {
      var x := sessions[id];
      if x.accessExpires <= now { return; }
      if x.access in denied { return; }
      denied := denied[x.access := x.accessExpires];
    }

    /** Stamps a row that is not stamped yet, and denylists its access token either way. */
    method EndSession(id: SessionId) returns (stamped: bool)
      requires id in sessions
      modifies this`sessions, this`denied
      ensures State() == EndRow(old(State()), id)
      ensures stamped <==> old(sessions[id]).revoked.None?
    {
      stamped := sessions[id].revoked.None?;
      assert sessions[id := sessions[id]] == sessions;
      if stamped { sessions := sessions[id := sessions[id].(revoked := Some(now))]; }
      RevokeSessionAccess(id);
    }

    /** One row of `RevokeAllSessions`, the rows in `done` having been handled since state s. */
    method RevokeListed(id: SessionId, user: UserId, keep: Option<Jti>, ghost s: Auth, ghost done: set<SessionId>)
        returns (stamped: bool)
      requires State() == SweepSome(s, user, keep, done)
      requires id in s.sessions && id !in done && RowOk(s, id)
      requires s.sessions[id].user == user && s.sessions[id].expires > s.now
      modifies this`sessions, this`denied
      ensures State() == SweepSome(s, user, keep, done + {id})
      ensures |StampedIn(s, user, keep, done + {id})| == |StampedIn(s, user, keep, done)| + if stamped then 1 else 0
    {
      SweepNext(s, user, keep, done, id);
      StampedNext(s, user, keep, done, id);
      stamped := false;
      if keep != Some(sessions[id].access) { stamped := EndSession(id); }
    }

    /** Ends every sign-in of the account but the one whose access token is `keep`. `rows` is what the
        query answered: the account's unexpired rows, in any order. */
    method RevokeAllSessions(user: UserId, keep: Option<Jti>, rows: seq<SessionId>) returns (ended: nat)
      requires RowsOk(State()) && Answers(State(), user, rows)
      modifies this`sessions, this`denied
      ensures State() == Sweep(old(State()), user, keep)
      ensures ended == |StampedIn(old(State()), user, keep, old(sessions).Keys)|
    {
      ended := 0;
      ghost var s := State();
      ghost var done: set<SessionId> := {};
      SweepNone(s, user, keep);
      for i := 0 to |rows|
        invariant done == Handled(rows[..i])
        invariant State() == SweepSome(s, user, keep, done)
        invariant ended == |StampedIn(s, user, keep, done)|
      {
        TurnOf(s, user, rows, i);
        var stamped := RevokeListed(rows[i], user, keep, s, done);
        if stamped { ended := ended + 1; }
        done := done + {rows[i]};
      }
      assert rows[..|rows|] == rows;
      SweepAll(s, user, keep, done);
      assert StampedIn(s, user, keep, done) == StampedIn(s, user, keep, s.sessions.Keys);
    }

    method PurgeExpiredRevocations()
      modifies this`denied
      ensures State() == Purge(old(State()))
    {
      denied := map j | j in denied && denied[j] >= now :: denied[j];
    }

    /** Succeeds exactly for a usable token, and then does what the machine's three steps do. */
    method RefreshTokens(token: Jti, refresh: Jti, access: Jti, id: SessionId) returns (r: Result<SessionId, Refusal>)
      requires Inv(State()) && Fresh(State(), refresh, access, id)
      modifies this
      ensures r.Success? <==> Usable(old(State()), token)
      ensures r.Failure? ==> State() == old(State())
      ensures r == Failure(TokenRevoked) <==> Decodes(old(State()), token, Refresh) && token in old(denied)
      ensures r.Success? ==>
                var es := [StartRefresh(0, token), LockRow(0, old(made[token])), Rotate(0, refresh, access, id)];
                ValidRun(old(State()), es) && State() == Run(old(State()), es)
      ensures Inv(State())
    {
      ghost var s := State();
      if !Decodes(State(), token, Refresh) { return Failure(InvalidRefreshToken); }
      if token in denied { return Failure(TokenRevoked); }
      if !IsActive(State(), minted[token].user) { return Failure(UserInactive); }
      assert TokenOk(s, token);
      var row := made[token];
      if !Refreshable(sessions[row], now) { return Failure(InvalidRefreshToken); }
      ghost var es := [StartRefresh(0, token), LockRow(0, row), Rotate(0, refresh, access, id)];
      RotationRefines(s, token, row, refresh, access, id);
      sessions := sessions[row := sessions[row].(revoked := Some(now))];
      RevokeSessionAccess(row);
      RevokeJti(token);
      Pair(sessions[row].user, sessions[row].chain, refresh, access, id);
      return Success(id);
    }

    /** Sign out of one device; a token that does not decode finds no row and is not denied. */
    method Logout(access: Jti, presented: Option<Jti>)
      requires Inv(State()) && Enabled(State(), Step.Logout(access, presented))
      modifies this`sessions, this`denied
      ensures State() == Next(old(State()), Step.Logout(access, presented)) && Inv(State())
    {
      SignOutKeeps(State(), access, presented);
      var row := SignOutRow(State(), access, presented);
      RevokeJti(access);
      if presented.Some? && Decodes(State(), presented.value, Refresh) { RevokeJti(presented.value); }
      if row.Some? {
        var _ := EndSession(row.value);
      }
      PurgeExpiredRevocations();
    }

    /** Sets a new password by an emailed link and ends every sign-in of the account. */
    method ResetPassword(link: Jti, rows: seq<SessionId>) returns (r: Result<UserId, Refusal>)
      requires Inv(State())
      requires Decodes(State(), link, Reset) ==> Answers(State(), minted[link].user, rows)
      modifies this`accounts, this`sessions, this`denied
      ensures r.Success? <==> LinkWorks(old(State()), link)
      ensures State() == if r.Success? then Next(old(State()), FollowLink(link)) else old(State())
      ensures Inv(State())
    {
      if !Decodes(State(), link, Reset) { return Failure(InvalidResetToken); }
      if link in denied { return Failure(ResetTokenUsed); }
      var user := minted[link].user;
      if !IsActive(State(), user) { return Failure(UserInactive); }
      if minted[link].iat < WholeSeconds(accounts[user].changed) { return Failure(ResetTokenUsed); }
      ghost var s := State();
      FollowLinkKeeps(s, link);
      accounts := accounts[user := accounts[user].(mustChange := false, changed := now)];
      AccountKeeps(s, State());
      DenyKeeps(State(), link);
      RevokeJti(link);
      var _ := RevokeAllSessions(user, None, rows);
      return Success(user);
    }
  }

  /** The three steps of a refresh that nobody gets in between. */
  lemma RotationRun(s: Auth, token: Jti, row: SessionId, refresh: Jti, access: Jti, id: SessionId)
    requires Inv(s) && s.rotations == map[] && Usable(s, token) && row == s.made[token] && Fresh(s, refresh, access, id)
    ensures var es := [StartRefresh(0, token), LockRow(0, row), Rotate(0, refresh, access, id)];
            && ValidRun(s, es)
            && Run(s, es) == Issue(Deny(EndRow(s, row), token), s.sessions[row].user, s.sessions[row].chain,
                                   refresh, access, id)
  {
    var s1 := Next(s, StartRefresh(0, token));
    assert RowOk(s, row);
    assert s1.rotations == map[0 := Rotation(token, None)];
    var s2 := Next(s1, LockRow(0, row));
    assert s2 == s.(rotations := map[0 := Rotation(token, Some(row))]);
    assert s2.(rotations := s2.rotations - {0}) == s;
    RunOfThree(s, StartRefresh(0, token), LockRow(0, row), Rotate(0, refresh, access, id));
  }

  lemma RotationRefines(s: Auth, token: Jti, row: SessionId, refresh: Jti, access: Jti, id: SessionId)
    requires Inv(s) && s.rotations == map[] && Usable(s, token) && row == s.made[token] && Fresh(s, refresh, access, id)
    ensures var es := [StartRefresh(0, token), LockRow(0, row), Rotate(0, refresh, access, id)];
            var s' := Issue(Deny(EndRow(s, row), token), s.sessions[row].user, s.sessions[row].chain, refresh,
                            access, id);
            ValidRun(s, es) && Run(s, es) == s' && Inv(s')
  {
    RotationRun(s, token, row, refresh, access, id);
    RunKeeps(s, [StartRefresh(0, token), LockRow(0, row), Rotate(0, refresh, access, id)]);
  }

  lemma RunOfThree(s: Auth, a: Step, b: Step, c: Step)
    requires Enabled(s, a) && Enabled(Next(s, a), b) && Enabled(Next(Next(s, a), b), c)
    ensures ValidRun(s, [a, b, c]) && Run(s, [a, b, c]) == Next(Next(Next(s, a), b), c)
  {
    var es := [a, b, c];
    assert es[1..] == [b, c] && [b, c][1..] == [c] && [c][1..] == [];
    var s1 := Next(s, a);
    var s2 := Next(s1, b);
    assert ValidRun(s2, [c]) && Run(s2, [c]) == Next(s2, c);
    assert ValidRun(s1, [b, c]) && Run(s1, [b, c]) == Next(s2, c);
  }
}
