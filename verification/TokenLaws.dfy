/** How long each token lives, what switching an account off does, when an issued password may be replaced
    and what a purge removes, over every run of the session machine. */
module TokenLaws {
  import opened Wrappers
  import opened Sessions
  import opened SessionLaws

  // ---- lifetimes ----

  /** The configured lifetime of a kind of token. */
  predicate IsLife(limits: Limits, kind: Kind, life: nat) {
    && (kind == Access ==> life == limits.access)
    && (kind == Refresh ==> life == limits.refresh)
    && (kind == Reset ==> life == limits.reset)
  }

  /** It expires its own kind's lifetime after it was minted, to the second. */
  ghost predicate LivesOut(limits: Limits, t: Token) {
    forall life: nat :: IsLife(limits, t.kind, life) ==> t.iat + life < t.exp + SECOND && t.exp < t.iat + life + SECOND
  }

  ghost predicate LivesOk(s: Auth) {
    forall j :: j in s.minted ==> LivesOut(s.limits, s.minted[j])
  }

  /** A token a step adds is stamped with the second of the step. */
  ghost predicate MintedNow(s: Auth, t: Token) {
    t.iat <= s.now < t.iat + SECOND && LivesOut(s.limits, t)
  }

  lemma MintLives(s: Auth, kind: Kind, user: UserId)
    ensures MintedNow(s, Mint(s, kind, user))
  {
  }

  /** What a new pair adds. */
  lemma IssueAdds(s: Auth, user: UserId, chain: SessionId, refresh: Jti, access: Jti, id: SessionId)
    requires Fresh(s, refresh, access, id)
    ensures var s' := Issue(s, user, chain, refresh, access, id);
            && s'.limits == s.limits && s'.minted.Keys == s.minted.Keys + {refresh, access}
            && (forall j :: j in s.minted ==> s'.minted[j] == s.minted[j])
            && s'.minted[refresh].kind == Refresh && s'.minted[access].kind == Access
            && MintedFor(s, s'.minted[refresh], user) && MintedFor(s, s'.minted[access], user)
            && s'.sessions.Keys == s.sessions.Keys + {id} && s'.sessions[id].revoked.None?
            && s'.sessions[id].user == user && s'.sessions[id].chain == chain
            && s'.sessions[id].refresh == refresh && s'.sessions[id].access == access
  {
    MintLives(s, Access, user);
    MintLives(s, Refresh, user);
  }

  /** A token minted by a step is stamped now, lives its kind's time, and is for this person. */
  ghost predicate MintedFor(s: Auth, t: Token, user: UserId) {
    MintedNow(s, t) && t.user == user
  }

  /** The steps that neither mint nor add a row. */
  predicate Mints(e: Step) {
    e.SignIn? || e.Rotate? || e.SendLink?
  }

  lemma SignOutShape(s: Auth, access: Jti, presented: Option<Jti>)
    requires access in s.minted
    ensures var s', row := SignOut(s, access, presented), SignOutRow(s, access, presented);
            && s' == s.(sessions := s'.sessions, denied := s'.denied) && s'.sessions.Keys == s.sessions.Keys
            && forall id :: id in s.sessions && row != Some(id) ==> s'.sessions[id] == s.sessions[id]
  {
  }

  lemma SweepingMintsNothing(s: Auth, e: Step)
    requires Enabled(s, e) && (e.RevokeAll? || e.SetInitial? || e.FollowLink?)
    ensures Next(s, e).minted == s.minted && Next(s, e).sessions.Keys == s.sessions.Keys &&
            Next(s, e).limits == s.limits
  {
    match e
    case RevokeAll(user, keep) => SweepFacts(s, user, keep);
    case SetInitial(user, keep) => SweepFacts(ChoosePassword(s, user), user, keep);
    case FollowLink(link) =>
      SweepFacts(Deny(ChoosePassword(s, s.minted[link].user), link), s.minted[link].user, None);
  }

  lemma OthersMintNothing(s: Auth, e: Step)
    requires Enabled(s, e) && !Mints(e)
    ensures Next(s, e).minted == s.minted && Next(s, e).sessions.Keys == s.sessions.Keys &&
            Next(s, e).limits == s.limits
  {
    if e.Logout? {
      SignOutShape(s, e.access, e.presented);
    } else if e.RevokeAll? || e.SetInitial? || e.FollowLink? {
      SweepingMintsNothing(s, e);
    } else {
      PlainMintsNothing(s, e);
    }
  }

  lemma PlainMintsNothing(s: Auth, e: Step)
    requires Enabled(s, e) && !Mints(e) && !e.Logout? && !e.RevokeAll? && !e.SetInitial? && !e.FollowLink?
    ensures Next(s, e).minted == s.minted && Next(s, e).sessions.Keys == s.sessions.Keys &&
            Next(s, e).limits == s.limits
  {
  }

  lemma RotationAdds(s: Auth, q: RequestId, refresh: Jti, access: Jti, id: SessionId)
    requires Enabled(s, Rotate(q, refresh, access, id))
    ensures var s', was := Next(s, Rotate(q, refresh, access, id)), s.sessions[s.rotations[q].row.value];
            && s'.limits == s.limits && s'.minted.Keys == s.minted.Keys + {refresh, access}
            && (forall j :: j in s.minted ==> s'.minted[j] == s.minted[j])
            && s'.minted[refresh].kind == Refresh && s'.minted[access].kind == Access
            && MintedFor(s, s'.minted[refresh], was.user) && MintedFor(s, s'.minted[access], was.user)
            && s'.sessions.Keys == s.sessions.Keys + {id} && s'.sessions[id].revoked.None?
            && s'.sessions[id].user == was.user && s'.sessions[id].chain == was.chain
            && s'.sessions[id].refresh == refresh && s'.sessions[id].access == access
  {
    var row, s1 := s.rotations[q].row.value, RotatedOut(s, q);
    RotatedOutFacts(s, q);
    assert s1.limits == s.limits && s1.now == s.now;
    IssueAdds(s1, s.sessions[row].user, s.sessions[row].chain, refresh, access, id);
  }

  /** Whom a step mints a token for, and of which kind. */
  ghost predicate MintsFor(s: Auth, e: Step, j: Jti, kind: Kind, user: UserId) {
    match e
    case SignIn(u, refresh, access, _) => u == user && ((j == access && kind == Access) ||
                                                        (j == refresh && kind == Refresh))
    case Rotate(q, refresh, access, _) =>
      && q in s.rotations && s.rotations[q].row.Some? && s.rotations[q].row.value in s.sessions
      && s.sessions[s.rotations[q].row.value].user == user
      && ((j == access && kind == Access) || (j == refresh && kind == Refresh))
    case SendLink(u, link) => u == user && j == link && kind == Reset
    case _ => false
  }

  /** A token a step adds is stamped now, lives its own kind's time, and is for the person who signed in, rotated
      or asked for a link. */
  lemma StepMints(s: Auth, e: Step, j: Jti)
    requires Enabled(s, e) && j in Next(s, e).minted && j !in s.minted
    ensures MintedNow(s, Next(s, e).minted[j])
    ensures MintsFor(s, e, j, Next(s, e).minted[j].kind, Next(s, e).minted[j].user)
  {
    if e.SignIn? {
      IssueAdds(s, e.user, e.id, e.refresh, e.access, e.id);
    } else if e.Rotate? {
      RotationAdds(s, e.q, e.refresh, e.access, e.id);
    } else if e.SendLink? {
      MintLives(s, Reset, e.user);
    } else {
      OthersMintNothing(s, e);
    }
  }

  lemma StepKeepsTokens(s: Auth, e: Step)
    requires Enabled(s, e)
    ensures Next(s, e).limits == s.limits
    ensures forall j :: j in s.minted && j in Next(s, e).minted ==> Next(s, e).minted[j] == s.minted[j]
  {
    if e.SignIn? {
      IssueAdds(s, e.user, e.id, e.refresh, e.access, e.id);
    } else if e.Rotate? {
      RotationAdds(s, e.q, e.refresh, e.access, e.id);
    } else if !e.SendLink? {
      OthersMintNothing(s, e);
    }
  }

  lemma StepKeepsLives(s: Auth, e: Step)
    requires Enabled(s, e) && LivesOk(s)
    ensures LivesOk(Next(s, e)) && Next(s, e).limits == s.limits
  {
    StepKeepsTokens(s, e);
    forall j | j in Next(s, e).minted ensures LivesOut(Next(s, e).limits, Next(s, e).minted[j]) {
      if j !in s.minted { StepMints(s, e, j); }
    }
  }

  lemma {:induction false} RunKeepsLives(s: Auth, es: seq<Step>)
    requires ValidRun(s, es) && LivesOk(s)
    ensures LivesOk(Run(s, es)) && Run(s, es).limits == s.limits
    decreases |es|
  {
    if es != [] {
      StepKeepsLives(s, es[0]);
      RunKeepsLives(Next(s, es[0]), es[1..]);
    }
  }

  /** Over every run from an empty store: a token is refused once its own kind's lifetime has passed, to the
      second, and until then is accepted unless it was denied or its account is inactive. */
  lemma TokensLiveTheirTime(limits: Limits, start: Time, es: seq<Step>, j: Jti, life: nat)
    requires ValidRun(Start(limits, start), es) && j in Run(Start(limits, start), es).minted
    requires IsLife(limits, Run(Start(limits, start), es).minted[j].kind, life)
    ensures var s := Run(Start(limits, start), es);
            var t := s.minted[j];
            && (t.iat + life + SECOND <= s.now ==> forall kind :: !Accepted(s, j, kind))
            && (s.now + SECOND <= t.iat + life ==>
                  (Accepted(s, j, t.kind) <==> j !in s.denied && t.user in s.accounts && s.accounts[t.user].active))
  {
    RunKeepsLives(Start(limits, start), es);
    assert LivesOut(limits, Run(Start(limits, start), es).minted[j]);
  }

  // ---- switching an account off ----

  /** An account switched off has nothing accepted, exchanged or followed; switched on again, it has exactly what is
      neither expired nor denied; no other account notices. */
  lemma SwitchingOff(s: Auth, user: UserId, active: bool, j: Jti, kind: Kind)
    requires Enabled(s, SetActive(user, active)) && j in s.minted
    ensures var s' := Next(s, SetActive(user, active));
            && (s.minted[j].user == user && !active ==> !Accepted(s', j, kind) && !Usable(s', j) && !LinkWorks(s', j))
            && (s.minted[j].user == user && active ==>
                  (Accepted(s', j, kind) <==> s.minted[j].kind == kind && !Dead(s, j)))
            && (s.minted[j].user != user ==>
                  && (Accepted(s', j, kind) <==> Accepted(s, j, kind))
                  && (Usable(s', j) <==> Usable(s, j)) && (LinkWorks(s', j) <==> LinkWorks(s, j)))
  {
  }

  // ---- issued passwords ----

  /** A step that issues a password for this account, and one by which its owner chooses one. */
  predicate Issues(e: Step, user: UserId) {
    e == Reissue(user) || (e.Register? && e.user == user && e.issued)
  }

  predicate Chooses(s: Auth, e: Step, user: UserId) {
    || e == ChangePassword(user) || (e.SetInitial? && e.user == user)
    || (e.FollowLink? && e.link in s.minted && s.minted[e.link].user == user)
  }

  /** The steps that touch no account. */
  lemma AccountsRest(s: Auth, e: Step)
    requires Enabled(s, e)
    requires !e.Register? && !e.ChangePassword? && !e.Reissue? && !e.SetActive? && !e.SetInitial? && !e.FollowLink?
    ensures Next(s, e).accounts == s.accounts
  {
    match e
    case Rotate(q, refresh, access, id) => RotatedOutFacts(s, q);
    case Logout(access, presented) => SignOutShape(s, access, presented);
    case _ =>
  }

  lemma SweepingChooses(s: Auth, e: Step)
    requires Enabled(s, e) && (e.SetInitial? || e.FollowLink?)
    ensures var user := if e.SetInitial? then e.user else s.minted[e.link].user;
            user in s.accounts && Next(s, e).accounts == s.accounts[user := s.accounts[user].(mustChange := false,
                changed := s.now)]
  {
    match e
    case SetInitial(user, keep) => SweepFacts(ChoosePassword(s, user), user, keep);
    case FollowLink(link) =>
      SweepFacts(Deny(ChoosePassword(s, s.minted[link].user), link), s.minted[link].user, None);
  }

  /** The only route of a flagged account opens with an issued password, and closes once its owner has chosen
      one by any of the three routes, until another is issued. */
  lemma InitialOnlyForIssued(s: Auth, e: Step, user: UserId)
    requires Enabled(s, e)
    ensures var before, after := user in s.accounts && s.accounts[user].mustChange,
                                 user in Next(s, e).accounts && Next(s, e).accounts[user].mustChange;
            after <==> Issues(e, user) || (before && !Chooses(s, e, user))
    ensures e.SetInitial? && e.user == user ==> s.accounts[user].mustChange && !Next(s, e).accounts[user].mustChange
  {
    if e.SetInitial? || e.FollowLink? {
      SweepingChooses(s, e);
    } else if !e.Register? && !e.ChangePassword? && !e.Reissue? && !e.SetActive? {
      AccountsRest(s, e);
    }
  }

  /** Each route by which a password is set dates it now, and nothing else does. */
  lemma PasswordsAreDated(s: Auth, e: Step, user: UserId)
    requires Enabled(s, e) && user in s.accounts
    ensures user in Next(s, e).accounts
    ensures Next(s, e).accounts[user].changed ==
            if Chooses(s, e, user) || e == Reissue(user) then s.now else s.accounts[user].changed
  {
    if e.SetInitial? || e.FollowLink? {
      SweepingChooses(s, e);
    } else if !e.Register? && !e.ChangePassword? && !e.Reissue? && !e.SetActive? {
      AccountsRest(s, e);
    }
  }

  // ---- purging ----

  /** A purge drops exactly the entries whose token expired before now, and nobody gets in by it. */
  lemma PurgeIsHarmless(s: Auth, j: Jti, kind: Kind)
    requires DeniedOk(s) && j in s.minted
    ensures var s' := Purge(s);
            && (j in s'.denied <==> j in s.denied && s.minted[j].exp >= s.now)
            && (Accepted(s', j, kind) <==> Accepted(s, j, kind))
            && (Usable(s', j) <==> Usable(s, j)) && (LinkWorks(s', j) <==> LinkWorks(s, j))
  {
  }

  // ---- one device ----

  /** A sign-out that presents a refresh token ends the row that token was issued with, whichever account's it is
      and even if the token has expired; and without one the row of the access token. */
  lemma SignOutEndsThatRow(s: Auth, access: Jti, presented: Option<Jti>, id: SessionId, es: seq<Step>)
    requires Inv(s) && Enabled(s, Logout(access, presented)) && id in s.sessions
    requires if presented.Some? then s.sessions[id].refresh == presented.value else s.sessions[id].access == access
    requires ValidRun(Next(s, Logout(access, presented)), es)
    ensures var s' := Run(Next(s, Logout(access, presented)), es);
            && id in s'.sessions && s'.sessions[id].revoked.Some?
            && !Accepted(s', s.sessions[id].access, Access) && !Usable(s', s.sessions[id].refresh)
            && !Accepted(s', access, Access)
  {
    assert RowOk(s, id);
    assert SignOutRow(s, access, presented) == Some(id);
    SignOutKeeps(s, access, presented);
    SignOutEndsTheDevice(s, access, presented, es);
    RunKeeps(Next(s, Logout(access, presented)), es);
  }

  /** Every row but that one is as it was. */
  lemma SignOutSparesOthers(s: Auth, access: Jti, presented: Option<Jti>, id: SessionId)
    requires access in s.minted && id in s.sessions
    requires if presented.Some? then s.sessions[id].refresh != presented.value else s.sessions[id].access != access
    ensures id in SignOut(s, access, presented).sessions
    ensures SignOut(s, access, presented).sessions[id] == s.sessions[id]
  {
    SignOutShape(s, access, presented);
    assert SignOutRow(s, access, presented) != Some(id);
  }

  /** Revoking a device from the list ends that row and no other, and stamps it now. */
  lemma RevokedDeviceIsOut(s: Auth, user: UserId, id: SessionId, other: SessionId, es: seq<Step>)
    requires Inv(s) && Enabled(s, RevokeDevice(user, id)) && other in s.sessions
    requires ValidRun(Next(s, RevokeDevice(user, id)), es)
    ensures var s1 := Next(s, RevokeDevice(user, id));
            && other in s1.sessions && (other != id ==> s1.sessions[other] == s.sessions[other])
            && s1.sessions[id] == s.sessions[id].(revoked := Some(s.now))
            && !Accepted(Run(s1, es), s.sessions[id].access, Access) && !Usable(Run(s1, es), s.sessions[id].refresh)
  {
    StampKeeps(s, id, s.now);
    RevokingStamps(s, user, id);
    RevokedSessionIsOut(Next(s, RevokeDevice(user, id)), es, id);
  }

  lemma RevokingStamps(s: Auth, user: UserId, id: SessionId)
    requires Enabled(s, RevokeDevice(user, id))
    ensures Next(s, RevokeDevice(user, id)) == Stamped(s, id, s.now)
    ensures Next(s, RevokeDevice(user, id)).sessions == s.sessions[id := s.sessions[id].(revoked := Some(s.now))]
  {
  }

  // ---- sign-ins ----

  /** A row a step adds starts a sign-in of its own, when somebody signs in, or carries on the one it was rotated
      from, for the same person; it is live and records the tokens minted with it. */
  lemma NewRowsCarryOn(s: Auth, e: Step, id: SessionId)
    requires Enabled(s, e) && id in Next(s, e).sessions && id !in s.sessions
    ensures var x := Next(s, e).sessions[id];
            && x.revoked.None?
            && (match e
                case SignIn(user, refresh, access, _) =>
                  x.user == user && x.chain == id && x.refresh == refresh && x.access == access
                case Rotate(q, refresh, access, _) =>
                  var was := s.sessions[s.rotations[q].row.value];
                  x.user == was.user && x.chain == was.chain && x.refresh == refresh && x.access == access
                case _ => false)
  {
    if e.SignIn? {
      IssueAdds(s, e.user, e.id, e.refresh, e.access, e.id);
    } else if e.Rotate? {
      RotationAdds(s, e.q, e.refresh, e.access, e.id);
    } else if !e.SendLink? {
      OthersMintNothing(s, e);
    }
  }

  // ---- row by row ----

  /** "Sign out everywhere" stamps, now, exactly the account's rows that had neither expired nor been stamped nor
      are the kept one; every other row stays as it was. */
  lemma SweepStampsExactly(s: Auth, user: UserId, keep: Option<Jti>, id: SessionId)
    requires id in s.sessions
    ensures var x, s' := s.sessions[id], Sweep(s, user, keep);
            && id in s'.sessions
            && s'.sessions[id] ==
               if x.user == user && s.now < x.expires && x.revoked.None? && (keep.None? || keep.value != x.access)
               then x.(revoked := Some(s.now)) else x
  {
    SweepFacts(s, user, keep);
  }

  /** Under the lock a request gets the row exactly if it is neither revoked nor expired; else it is refused. */
  lemma LockGrantsExactly(s: Auth, q: RequestId, id: SessionId)
    requires Enabled(s, LockRow(q, id))
    ensures var s' := Next(s, LockRow(q, id));
            && (q in s'.rotations <==> s.sessions[id].revoked.None? && s.now < s.sessions[id].expires)
            && (q in s'.rotations ==> s'.rotations[q] == Rotation(s.rotations[q].token, Some(id)))
  {
  }

  /** A token that still decoded and was signed out with is on the denylist itself, whatever row it has. */
  lemma SignOutDenies(s: Auth, access: Jti, presented: Option<Jti>)
    requires Inv(s) && Enabled(s, Logout(access, presented))
    ensures access in SignOut(s, access, presented).denied
    ensures presented.Some? && Decodes(s, presented.value, Refresh) ==>
              presented.value in SignOut(s, access, presented).denied
  {
    DenyBothKeeps(s, access, presented);
    var s1, row := DenyBoth(s, access, presented), SignOutRow(s, access, presented);
    StaysDenied(s1, row, access);
    if presented.Some? && Decodes(s, presented.value, Refresh) {
      BothDenied(s, access, presented.value);
      StaysDenied(s1, row, presented.value);
    }
  }

  lemma BothDenied(s: Auth, access: Jti, refresh: Jti)
    requires access in s.minted && Decodes(s, refresh, Refresh)
    ensures refresh in DenyBoth(s, access, Some(refresh)).denied
  {
  }

  /** Ending a row and purging let go of no denied token that has not expired. */
  lemma StaysDenied(s: Auth, row: Option<SessionId>, j: Jti)
    requires DeniedOk(s) && j in s.denied && j in s.minted && s.minted[j].exp > s.now
    requires row.Some? ==> row.value in s.sessions
    ensures j in Purge(if row.Some? then EndRow(s, row.value) else s).denied
  {
    var s' := if row.Some? then EndRow(s, row.value) else s;
    assert j in s'.denied && s'.denied[j] == s.denied[j] && s'.now == s.now;
  }

  /** The refresh token a rotation was paid with is on the denylist. */
  lemma RotationDenies(s: Auth, q: RequestId, refresh: Jti, access: Jti, id: SessionId)
    requires Enabled(s, Rotate(q, refresh, access, id))
    ensures s.rotations[q].token in Next(s, Rotate(q, refresh, access, id)).denied
  {
    assert s.rotations[q].token in RotatedOut(s, q).denied;
  }

  /** The row a sign-out ends keeps the time it was first revoked; one not revoked yet is stamped now. */
  lemma SignOutStampsOnce(s: Auth, access: Jti, presented: Option<Jti>)
    requires access in s.minted && SignOutRow(s, access, presented).Some?
    ensures var id := SignOutRow(s, access, presented).value;
            var s' := SignOut(s, access, presented);
            && id in s'.sessions
            && s'.sessions[id] ==
               if s.sessions[id].revoked.Some? then s.sessions[id] else s.sessions[id].(revoked := Some(s.now))
  {
  }

  // ---- what goes on the denylist ----

  /** Between these states only tokens that had not expired went on the denylist. */
  ghost predicate OnlyLive(s: Auth, s': Auth, except: Option<Jti>) {
    forall j :: j in s'.denied && j !in s.denied && except != Some(j) ==> j in s.minted && s.minted[j].exp > s.now
  }

  lemma EndingDeniesLive(s: Auth, id: SessionId)
    requires id in s.sessions && RowOk(s, id)
    ensures OnlyLive(s, EndRow(s, id), None) && OnlyLive(s, DenyAccess(s, id), None)
  {
  }

  lemma SweepDeniesLive(s: Auth, user: UserId, keep: Option<Jti>)
    requires forall id :: id in s.sessions ==> RowOk(s, id)
    ensures OnlyLive(s, Sweep(s, user, keep), None)
  {
    var s' := Sweep(s, user, keep);
    forall j | j in s'.denied && j !in s.denied ensures j in s.minted && s.minted[j].exp > s.now {
      var id :| id in s.sessions && s.sessions[id].access == j && s.sessions[id].accessExpires > s.now;
      assert RowOk(s, id);
    }
  }

  /** Denying both tokens of a sign-out leaves every row as it was. */
  lemma BothDeniedLive(s: Auth, access: Jti, presented: Option<Jti>)
    requires Decodes(s, access, Access)
    ensures var s1 := DenyBoth(s, access, presented);
            OnlyLive(s, s1, None) && s1.sessions == s.sessions && s1.minted == s.minted && s1.now == s.now
  {
  }

  lemma PurgeDeniesLive(s: Auth, s1: Auth, s2: Auth)
    requires OnlyLive(s, s1, None) && OnlyLive(s1, s2, None) && s1.minted == s.minted && s1.now == s.now
    ensures OnlyLive(s, Purge(s2), None)
  {
  }

  lemma SignOutDeniesLive(s: Auth, access: Jti, presented: Option<Jti>)
    requires Inv(s) && Decodes(s, access, Access)
    ensures OnlyLive(s, SignOut(s, access, presented), None)
  {
    var s1, row := DenyBoth(s, access, presented), SignOutRow(s, access, presented);
    BothDeniedLive(s, access, presented);
    DenyBothKeeps(s, access, presented);
    if row.Some? {
      EndingDeniesLive(s1, row.value);
      PurgeDeniesLive(s, s1, EndRow(s1, row.value));
    } else {
      PurgeDeniesLive(s, s1, s1);
    }
  }

  lemma RotationDeniesLive(s: Auth, q: RequestId, refresh: Jti, access: Jti, id: SessionId)
    requires Inv(s) && Enabled(s, Rotate(q, refresh, access, id))
    ensures OnlyLive(s, Next(s, Rotate(q, refresh, access, id)), Some(s.rotations[q].token))
  {
    var s0, row := s.(rotations := s.rotations - {q}), s.rotations[q].row.value;
    assert RowOk(s, row) && RowOk(s0, row);
    EndingDeniesLive(s0, row);
    assert OnlyLive(s, RotatedOut(s, q), Some(s.rotations[q].token));
  }

  lemma RevokingDeniesLive(s: Auth, user: UserId, id: SessionId)
    requires Inv(s) && Enabled(s, RevokeDevice(user, id))
    ensures OnlyLive(s, Next(s, RevokeDevice(user, id)), None)
  {
    assert RowOk(s, id);
  }

  lemma InitialDeniesLive(s: Auth, user: UserId, keep: Option<Jti>)
    requires Inv(s) && Enabled(s, SetInitial(user, keep))
    ensures OnlyLive(s, Next(s, SetInitial(user, keep)), None)
  {
    forall id | id in s.sessions ensures RowOk(ChoosePassword(s, user), id) { assert RowOk(s, id); }
    SweepDeniesLive(ChoosePassword(s, user), user, keep);
  }

  lemma OtherDenials(s: Auth, e: Step)
    requires Inv(s) && Enabled(s, e) && !e.Rotate? && !e.Logout? && !e.RevokeDevice? && !e.RevokeAll?
    requires !e.SetInitial? && !e.FollowLink?
    ensures Next(s, e).denied.Keys <= s.denied.Keys
  {
  }

  /** Whatever happens, an expired token gets no denylist entry, other than the refresh token of a rotation that
      outlasted it. */
  lemma NothingExpiredIsDenied(s: Auth, e: Step)
    requires Inv(s) && Enabled(s, e)
    ensures OnlyLive(s, Next(s, e), if e.Rotate? then Some(s.rotations[e.q].token) else None)
  {
    if e.Rotate? {
      RotationDeniesLive(s, e.q, e.refresh, e.access, e.id);
    } else if e.RevokeAll? || e.SetInitial? || e.FollowLink? {
      SweepingDeniesLive(s, e);
    } else if e.Logout? {
      SignOutDeniesLive(s, e.access, e.presented);
    } else if e.RevokeDevice? {
      RevokingDeniesLive(s, e.user, e.id);
    } else {
      OtherDenials(s, e);
    }
  }

  lemma SweepingDeniesLive(s: Auth, e: Step)
    requires Inv(s) && Enabled(s, e) && (e.RevokeAll? || e.SetInitial? || e.FollowLink?)
    ensures OnlyLive(s, Next(s, e), None)
  {
    match e
    case RevokeAll(user, keep) => SweepDeniesLive(s, user, keep);
    case SetInitial(user, keep) => InitialDeniesLive(s, user, keep);
    case FollowLink(link) => FollowingDeniesLive(s, link);
  }

  lemma FollowingDeniesLive(s: Auth, link: Jti)
    requires Inv(s) && Enabled(s, FollowLink(link))
    ensures OnlyLive(s, Next(s, FollowLink(link)), None)
  {
    var user := s.minted[link].user;
    var s0 := Deny(ChoosePassword(s, user), link);
    forall id | id in s.sessions ensures RowOk(s0, id) { assert RowOk(s, id); }
    SweepDeniesLive(s0, user, None);
  }

  // ---- accounts ----

  /** An account comes into being as it was asked for, and from then on is switched on or off by an operator only. */
  lemma ActiveAsAsked(s: Auth, e: Step, user: UserId)
    requires Enabled(s, e)
    ensures IsActive(Next(s, e), user) <==>
            match e
            case Register(u, active, _) => if u == user then active else IsActive(s, user)
            case SetActive(u, active) => if u == user then active else IsActive(s, user)
            case _ => IsActive(s, user)
    ensures Next(s, e).accounts.Keys == s.accounts.Keys + if e.Register? then {e.user} else {}
  {
    if e.SetInitial? || e.FollowLink? {
      SweepingChooses(s, e);
    } else if !e.Register? && !e.ChangePassword? && !e.Reissue? && !e.SetActive? {
      AccountsRest(s, e);
    }
  }
}
