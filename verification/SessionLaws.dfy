/** What sign-outs, rotations and resets promise, over every run of the session machine. */
module SessionLaws {
  import opened Wrappers
  import opened Sessions

  lemma {:induction false} RunKeeps(s: Auth, es: seq<Step>)
    requires Inv(s) && ValidRun(s, es)
    ensures Inv(Run(s, es)) && Grows(s, Run(s, es))
    decreases |es|
  {
    if es != [] {
      StepKeeps(s, es[0]);
      RunKeeps(Next(s, es[0]), es[1..]);
      GrowsThrough(s, Next(s, es[0]), Run(s, es));
    }
  }

  lemma Reachable(limits: Limits, now: Time, es: seq<Step>)
    requires limits.access <= limits.refresh && ValidRun(Start(limits, now), es)
    ensures Inv(Run(Start(limits, now), es))
  {
    RunKeeps(Start(limits, now), es);
  }

  // ---- revocation is permanent ----

  /** A token refused because it expired or was revoked is refused in every later state, purges included. */
  lemma RefusedForGood(s: Auth, es: seq<Step>, j: Jti, kind: Kind)
    requires Inv(s) && ValidRun(s, es) && Dead(s, j)
    ensures Dead(Run(s, es), j) && !Accepted(Run(s, es), j, kind)
  {
    RunKeeps(s, es);
    assert j in Run(s, es).minted;
  }

  /** Whenever a session is revoked, the access token it issued is refused, then and ever after; so is its
      refresh token. */
  lemma RevokedSessionIsOut(s: Auth, es: seq<Step>, id: SessionId)
    requires Inv(s) && ValidRun(s, es) && id in s.sessions && s.sessions[id].revoked.Some?
    ensures var s' := Run(s, es);
            && Dead(s', s.sessions[id].access) && !Accepted(s', s.sessions[id].access, Access)
            && !Usable(s', s.sessions[id].refresh)
  {
    assert RowOk(s, id) && RevokedOk(s, id);
    RefusedForGood(s, es, s.sessions[id].access, Access);
    RunKeeps(s, es);
    assert RowOk(Run(s, es), id);
  }

  // ---- rotation ----

  /** How many refreshes presenting token j went through. */
  ghost function Exchanges(s: Auth, es: seq<Step>, j: Jti): nat
    requires ValidRun(s, es)
    decreases |es|
  {
    if es == [] then 0
    else (if es[0].Rotate? && s.rotations[es[0].q].token == j then 1 else 0) + Exchanges(Next(s, es[0]), es[1..], j)
  }

  /** The row j was issued with is revoked. */
  ghost predicate Spent(s: Auth, j: Jti) {
    j in s.minted && j in s.made && s.made[j] in s.sessions && s.sessions[s.made[j]].refresh == j
    && s.sessions[s.made[j]].revoked.Some?
  }

  lemma SpentStays(s: Auth, e: Step, j: Jti)
    requires Inv(s) && Enabled(s, e) && Spent(s, j)
    ensures Spent(Next(s, e), j) && !(e.Rotate? && s.rotations[e.q].token == j)
  {
    StepKeeps(s, e);
    if e.Rotate? {
      assert RotationOk(s, e.q);
      assert RowOk(s, s.rotations[e.q].row.value);
    }
  }

  lemma ExchangeSpends(s: Auth, e: Step, j: Jti)
    requires Inv(s) && Enabled(s, e) && e.Rotate? && s.rotations[e.q].token == j
    ensures Spent(Next(s, e), j)
  {
    assert RotationOk(s, e.q);
    assert RowOk(s, s.rotations[e.q].row.value);
    RotateKeeps(s, e.q, e.refresh, e.access, e.id);
  }

  lemma {:induction false} SpentIsNeverExchanged(s: Auth, es: seq<Step>, j: Jti)
    requires Inv(s) && ValidRun(s, es) && Spent(s, j)
    ensures Exchanges(s, es, j) == 0
    decreases |es|
  {
    if es != [] {
      SpentStays(s, es[0], j);
      StepKeeps(s, es[0]);
      SpentIsNeverExchanged(Next(s, es[0]), es[1..], j);
    }
  }

  /** However requests presenting one refresh token interleave, at most one gets a new pair. */
  lemma {:induction false} AtMostOneExchange(s: Auth, es: seq<Step>, j: Jti)
    requires Inv(s) && ValidRun(s, es)
    ensures Exchanges(s, es, j) <= 1
    decreases |es|
  {
    if es != [] {
      StepKeeps(s, es[0]);
      if es[0].Rotate? && s.rotations[es[0].q].token == j {
        ExchangeSpends(s, es[0], j);
        SpentIsNeverExchanged(Next(s, es[0]), es[1..], j);
      } else {
        AtMostOneExchange(Next(s, es[0]), es[1..], j);
      }
    }
  }

  lemma NewPairWorks(s: Auth, user: UserId, chain: SessionId, refresh: Jti, access: Jti, id: SessionId)
    requires Fresh(s, refresh, access, id) && access !in s.denied && refresh !in s.denied
    requires s.limits.access >= SECOND && s.limits.refresh >= SECOND
    ensures var s' := Issue(s, user, chain, refresh, access, id);
            && (Accepted(s', access, Access) <==> IsActive(s, user))
            && (Usable(s', refresh) <==> IsActive(s, user))
  {
  }

  /** A rotation hands the sign-in over: the old pair is refused from then on, and the new one works at
      once, unless the account was deactivated while the row was held. */
  lemma RotationHandsOver(s: Auth, q: RequestId, refresh: Jti, access: Jti, id: SessionId)
    requires Inv(s) && Enabled(s, Rotate(q, refresh, access, id))
    requires s.limits.access >= SECOND && s.limits.refresh >= SECOND
    ensures var s', spent := Next(s, Rotate(q, refresh, access, id)), s.sessions[s.rotations[q].row.value];
            && !Accepted(s', spent.access, Access) && !Usable(s', s.rotations[q].token)
            && (Accepted(s', access, Access) <==> IsActive(s, spent.user))
            && (Usable(s', refresh) <==> IsActive(s, spent.user))
  {
    var row, s1 := s.rotations[q].row.value, RotatedOut(s, q);
    assert RotationOk(s, q);
    RotatedOutKeeps(s, q);
    RotatedOutFacts(s, q);
    NewPairWorks(s1, s.sessions[row].user, s.sessions[row].chain, refresh, access, id);
    RotateKeeps(s, q, refresh, access, id);
    RevokedSessionIsOut(Next(s, Rotate(q, refresh, access, id)), [], row);
  }

  ghost function ChainOf(s: Auth, j: Jti): SessionId {
    if j in s.made && s.made[j] in s.sessions then s.sessions[s.made[j]].chain else 0
  }

  /** One sign-in, however often it was refreshed, has one live session, one access token that is let in
      and one refresh token that can be exchanged, at most. */
  lemma OneLivePairPerSignIn(s: Auth, i: Jti, j: Jti)
    requires Inv(s) && i in s.minted && j in s.minted && ChainOf(s, i) == ChainOf(s, j)
    ensures Accepted(s, i, Access) && Accepted(s, j, Access) ==> i == j
    ensures Usable(s, i) && Usable(s, j) ==> i == j
    ensures Usable(s, i) && Accepted(s, j, Access) ==> s.made[i] == s.made[j]
  {
    assert TokenOk(s, i) && TokenOk(s, j);
    if i in s.made && s.made[i] in s.sessions { assert RevokedOk(s, s.made[i]) && RowOk(s, s.made[i]); }
    if j in s.made && s.made[j] in s.sessions { assert RevokedOk(s, s.made[j]) && RowOk(s, s.made[j]); }
    if i in s.made && s.made[i] in s.sessions && j in s.made && s.made[j] in s.sessions {
      var x, y := s.sessions[s.made[i]], s.sessions[s.made[j]];
      assert SameLiveChain(x, y) ==> s.made[i] == s.made[j];
    }
  }

  // ---- signing out ----

  /** Signing out refuses the access token for good and, when the row is found, its refresh token too. */
  lemma SignOutEndsTheDevice(s: Auth, access: Jti, presented: Option<Jti>, es: seq<Step>)
    requires Inv(s) && Enabled(s, Logout(access, presented)) && ValidRun(Next(s, Logout(access, presented)), es)
    ensures var s', row := Run(Next(s, Logout(access, presented)), es), SignOutRow(s, access, presented);
            && !Accepted(s', access, Access)
            && (row.Some? ==>
                  && !Usable(s', s.sessions[row.value].refresh)
                  && !Accepted(s', s.sessions[row.value].access, Access))
    ensures presented.None? ==> SignOutRow(s, access, presented) == Some(s.made[access])
  {
    var s1, row := Next(s, Logout(access, presented)), SignOutRow(s, access, presented);
    SignOutKeeps(s, access, presented);
    RefusedForGood(s1, es, access, Access);
    if row.Some? { RevokedSessionIsOut(s1, es, row.value); }
    assert TokenOk(s, access);
  }

  lemma SweepDeniesOnlySwept(s: Auth, user: UserId, keep: Option<Jti>, j: Jti)
    requires Inv(s) && j in s.minted && j in Sweep(s, user, keep).denied && j !in s.denied
    ensures s.minted[j].kind == Access && j in s.made && s.made[j] in s.sessions
    ensures s.sessions[s.made[j]].access == j && Swept(s.sessions[s.made[j]], user, keep, s.now)
  {
    var id :| id in s.sessions && Swept(s.sessions[id], user, keep, s.now) && s.sessions[id].access == j;
    assert RowOk(s, id);
  }

  ghost predicate OfKept(s: Auth, user: UserId, keep: Option<Jti>, j: Jti)
    requires j in s.minted
  {
    s.minted[j].user != user
    || (j in s.made && s.made[j] in s.sessions && keep == Some(s.sessions[s.made[j]].access))
  }

  lemma SweepAccess(s: Auth, user: UserId, keep: Option<Jti>, j: Jti)
    requires j in s.minted && TokenOk(s, j) && (s.minted[j].kind == Access ==> RowOk(s, s.made[j]))
    requires j in Sweep(s, user, keep).denied && j !in s.denied ==>
               j in s.made && s.made[j] in s.sessions && Swept(s.sessions[s.made[j]], user, keep, s.now)
    ensures Accepted(Sweep(s, user, keep), j, Access) <==> (Accepted(s, j, Access) && OfKept(s, user, keep, j))
  {
    SweepFacts(s, user, keep);
  }

  lemma SweepUsable(s: Auth, user: UserId, keep: Option<Jti>, j: Jti)
    requires j in s.minted && TokenOk(s, j) && (s.minted[j].kind == Refresh ==> RowOk(s, s.made[j]))
    requires j in Sweep(s, user, keep).denied && j !in s.denied ==> s.minted[j].kind == Access
    ensures Usable(Sweep(s, user, keep), j) <==> (Usable(s, j) && OfKept(s, user, keep, j))
  {
    SweepFacts(s, user, keep);
  }

  /** Who gets in after "sign out everywhere": exactly those who did before, but of this account the kept
      session's pair alone. */
  lemma SweepLeavesTheKept(s: Auth, user: UserId, keep: Option<Jti>, j: Jti)
    requires Inv(s) && j in s.minted
    ensures Accepted(Sweep(s, user, keep), j, Access) <==> (Accepted(s, j, Access) && OfKept(s, user, keep, j))
    ensures Usable(Sweep(s, user, keep), j) <==> (Usable(s, j) && OfKept(s, user, keep, j))
  {
    assert TokenOk(s, j);
    if s.minted[j].kind != Reset { assert RowOk(s, s.made[j]); }
    if j in Sweep(s, user, keep).denied && j !in s.denied { SweepDeniesOnlySwept(s, user, keep, j); }
    SweepAccess(s, user, keep, j);
    SweepUsable(s, user, keep, j);
  }

  /** And it stays so: of the account's tokens minted until then, no later state lets in any but the kept
      session's. */
  lemma SweptStayOut(s: Auth, user: UserId, keep: Option<Jti>, es: seq<Step>, j: Jti)
    requires Inv(s) && Free(s, user) && ValidRun(Sweep(s, user, keep), es)
    requires j in s.minted && s.minted[j].user == user
    ensures var s' := Run(Sweep(s, user, keep), es);
            && (Accepted(s', j, Access) ==> keep == Some(j))
            && (Usable(s', j) ==> keep == Some(s'.sessions[s'.made[j]].access))
  {
    var s1 := Sweep(s, user, keep);
    SweepKeeps(s, user, keep);
    SweepFacts(s, user, keep);
    RunKeeps(s1, es);
    assert TokenOk(s, j);
    if s.minted[j].kind != Reset {
      var id := s.made[j];
      assert RowOk(s, id) && RowOk(Run(s1, es), id);
      if Swept(s.sessions[id], user, keep, s.now) { RevokedSessionIsOut(s1, es, id); }
    }
  }

  // ---- reset links ----

  lemma ChoiceAgesLinks(s: Auth, user: UserId, j: Jti)
    requires AccountsOk(s) && user in s.accounts && j in s.minted && s.minted[j].user == user && TokenOk(s, j)
    ensures LinkWorks(ChoosePassword(s, user), j) <==> (LinkWorks(s, j) && s.minted[j].iat == WholeSeconds(s.now))
  {
    LaterSecond(s.accounts[user].changed, s.now);
  }

  lemma DenyingRefuses(s: Auth, link: Jti, j: Jti)
    requires link in s.minted && j in s.minted
    ensures LinkWorks(Deny(s, link), j) <==> (LinkWorks(s, j) && j != link)
  {
  }

  lemma SweepSparesLinks(s: Auth, user: UserId, keep: Option<Jti>, j: Jti)
    requires Inv(s) && j in s.minted
    ensures LinkWorks(Sweep(s, user, keep), j) <==> LinkWorks(s, j)
  {
    SweepFacts(s, user, keep);
    if j in Sweep(s, user, keep).denied && j !in s.denied { SweepDeniesOnlySwept(s, user, keep, j); }
  }

  /** After a reset, a link of this account works exactly if it worked before, is not the one just used,
      and was sent in this very second. */
  lemma ResetLeavesThisSecond(s: Auth, link: Jti, j: Jti)
    requires Inv(s) && Enabled(s, FollowLink(link))
    requires j in s.minted && s.minted[j].user == s.minted[link].user
    ensures LinkWorks(Next(s, FollowLink(link)), j) <==>
            (LinkWorks(s, j) && j != link && s.minted[j].iat == WholeSeconds(s.now))
  {
    var user := s.minted[link].user;
    var s1 := ChoosePassword(s, user);
    assert TokenOk(s, j);
    ChoiceAgesLinks(s, user, j);
    AccountKeeps(s, s1);
    DenyKeeps(s1, link);
    DenyingRefuses(s1, link, j);
    SweepSparesLinks(Deny(s1, link), user, None, j);
  }

  /** A link refused for its use or its age stays refused, and nobody who was signed in stays so. */
  lemma ResetClosesTheWindow(s: Auth, link: Jti, es: seq<Step>, j: Jti)
    requires Inv(s) && Enabled(s, FollowLink(link)) && ValidRun(Next(s, FollowLink(link)), es)
    requires j in s.minted && s.minted[j].user == s.minted[link].user
    ensures var s' := Run(Next(s, FollowLink(link)), es);
            && (LinkWorks(s', j) ==> j != link && s.minted[j].iat == WholeSeconds(s.now))
            && !Accepted(s', j, Access) && !Usable(s', j)
  {
    var user := s.minted[link].user;
    var s1 := ChoosePassword(s, user);
    AccountKeeps(s, s1);
    DenyKeeps(s1, link);
    var s2 := Deny(s1, link);
    SweptStayOut(s2, user, None, es, j);
    var s3 := Next(s, FollowLink(link));
    FollowLinkKeeps(s, link);
    SweepFacts(s2, user, None);
    assert Dead(s3, link);
    RefusedForGood(s3, es, link, Reset);
    RunKeeps(s3, es);
    assert TokenOk(s, j);
    LaterSecond(s.now, Run(s3, es).accounts[user].changed);
  }

  lemma FreshLinkWorks(s: Auth, user: UserId, link: Jti)
    requires AccountsOk(s) && IsActive(s, user) && link !in s.minted && link !in s.denied && s.limits.reset >= SECOND
    ensures LinkWorks(Next(s, SendLink(user, link)), link)
  {
    LaterSecond(s.accounts[user].changed, s.now);
  }

  /** So "completing one reset closes the whole window" fails for a link sent in the same second: of two
      links sent and one followed at once, the other still sets a password. */
  lemma SameSecondLinkStillWorks(s: Auth, user: UserId, first: Jti, second: Jti)
    requires Inv(s) && IsActive(s, user) && Free(s, user) && s.limits.reset >= SECOND
    requires first != second && first !in s.minted && second !in s.minted
    ensures var s2 := Next(Next(s, SendLink(user, first)), SendLink(user, second));
            Enabled(s2, FollowLink(second)) && LinkWorks(Next(s2, FollowLink(second)), first)
  {
    SendLinkKeeps(s, user, first);
    var s1 := Next(s, SendLink(user, first));
    FreshLinkWorks(s, user, first);
    SendLinkKeeps(s1, user, second);
    FreshLinkWorks(s1, user, second);
    var s2 := Next(s1, SendLink(user, second));
    assert LinkWorks(s2, first);
    ResetLeavesThisSecond(s2, second, first);
  }
}
