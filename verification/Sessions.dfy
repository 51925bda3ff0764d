/** Sign-ins, refresh rotation, revocation and the denylist of token ids. Times are microseconds since the
    epoch; a token's claims carry whole seconds. */
module Sessions {
  import opened Wrappers

  type Time = nat
  type UserId = nat
  type Jti = nat
  type SessionId = nat
  type RequestId = nat

  const SECOND := 1_000_000

  /** A time as a JWT claim carries it. */
  function WholeSeconds(t: Time): (r: Time)
    ensures r <= t < r + SECOND
    ensures r % SECOND == 0
  {
    t - t % SECOND
  }

  datatype Kind = Access | Refresh | Reset
  datatype Token = Token(kind: Kind, user: UserId, iat: Time, exp: Time)

  /** One signed-in device. The fingerprint of the refresh token identifies it, as its id does here.
      `chain` names the sign-in the row descends from through rotations; it is not stored. */
  datatype Session = Session(user: UserId, chain: SessionId, refresh: Jti, access: Jti, accessExpires: Time,
                             expires: Time, revoked: Option<Time>)

  datatype Account = Account(active: bool, mustChange: bool, changed: Time)

  /** A refresh under way: the token it presented and, once it holds a row lock, the row. */
  datatype Rotation = Rotation(token: Jti, row: Option<SessionId>)

  datatype Limits = Limits(access: nat, refresh: nat, reset: nat)

  /** `minted` remembers every token ever signed, `made` the row its pair was recorded in, and `signIns`
      the first row of each sign-in. */
  datatype Auth = Auth(limits: Limits, now: Time, accounts: map<UserId, Account>, sessions: map<SessionId, Session>,
                       denied: map<Jti, Time>, minted: map<Jti, Token>, made: map<Jti, SessionId>,
                       signIns: set<SessionId>, rotations: map<RequestId, Rotation>)

  // ---- who is let in ----

  /** PyJWT refuses a token on or after its `exp` (section 4.1.4 of RFC 7519). */
  predicate Decodes(s: Auth, j: Jti, kind: Kind) {
    j in s.minted && s.minted[j].kind == kind && s.minted[j].exp > s.now
  }

  predicate IsActive(s: Auth, user: UserId) {
    user in s.accounts && s.accounts[user].active
  }

  predicate Accepted(s: Auth, j: Jti, kind: Kind) {
    Decodes(s, j, kind) && j !in s.denied && IsActive(s, s.minted[j].user)
  }

  predicate Refreshable(x: Session, now: Time) {
    x.revoked.None? && x.expires > now
  }

  /** The refresh token would be exchanged for a new pair. */
  predicate Usable(s: Auth, j: Jti) {
    && Accepted(s, j, Refresh)
    && j in s.made && s.made[j] in s.sessions && s.sessions[s.made[j]].refresh == j
    && Refreshable(s.sessions[s.made[j]], s.now)
  }

  /** The link is refused once a password was chosen in a later whole second than it was sent. */
  predicate LinkWorks(s: Auth, j: Jti) {
    Accepted(s, j, Reset) && s.minted[j].iat >= WholeSeconds(s.accounts[s.minted[j].user].changed)
  }

  /** Refused for good: expired, or on the denylist. */
  predicate Dead(s: Auth, j: Jti) {
    j in s.minted && (s.minted[j].exp <= s.now || j in s.denied)
  }

  // ---- row changes ----

  function Mint(s: Auth, kind: Kind, user: UserId): Token {
    var life := match kind case Access => s.limits.access case Refresh => s.limits.refresh case Reset => s.limits.reset;
    Token(kind, user, WholeSeconds(s.now), WholeSeconds(s.now + life))
  }

  /** A new pair and the row that records it. */
  function Issue(s: Auth, user: UserId, chain: SessionId, refresh: Jti, access: Jti, id: SessionId): Auth {
    var r, a := Mint(s, Refresh, user), Mint(s, Access, user);
    s.(signIns := s.signIns + {chain}, minted := s.minted[refresh := r][access := a],
       made := s.made[refresh := id][access := id],
       sessions := s.sessions[id := Session(user, chain, refresh, access, a.exp, s.now + s.limits.refresh, None)])
  }

  function Deny(s: Auth, j: Jti): Auth
    requires j in s.minted
  {
    if j in s.denied then s else s.(denied := s.denied[j := s.minted[j].exp])
  }

  /** Denylists the row's access token, unless that has expired. */
  function DenyAccess(s: Auth, id: SessionId): Auth
    requires id in s.sessions
  {
    var x := s.sessions[id];
    if x.accessExpires <= s.now || x.access in s.denied then s else s.(denied := s.denied[x.access := x.accessExpires])
  }

  /** Stamps the row, keeping an older stamp, and denylists its access token. */
  function EndRow(s: Auth, id: SessionId): Auth
    requires id in s.sessions
  {
    var x := s.sessions[id];
    DenyAccess(s.(sessions := s.sessions[id := x.(revoked := if x.revoked.Some? then x.revoked else Some(s.now))]), id)
  }

  predicate Swept(x: Session, user: UserId, keep: Option<Jti>, now: Time) {
    x.user == user && x.expires > now && keep != Some(x.access)
  }

  /** What "sign out everywhere" leaves: each unexpired row of the account ended but the kept one. */
  function Sweep(s: Auth, user: UserId, keep: Option<Jti>): Auth {
    var ended := set id | id in s.sessions && Swept(s.sessions[id], user, keep, s.now)
                          && s.sessions[id].accessExpires > s.now ::
      s.sessions[id].access;
    s.(sessions := map id | id in s.sessions ::
         var x := s.sessions[id];
         if Swept(x, user, keep, s.now) && x.revoked.None? then x.(revoked := Some(s.now)) else x,
       denied := map j | j in s.denied.Keys + ended ::
         if j in s.denied then s.denied[j] else if j in s.minted then s.minted[j].exp else 0)
  }

  function Purge(s: Auth): Auth {
    s.(denied := map j | j in s.denied && s.denied[j] >= s.now :: s.denied[j])
  }

  /** Sign-out from one device. Without a refresh token the row is found by the access token; with one it
      is found by its fingerprint, which outlives its expiry. */
  function SignOut(s: Auth, access: Jti, refresh: Option<Jti>): Auth
    requires access in s.minted
  {
    var row := SignOutRow(s, access, refresh);
    var denied := DenyBoth(s, access, refresh);
    Purge(if row.Some? then EndRow(denied, row.value) else denied)
  }

  /** The refresh token is denylisted only if it still decodes. */
  function DenyBoth(s: Auth, access: Jti, refresh: Option<Jti>): (s': Auth)
    requires access in s.minted
    ensures s' == s.(denied := s'.denied)
  {
    var s1 := Deny(s, access);
    if refresh.Some? && Decodes(s1, refresh.value, Refresh) then Deny(s1, refresh.value) else s1
  }

  function SignOutRow(s: Auth, access: Jti, refresh: Option<Jti>): (row: Option<SessionId>)
    ensures row.Some? ==> row.value in s.sessions
  {
    var j := if refresh.Some? then refresh.value else access;
    if j in s.made && s.made[j] in s.sessions
       && j == (if refresh.Some? then s.sessions[s.made[j]].refresh else s.sessions[s.made[j]].access)
    then Some(s.made[j]) else None
  }

  function ChoosePassword(s: Auth, user: UserId): Auth
    requires user in s.accounts
  {
    s.(accounts := s.accounts[user := s.accounts[user].(mustChange := false, changed := s.now)])
  }

  // ---- the machine ----

  datatype Step =
    | Register(user: UserId, active: bool, issued: bool) // by its owner, or by an operator who may issue the password
    | SignIn(user: UserId, refresh: Jti, access: Jti, id: SessionId)
    | StartRefresh(q: RequestId, token: Jti)
    | LockRow(q: RequestId, id: SessionId)
    | Rotate(q: RequestId, refresh: Jti, access: Jti, id: SessionId)
    | Abandon(q: RequestId)
    | Logout(access: Jti, presented: Option<Jti>)
    | RevokeDevice(user: UserId, id: SessionId)
    | RevokeAll(user: UserId, keep: Option<Jti>)
    | SendLink(user: UserId, link: Jti)
    | FollowLink(link: Jti)
    | SetInitial(user: UserId, keep: Option<Jti>)
    | ChangePassword(user: UserId)
    | Reissue(user: UserId)
    | SetActive(user: UserId, active: bool)
    | PurgeExpired
    | Tick(elapsed: nat)

  ghost predicate Unlocked(s: Auth, id: SessionId) {
    forall q :: q in s.rotations ==> s.rotations[q].row != Some(id)
  }

  /** No rotation holds a row of the account: the bulk operations are whole transactions. */
  ghost predicate Free(s: Auth, user: UserId) {
    forall q :: q in s.rotations && s.rotations[q].row.Some? && s.rotations[q].row.value in s.sessions ==>
      s.sessions[s.rotations[q].row.value].user != user
  }

  ghost predicate Fresh(s: Auth, refresh: Jti, access: Jti, id: SessionId) {
    refresh != access && refresh !in s.minted && access !in s.minted && id !in s.sessions && id !in s.signIns
  }

  ghost predicate Enabled(s: Auth, e: Step) {
    match e
    case Register(user, _, _) => user !in s.accounts
    case SignIn(user, refresh, access, id) => IsActive(s, user) && Fresh(s, refresh, access, id)
    case StartRefresh(q, token) => q !in s.rotations && Accepted(s, token, Refresh)
    case LockRow(q, id) =>
      && q in s.rotations && s.rotations[q].row.None? && Unlocked(s, id)
      && id in s.sessions && s.sessions[id].refresh == s.rotations[q].token
    case Rotate(q, refresh, access, id) =>
      && q in s.rotations && s.rotations[q].row.Some? && s.rotations[q].row.value in s.sessions
      && s.rotations[q].token in s.minted && Fresh(s, refresh, access, id)
    case Abandon(q) => q in s.rotations
    case Logout(access, presented) =>
      && Decodes(s, access, Access)
      && (SignOutRow(s, access, presented).Some? ==> Unlocked(s, SignOutRow(s, access, presented).value))
    case RevokeDevice(user, id) => id in s.sessions && s.sessions[id].user == user && Unlocked(s, id)
    case RevokeAll(user, _) => Free(s, user)
    case SendLink(user, link) => IsActive(s, user) && link !in s.minted
    case FollowLink(link) => LinkWorks(s, link) && Free(s, s.minted[link].user)
    case SetInitial(user, _) => user in s.accounts && s.accounts[user].mustChange && Free(s, user)
    case ChangePassword(user) => user in s.accounts
    case Reissue(user) => user in s.accounts
    case SetActive(user, _) => user in s.accounts
    case PurgeExpired => true
    case Tick(_) => true
  }

  function Next(s: Auth, e: Step): Auth
    requires Enabled(s, e)
  {
    match e
    case Register(user, active, issued) => s.(accounts := s.accounts[user := Account(active, issued, s.now)])
    case SignIn(user, refresh, access, id) => Issue(s, user, id, refresh, access, id)
    case StartRefresh(q, token) => s.(rotations := s.rotations[q := Rotation(token, None)])
    case LockRow(q, id) =>
      // the row is read under its lock; a spent one refuses the request
      if Refreshable(s.sessions[id], s.now) then s.(rotations := s.rotations[q := s.rotations[q].(row := Some(id))])
      else s.(rotations := s.rotations - {q})
    case Rotate(q, refresh, access, id) =>
      var row := s.rotations[q].row.value;
      var s1 := Deny(EndRow(s.(rotations := s.rotations - {q}), row), s.rotations[q].token);
      Issue(s1, s.sessions[row].user, s.sessions[row].chain, refresh, access, id)
    case Abandon(q) => s.(rotations := s.rotations - {q})
    case Logout(access, presented) => SignOut(s, access, presented)
    case RevokeDevice(_, id) =>
      DenyAccess(s.(sessions := s.sessions[id := s.sessions[id].(revoked := Some(s.now))]), id)
    case RevokeAll(user, keep) => Sweep(s, user, keep)
    case SendLink(user, link) => s.(minted := s.minted[link := Mint(s, Reset, user)])
    case FollowLink(link) => Sweep(Deny(ChoosePassword(s, s.minted[link].user), link), s.minted[link].user, None)
    case SetInitial(user, keep) => Sweep(ChoosePassword(s, user), user, keep)
    case ChangePassword(user) => ChoosePassword(s, user)
    case Reissue(user) => s.(accounts := s.accounts[user := s.accounts[user].(mustChange := true, changed := s.now)])
    case SetActive(user, active) => s.(accounts := s.accounts[user := s.accounts[user].(active := active)])
    case PurgeExpired => Purge(s)
    case Tick(elapsed) => s.(now := s.now + elapsed)
  }

  ghost predicate ValidRun(s: Auth, es: seq<Step>)
    decreases |es|
  {
    es == [] || (Enabled(s, es[0]) && ValidRun(Next(s, es[0]), es[1..]))
  }

  ghost function Run(s: Auth, es: seq<Step>): Auth
    requires ValidRun(s, es)
    decreases |es|
  {
    if es == [] then s else Run(Next(s, es[0]), es[1..])
  }

  function Start(limits: Limits, now: Time): Auth {
    Auth(limits, now, map[], map[], map[], map[], map[], {}, map[])
  }

  // ---- what every state keeps ----

  ghost predicate TokenOk(s: Auth, j: Jti)
    requires j in s.minted
  {
    var t := s.minted[j];
    && t.iat <= WholeSeconds(s.now) && t.user in s.accounts
    && (t.kind != Reset ==>
          && j in s.made && s.made[j] in s.sessions
          && j == if t.kind == Access then s.sessions[s.made[j]].access else s.sessions[s.made[j]].refresh)
  }

  /** A row records the pair that was minted with it, and outlives both tokens. */
  ghost predicate RowOk(s: Auth, id: SessionId)
    requires id in s.sessions
  {
    var x := s.sessions[id];
    && x.refresh in s.minted && x.refresh in s.made && s.made[x.refresh] == id
    && s.minted[x.refresh].kind == Refresh && s.minted[x.refresh].user == x.user
    && x.access in s.minted && x.access in s.made && s.made[x.access] == id
    && s.minted[x.access].kind == Access && s.minted[x.access].user == x.user
    && s.minted[x.access].exp == x.accessExpires <= x.expires && s.minted[x.refresh].exp <= x.expires
  }

  /** A revoked row's access token is refused for good. */
  ghost predicate RevokedOk(s: Auth, id: SessionId)
    requires id in s.sessions
  {
    s.sessions[id].revoked.Some? ==> s.sessions[id].accessExpires <= s.now || s.sessions[id].access in s.denied
  }

  ghost predicate RotationOk(s: Auth, q: RequestId)
    requires q in s.rotations
  {
    var r := s.rotations[q];
    && r.token in s.minted
    && (r.row.Some? ==>
          && r.row.value in s.sessions && s.sessions[r.row.value].refresh == r.token
          && s.sessions[r.row.value].revoked.None?
          && forall p :: p in s.rotations && p != q ==> s.rotations[p].row != r.row)
  }

  ghost predicate TokensOk(s: Auth) { forall j :: j in s.minted ==> TokenOk(s, j) }
  ghost predicate RowsOk(s: Auth) { forall id :: id in s.sessions ==> RowOk(s, id) && RevokedOk(s, id) }
  ghost predicate DeniedOk(s: Auth) { forall j :: j in s.denied ==> j in s.minted && s.denied[j] == s.minted[j].exp }
  ghost predicate RotationsOk(s: Auth) { forall q :: q in s.rotations ==> RotationOk(s, q) }

  ghost predicate SameLiveChain(x: Session, y: Session) {
    x.chain == y.chain && x.revoked.None? && y.revoked.None?
  }

  /** One unrevoked row a sign-in. */
  ghost predicate ChainsOk(s: Auth) {
    && (forall id :: id in s.sessions ==> s.sessions[id].chain in s.signIns)
    && (forall i, j :: i in s.sessions && j in s.sessions && SameLiveChain(s.sessions[i], s.sessions[j]) ==> i == j)
  }

  ghost predicate AccountsOk(s: Auth) {
    s.limits.access <= s.limits.refresh && forall u :: u in s.accounts ==> s.accounts[u].changed <= s.now
  }

  ghost predicate Inv(s: Auth) {
    TokensOk(s) && RowsOk(s) && DeniedOk(s) && RotationsOk(s) && ChainsOk(s) && AccountsOk(s)
  }

  /** What a step may do to the rows and the denylist: rows are never dropped or un-revoked, tokens never
      forgotten, a denied id is let go only once expired, and a password's date only moves forward. */
  ghost predicate Grows(s: Auth, s': Auth) {
    s.now <= s'.now && TokensGrow(s, s') && DeniedGrow(s, s') && RowsGrow(s, s') && AccountsGrow(s, s')
  }

  ghost predicate TokensGrow(s: Auth, s': Auth) {
    && (forall j :: j in s.minted ==> j in s'.minted && s'.minted[j] == s.minted[j])
    && (forall j :: j in s.made && j in s.minted ==> j in s'.made && s'.made[j] == s.made[j])
  }

  ghost predicate DeniedGrow(s: Auth, s': Auth) {
    forall j :: j in s.denied && j in s.minted ==> j in s'.denied || s.minted[j].exp <= s'.now
  }

  ghost predicate RowsGrow(s: Auth, s': Auth) {
    forall id :: id in s.sessions ==> id in s'.sessions && RowGrows(s.sessions[id], s'.sessions[id])
  }

  ghost predicate RowGrows(x: Session, x': Session) {
    x' == x.(revoked := x'.revoked) && (x.revoked.Some? ==> x'.revoked.Some?)
  }

  ghost predicate AccountsGrow(s: Auth, s': Auth) {
    forall u :: u in s.accounts ==> u in s'.accounts && s.accounts[u].changed <= s'.accounts[u].changed
  }

  lemma LaterSecond(t: Time, u: Time)
    requires t <= u
    ensures WholeSeconds(t) <= WholeSeconds(u)
  {
  }

  // ---- one fact at a time across a step that only grows ----

  lemma TokenStays(s: Auth, s': Auth, j: Jti)
    requires s.now <= s'.now && TokensGrow(s, s') && RowsGrow(s, s') && AccountsGrow(s, s')
    requires j in s.minted && TokenOk(s, j)
    ensures j in s'.minted && TokenOk(s', j)
  {
    LaterSecond(s.now, s'.now);
  }

  lemma RowStays(s: Auth, s': Auth, id: SessionId)
    requires TokensGrow(s, s') && RowsGrow(s, s') && id in s.sessions && RowOk(s, id)
    ensures id in s'.sessions && RowOk(s', id)
  {
  }

  lemma RevokedStays(s: Auth, s': Auth, id: SessionId)
    requires Grows(s, s') && id in s.sessions && RowOk(s, id) && RevokedOk(s, id)
    requires id in s'.sessions && s'.sessions[id].revoked.Some? ==> s.sessions[id].revoked.Some?
    ensures id in s'.sessions && RevokedOk(s', id)
  {
  }

  lemma RotationStays(s: Auth, s': Auth, q: RequestId)
    requires TokensGrow(s, s') && RowsGrow(s, s') && q in s.rotations && RotationOk(s, q)
    requires q in s'.rotations && s'.rotations[q] == s.rotations[q]
    requires forall p :: p in s'.rotations ==> p in s.rotations && s'.rotations[p] == s.rotations[p]
    requires var r := s.rotations[q].row; r.Some? && r.value in s'.sessions ==> s'.sessions[r.value].revoked.None?
    ensures RotationOk(s', q)
  {
  }

  /** Rows may be added or stamped; stamped ones must have their access token refused. */
  lemma GrowthKeeps(s: Auth, s': Auth)
    requires Inv(s) && Grows(s, s') && DeniedOk(s') && RotationsOk(s') && ChainsOk(s') && AccountsOk(s')
    requires forall j :: j in s'.minted && j !in s.minted ==> TokenOk(s', j)
    requires forall id :: id in s'.sessions && id !in s.sessions ==> RowOk(s', id)
    requires forall id :: id in s'.sessions && (id in s.sessions ==> s.sessions[id].revoked.None?) ==> RevokedOk(s', id)
    ensures Inv(s')
  {
    forall j | j in s'.minted ensures TokenOk(s', j) { if j in s.minted { TokenStays(s, s', j); } }
    forall id | id in s'.sessions ensures RowOk(s', id) && RevokedOk(s', id) {
      if id in s.sessions {
        assert RowOk(s, id) && RevokedOk(s, id);
        RowStays(s, s', id);
        if s.sessions[id].revoked.Some? { RevokedStays(s, s', id); }
      }
    }
  }

  /** Same rows and locks: nothing else to show than the denylist and the accounts. */
  lemma AsideKeeps(s: Auth, s': Auth)
    requires Inv(s) && Grows(s, s')
    requires s'.sessions == s.sessions && s'.rotations == s.rotations && s'.signIns == s.signIns
    requires DeniedOk(s') && AccountsOk(s')
    requires forall j :: j in s'.minted && j !in s.minted ==> TokenOk(s', j)
    ensures Inv(s')
  {
    forall q | q in s'.rotations ensures RotationOk(s', q) {
      assert RotationOk(s, q);
      RotationStays(s, s', q);
    }
    forall id | id in s'.sessions ensures RevokedOk(s', id) {
      assert RowOk(s, id) && RevokedOk(s, id);
      RevokedStays(s, s', id);
    }
    GrowthKeeps(s, s');
  }

  // ---- each row change keeps them ----

  lemma IssueGrows(s: Auth, user: UserId, chain: SessionId, refresh: Jti, access: Jti, id: SessionId)
    requires Fresh(s, refresh, access, id)
    ensures Grows(s, Issue(s, user, chain, refresh, access, id))
  {
  }

  lemma IssuedPair(s: Auth, user: UserId, chain: SessionId, refresh: Jti, access: Jti, id: SessionId)
    requires Fresh(s, refresh, access, id) && user in s.accounts && s.limits.access <= s.limits.refresh
    ensures var s' := Issue(s, user, chain, refresh, access, id);
            TokenOk(s', refresh) && TokenOk(s', access) && RowOk(s', id) && RevokedOk(s', id)
  {
    LaterSecond(s.now + s.limits.access, s.now + s.limits.refresh);
  }

  lemma IssueKeepsChains(s: Auth, user: UserId, chain: SessionId, refresh: Jti, access: Jti, id: SessionId)
    requires ChainsOk(s) && id !in s.sessions && id !in s.signIns
    requires chain == id || (forall i :: i in s.sessions && s.sessions[i].chain == chain ==>
                             s.sessions[i].revoked.Some?)
    ensures ChainsOk(Issue(s, user, chain, refresh, access, id))
  {
  }

  lemma IssueKeeps(s: Auth, user: UserId, chain: SessionId, refresh: Jti, access: Jti, id: SessionId)
    requires Inv(s) && Fresh(s, refresh, access, id) && user in s.accounts
    requires chain == id || (forall i :: i in s.sessions && s.sessions[i].chain == chain ==>
                             s.sessions[i].revoked.Some?)
    ensures Inv(Issue(s, user, chain, refresh, access, id))
    ensures Grows(s, Issue(s, user, chain, refresh, access, id))
  {
    var s' := Issue(s, user, chain, refresh, access, id);
    IssueGrows(s, user, chain, refresh, access, id);
    IssuedPair(s, user, chain, refresh, access, id);
    IssueKeepsChains(s, user, chain, refresh, access, id);
    forall q | q in s'.rotations ensures RotationOk(s', q) {
      assert RotationOk(s, q);
      RotationStays(s, s', q);
    }
    forall i | i in s'.sessions ensures RevokedOk(s', i) {
      if i in s.sessions {
        assert RowOk(s, i) && RevokedOk(s, i);
        RevokedStays(s, s', i);
      }
    }
    GrowthKeeps(s, s');
  }

  lemma DenyKeeps(s: Auth, j: Jti)
    requires Inv(s) && j in s.minted
    ensures Inv(Deny(s, j)) && Grows(s, Deny(s, j)) && j in Deny(s, j).denied
  {
    assert Grows(s, Deny(s, j));
    AsideKeeps(s, Deny(s, j));
  }

  /** Ends the row as `EndRow` does, with any time as the stamp. */
  function Stamped(s: Auth, id: SessionId, at: Time): Auth
    requires id in s.sessions
  {
    DenyAccess(s.(sessions := s.sessions[id := s.sessions[id].(revoked := Some(at))]), id)
  }

  lemma StampedFacts(s: Auth, id: SessionId, at: Time)
    requires id in s.sessions && RowOk(s, id)
    ensures Grows(s, Stamped(s, id, at)) && RevokedOk(Stamped(s, id, at), id)
    ensures DeniedOk(s) ==> DeniedOk(Stamped(s, id, at))
    ensures ChainsOk(s) ==> ChainsOk(Stamped(s, id, at))
  {
    var s' := Stamped(s, id, at);
    assert s'.sessions == s.sessions[id := s.sessions[id].(revoked := Some(at))];
    assert s'.minted == s.minted && s'.made == s.made && s'.accounts == s.accounts && s'.now == s.now;
  }

  lemma StampKeepsRotation(s: Auth, id: SessionId, at: Time, q: RequestId)
    requires id in s.sessions && q in s.rotations && s.rotations[q].row != Some(id) && RotationOk(s, q)
    ensures RotationOk(Stamped(s, id, at), q)
  {
  }

  lemma StampKeepsRevoked(s: Auth, id: SessionId, at: Time, i: SessionId)
    requires id in s.sessions && i in s.sessions && RevokedOk(s, i) && RevokedOk(Stamped(s, id, at), id)
    ensures i in Stamped(s, id, at).sessions && RevokedOk(Stamped(s, id, at), i)
  {
  }

  lemma StampKeeps(s: Auth, id: SessionId, at: Time)
    requires Inv(s) && id in s.sessions && Unlocked(s, id)
    ensures Inv(Stamped(s, id, at)) && Grows(s, Stamped(s, id, at))
  {
    var s' := Stamped(s, id, at);
    assert RowOk(s, id);
    StampedFacts(s, id, at);
    assert s'.sessions.Keys == s.sessions.Keys && s'.rotations == s.rotations;
    forall q | q in s'.rotations ensures RotationOk(s', q) { StampKeepsRotation(s, id, at, q); }
    forall i | i in s'.sessions ensures RevokedOk(s', i) { StampKeepsRevoked(s, id, at, i); }
    GrowthKeeps(s, s');
  }

  lemma EndRowKeeps(s: Auth, id: SessionId)
    requires Inv(s) && id in s.sessions && Unlocked(s, id)
    ensures Inv(EndRow(s, id)) && Grows(s, EndRow(s, id)) && EndRow(s, id).sessions[id].revoked.Some?
    ensures EndRow(s, id).sessions == s.sessions[id := EndRow(s, id).sessions[id]]
    ensures EndRow(s, id).minted == s.minted && EndRow(s, id).accounts == s.accounts
    ensures EndRow(s, id).limits == s.limits && EndRow(s, id).rotations == s.rotations
  {
    var at := if s.sessions[id].revoked.Some? then s.sessions[id].revoked.value else s.now;
    StampKeeps(s, id, at);
    EndRowIsStamped(s, id, at);
  }

  lemma EndRowIsStamped(s: Auth, id: SessionId, at: Time)
    requires id in s.sessions
    requires at == if s.sessions[id].revoked.Some? then s.sessions[id].revoked.value else s.now
    ensures EndRow(s, id) == Stamped(s, id, at)
  {
  }

  lemma SweepFacts(s: Auth, user: UserId, keep: Option<Jti>)
    ensures var s' := Sweep(s, user, keep);
            && s' == s.(sessions := s'.sessions, denied := s'.denied) && s'.sessions.Keys == s.sessions.Keys
            && (forall id :: id in s.sessions ==>
                  s'.sessions[id] == if Swept(s.sessions[id], user, keep, s.now) && s.sessions[id].revoked.None?
                                     then s.sessions[id].(revoked := Some(s.now)) else s.sessions[id])
            && (forall j :: j in s.denied ==> j in s'.denied && s'.denied[j] == s.denied[j])
            && (forall id :: id in s.sessions && Swept(s.sessions[id], user, keep, s.now) ==>
                  s.sessions[id].accessExpires <= s.now || s.sessions[id].access in s'.denied)
  {
  }

  lemma SweepDenies(s: Auth, user: UserId, keep: Option<Jti>)
    requires DeniedOk(s) && forall id :: id in s.sessions ==> RowOk(s, id)
    ensures DeniedOk(Sweep(s, user, keep))
  {
    var s' := Sweep(s, user, keep);
    forall j | j in s'.denied ensures j in s'.minted && s'.denied[j] == s'.minted[j].exp {
      if j !in s.denied {
        var id :| id in s.sessions && s.sessions[id].access == j;
        assert RowOk(s, id);
      }
    }
  }

  lemma SweepKeepsRotation(s: Auth, user: UserId, keep: Option<Jti>, q: RequestId)
    requires Free(s, user) && q in s.rotations && RotationOk(s, q)
    ensures RotationOk(Sweep(s, user, keep), q)
  {
    SweepFacts(s, user, keep);
  }

  lemma SweepKeepsChains(s: Auth, user: UserId, keep: Option<Jti>)
    requires ChainsOk(s)
    ensures ChainsOk(Sweep(s, user, keep))
  {
    var s' := Sweep(s, user, keep);
    SweepFacts(s, user, keep);
    forall id | id in s'.sessions ensures s'.sessions[id].chain in s'.signIns {
      assert s'.sessions[id].chain == s.sessions[id].chain;
    }
    forall i, j | i in s'.sessions && j in s'.sessions && SameLiveChain(s'.sessions[i], s'.sessions[j])
      ensures i == j
    {
      assert s.sessions[i] == s'.sessions[i] && s.sessions[j] == s'.sessions[j];
    }
  }

  lemma SweepKeeps(s: Auth, user: UserId, keep: Option<Jti>)
    requires Inv(s) && Free(s, user)
    ensures Inv(Sweep(s, user, keep)) && Grows(s, Sweep(s, user, keep))
  {
    var s' := Sweep(s, user, keep);
    SweepFacts(s, user, keep);
    assert Grows(s, s');
    SweepDenies(s, user, keep);
    SweepKeepsChains(s, user, keep);
    forall q | q in s'.rotations ensures RotationOk(s', q) {
      assert RotationOk(s, q);
      SweepKeepsRotation(s, user, keep, q);
    }
    forall i | i in s'.sessions ensures RevokedOk(s', i) {
      assert RowOk(s, i) && RevokedOk(s, i);
      if s'.sessions[i].revoked == s.sessions[i].revoked { RevokedStays(s, s', i); }
    }
    GrowthKeeps(s, s');
  }

  lemma PurgeKeeps(s: Auth)
    requires Inv(s)
    ensures Inv(Purge(s)) && Grows(s, Purge(s))
  {
    assert Grows(s, Purge(s));
    AsideKeeps(s, Purge(s));
  }

  lemma SendLinkKeeps(s: Auth, user: UserId, link: Jti)
    requires Inv(s) && Enabled(s, SendLink(user, link))
    ensures Inv(Next(s, SendLink(user, link))) && Grows(s, Next(s, SendLink(user, link)))
  {
    assert Grows(s, Next(s, SendLink(user, link)));
    AsideKeeps(s, Next(s, SendLink(user, link)));
  }

  lemma LockKeepsRotations(s: Auth, e: Step)
    requires e.StartRefresh? || e.LockRow? || e.Abandon?
    requires RotationsOk(s) && Enabled(s, e)
    ensures RotationsOk(Next(s, e))
  {
    var s' := Next(s, e);
    forall q | q in s'.rotations ensures RotationOk(s', q) { if q in s.rotations { assert RotationOk(s, q); } }
  }

  lemma LockKeeps(s: Auth, e: Step)
    requires e.StartRefresh? || e.LockRow? || e.Abandon?
    requires Inv(s) && Enabled(s, e)
    ensures Inv(Next(s, e)) && Grows(s, Next(s, e))
  {
    var s' := Next(s, e);
    assert s' == s.(rotations := s'.rotations);
    LockKeepsRotations(s, e);
    assert Grows(s, s');
    forall id | id in s'.sessions ensures RevokedOk(s', id) {
      assert RowOk(s, id) && RevokedOk(s, id);
      RevokedStays(s, s', id);
    }
    GrowthKeeps(s, s');
  }

  lemma AccountKeeps(s: Auth, s': Auth)
    requires Inv(s) && s' == s.(accounts := s'.accounts, now := s'.now) && s.now <= s'.now
    requires AccountsOk(s') && AccountsGrow(s, s')
    ensures Inv(s') && Grows(s, s')
  {
    assert Grows(s, s');
    AsideKeeps(s, s');
  }

  lemma OthersInChain(s: Auth, row: SessionId)
    requires ChainsOk(s) && row in s.sessions && s.sessions[row].revoked.None?
    ensures forall i :: i in s.sessions && i != row && s.sessions[i].chain == s.sessions[row].chain ==>
            s.sessions[i].revoked.Some?
  {
    forall i | i in s.sessions && i != row && s.sessions[i].chain == s.sessions[row].chain
      ensures s.sessions[i].revoked.Some?
    {
      assert !SameLiveChain(s.sessions[i], s.sessions[row]);
    }
  }

  /** The state a rotation issues the new pair in. */
  function RotatedOut(s: Auth, q: RequestId): Auth
    requires q in s.rotations && s.rotations[q].row.Some? && s.rotations[q].row.value in s.sessions
    requires s.rotations[q].token in s.minted
  {
    Deny(EndRow(s.(rotations := s.rotations - {q}), s.rotations[q].row.value), s.rotations[q].token)
  }

  lemma RotatedOutFacts(s: Auth, q: RequestId)
    requires q in s.rotations && s.rotations[q].row.Some? && s.rotations[q].row.value in s.sessions
    requires s.rotations[q].token in s.minted
    ensures var s', row := RotatedOut(s, q), s.rotations[q].row.value;
            && row in s'.sessions && s'.sessions == s.sessions[row := s'.sessions[row]]
            && s'.sessions[row].revoked.Some?
            && s'.minted == s.minted && s'.signIns == s.signIns && s'.accounts == s.accounts
  {
  }

  lemma RowFreed(s: Auth, q: RequestId)
    requires q in s.rotations && s.rotations[q].row.Some? && RotationOk(s, q)
    ensures Unlocked(s.(rotations := s.rotations - {q}), s.rotations[q].row.value)
  {
  }

  lemma RotatedOutKeeps(s: Auth, q: RequestId)
    requires Inv(s) && q in s.rotations && s.rotations[q].row.Some? && RotationOk(s, q)
    ensures Inv(RotatedOut(s, q)) && Grows(s, RotatedOut(s, q))
  {
    var row, s0 := s.rotations[q].row.value, s.(rotations := s.rotations - {q});
    LockKeeps(s, Abandon(q));
    RowFreed(s, q);
    EndRowKeeps(s0, row);
    DenyKeeps(EndRow(s0, row), s.rotations[q].token);
    GrowsThrough(s0, EndRow(s0, row), RotatedOut(s, q));
    GrowsThrough(s, s0, RotatedOut(s, q));
  }

  lemma GrowsThrough(s: Auth, t: Auth, u: Auth)
    requires Grows(s, t) && Grows(t, u)
    requires forall j :: j in t.minted && j in s.minted ==> t.minted[j] == s.minted[j]
    ensures Grows(s, u)
  {
    assert TokensGrow(s, u) && RowsGrow(s, u) && AccountsGrow(s, u);
    forall j | j in s.denied && j in s.minted
      ensures j in u.denied || s.minted[j].exp <= u.now
    {
      assert j in t.minted;
    }
  }

  lemma RotateKeeps(s: Auth, q: RequestId, refresh: Jti, access: Jti, id: SessionId)
    requires Inv(s) && Enabled(s, Rotate(q, refresh, access, id))
    ensures var s' := Next(s, Rotate(q, refresh, access, id));
            && Inv(s') && Grows(s, s') && s.rotations[q].row.value in s'.sessions
            && s'.sessions[s.rotations[q].row.value].revoked.Some?
  {
    assert RotationOk(s, q);
    RotatedOutKeeps(s, q);
    RotatedOutFacts(s, q);
    var row, s1 := s.rotations[q].row.value, RotatedOut(s, q);
    OthersInChain(s, row);
    RowOwner(s, row);
    IssueKeeps(s1, s.sessions[row].user, s.sessions[row].chain, refresh, access, id);
    GrowsThrough(s, s1, Next(s, Rotate(q, refresh, access, id)));
  }

  lemma RowOwner(s: Auth, id: SessionId)
    requires TokensOk(s) && RowsOk(s) && id in s.sessions
    ensures s.sessions[id].user in s.accounts
  {
    assert RowOk(s, id);
    assert TokenOk(s, s.sessions[id].access);
  }

  lemma DenyBothKeeps(s: Auth, access: Jti, presented: Option<Jti>)
    requires Inv(s) && access in s.minted
    ensures var s' := DenyBoth(s, access, presented); Inv(s') && Grows(s, s') && access in s'.denied
  {
    DenyKeeps(s, access);
    var s1 := Deny(s, access);
    if presented.Some? && Decodes(s1, presented.value, Refresh) {
      DenyKeeps(s1, presented.value);
      GrowsThrough(s, s1, Deny(s1, presented.value));
    }
  }

  lemma SignOutKeeps(s: Auth, access: Jti, presented: Option<Jti>)
    requires Inv(s) && Enabled(s, Logout(access, presented))
    ensures var s', row := SignOut(s, access, presented), SignOutRow(s, access, presented);
            && Inv(s') && Grows(s, s') && Dead(s', access)
            && (row.Some? ==> row.value in s'.sessions && s'.sessions[row.value].revoked.Some?)
  {
    DenyBothKeeps(s, access, presented);
    var row, s1 := SignOutRow(s, access, presented), DenyBoth(s, access, presented);
    var s2 := if row.Some? then EndRow(s1, row.value) else s1;
    if row.Some? {
      EndRowKeeps(s1, row.value);
      GrowsThrough(s, s1, s2);
    }
    PurgeKeeps(s2);
    GrowsThrough(s, s2, Purge(s2));
    assert access in s2.denied || s2.minted[access].exp <= s2.now;
  }

  lemma FollowLinkKeeps(s: Auth, link: Jti)
    requires Inv(s) && Enabled(s, FollowLink(link))
    ensures Inv(Next(s, FollowLink(link))) && Grows(s, Next(s, FollowLink(link)))
  {
    var user := s.minted[link].user;
    var s1 := ChoosePassword(s, user);
    AccountKeeps(s, s1);
    DenyKeeps(s1, link);
    GrowsThrough(s, s1, Deny(s1, link));
    SweepKeeps(Deny(s1, link), user, None);
    GrowsThrough(s, Deny(s1, link), Next(s, FollowLink(link)));
  }

  lemma AccountStepKeeps(s: Auth, e: Step)
    requires e.Register? || e.ChangePassword? || e.Reissue? || e.SetActive?
    requires Inv(s) && Enabled(s, e)
    ensures Inv(Next(s, e)) && Grows(s, Next(s, e))
  {
    AccountKeeps(s, Next(s, e));
  }

  lemma TickKeeps(s: Auth, elapsed: nat)
    requires Inv(s)
    ensures Inv(Next(s, Tick(elapsed))) && Grows(s, Next(s, Tick(elapsed)))
  {
    AccountKeeps(s, Next(s, Tick(elapsed)));
  }

  lemma SetInitialKeeps(s: Auth, user: UserId, keep: Option<Jti>)
    requires Inv(s) && Enabled(s, SetInitial(user, keep))
    ensures Inv(Next(s, SetInitial(user, keep))) && Grows(s, Next(s, SetInitial(user, keep)))
  {
    var s1 := ChoosePassword(s, user);
    AccountKeeps(s, s1);
    SweepKeeps(s1, user, keep);
    GrowsThrough(s, s1, Sweep(s1, user, keep));
  }

  lemma RefreshStepKeeps(s: Auth, e: Step)
    requires e.SignIn? || e.StartRefresh? || e.LockRow? || e.Abandon? || e.Rotate?
    requires Inv(s) && Enabled(s, e)
    ensures Inv(Next(s, e)) && Grows(s, Next(s, e))
  {
    match e
    case SignIn(user, refresh, access, id) => IssueKeeps(s, user, id, refresh, access, id);
    case Rotate(q, refresh, access, id) => RotateKeeps(s, q, refresh, access, id);
    case _ => LockKeeps(s, e);
  }

  lemma StepKeeps(s: Auth, e: Step)
    requires Inv(s) && Enabled(s, e)
    ensures Inv(Next(s, e)) && Grows(s, Next(s, e))
  {
    match e
    case SignIn(_, _, _, _) => RefreshStepKeeps(s, e);
    case StartRefresh(_, _) => RefreshStepKeeps(s, e);
    case LockRow(_, _) => RefreshStepKeeps(s, e);
    case Abandon(_) => RefreshStepKeeps(s, e);
    case Rotate(_, _, _, _) => RefreshStepKeeps(s, e);
    case Logout(access, presented) => SignOutKeeps(s, access, presented);
    case RevokeDevice(_, id) => StampKeeps(s, id, s.now);
    case RevokeAll(user, keep) => SweepKeeps(s, user, keep);
    case SendLink(user, link) => SendLinkKeeps(s, user, link);
    case FollowLink(link) => FollowLinkKeeps(s, link);
    case SetInitial(user, keep) => SetInitialKeeps(s, user, keep);
    case PurgeExpired => PurgeKeeps(s);
    case Tick(elapsed) => TickKeeps(s, elapsed);
    case _ => AccountStepKeeps(s, e);
  }
}
