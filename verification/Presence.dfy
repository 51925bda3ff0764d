/** Who a room and the shared presence hash list, while handlers join, ping, leave and are evicted or
    reaped by others, one awaited call at a time. */
module Presence {
  import opened Wrappers

  type ConnId = nat
  type ProjectId = nat

  /** How far one socket's handler has come. Its `leave` clears the hash (Unlisted), then the room (Popped). */
  datatype Phase = Accepted | Registered | Live | Unlisted | Popped | Ended

  /** `struck` remembers the sockets an eviction or a reaping has touched. */
  datatype Desk = Desk(project: map<ConnId, ProjectId>, phase: map<ConnId, Phase>,
                       rooms: map<ProjectId, set<ConnId>>, hash: map<ProjectId, set<ConnId>>, struck: set<ConnId>)

  const OPENING := Desk(map[], map[], map[], map[], {})

  datatype Step =
    | Accept(c: ConnId, p: ProjectId)
    | Register(c: ConnId)
    | Record(c: ConnId)
    | Ping(c: ConnId)
    | Forget(c: ConnId)     // the handler's own `leave` starts, from wherever it had got
    | PopSelf(c: ConnId)
    | End(c: ConnId)
    | StrikeHash(c: ConnId) // somebody else's call takes c off the hash,
    | StrikeRoom(c: ConnId) // and out of the room

  function Listed(m: map<ProjectId, set<ConnId>>, p: ProjectId): set<ConnId> {
    if p in m then m[p] else {}
  }

  function AddTo(m: map<ProjectId, set<ConnId>>, p: ProjectId, c: ConnId): map<ProjectId, set<ConnId>> {
    m[p := Listed(m, p) + {c}]
  }

  /** Drops c, and the whole entry when c was the last one in it. */
  function DropFrom(m: map<ProjectId, set<ConnId>>, p: ProjectId, c: ConnId): map<ProjectId, set<ConnId>> {
    if p !in m then m else if m[p] - {c} == {} then m - {p} else m[p := m[p] - {c}]
  }

  function PhaseOf(s: Desk, c: ConnId): (ph: Option<Phase>) {
    if c in s.phase && c in s.project then Some(s.phase[c]) else None
  }

  ghost predicate Enabled(s: Desk, e: Step) {
    match e
    case Accept(c, _) => c !in s.phase && c !in s.project
    case Register(c) => PhaseOf(s, c) == Some(Accepted)
    case Record(c) => PhaseOf(s, c) == Some(Registered)
    case Ping(c) => PhaseOf(s, c) == Some(Live)
    case Forget(c) => PhaseOf(s, c) in {Some(Accepted), Some(Registered), Some(Live)}
    case PopSelf(c) => PhaseOf(s, c) == Some(Unlisted)
    case End(c) => PhaseOf(s, c) == Some(Popped)
    // whoever strikes a socket found it in the room
    case StrikeHash(c) => PhaseOf(s, c).Some? && s.phase[c] != Accepted
    case StrikeRoom(c) => PhaseOf(s, c).Some? && s.phase[c] != Accepted
  }

  function Next(s: Desk, e: Step): Desk
    requires Enabled(s, e)
  {
    match e
    case Accept(c, p) => s.(project := s.project[c := p], phase := s.phase[c := Accepted])
    case Register(c) => s.(phase := s.phase[c := Registered], rooms := AddTo(s.rooms, s.project[c], c))
    case Record(c) => s.(phase := s.phase[c := Live], hash := AddTo(s.hash, s.project[c], c))
    case Ping(c) => s.(hash := AddTo(s.hash, s.project[c], c))
    case Forget(c) => s.(phase := s.phase[c := Unlisted], hash := DropFrom(s.hash, s.project[c], c))
    case PopSelf(c) => s.(phase := s.phase[c := Popped], rooms := DropFrom(s.rooms, s.project[c], c))
    case End(c) => s.(phase := s.phase[c := Ended])
    case StrikeHash(c) => s.(struck := s.struck + {c}, hash := DropFrom(s.hash, s.project[c], c))
    case StrikeRoom(c) => s.(struck := s.struck + {c}, rooms := DropFrom(s.rooms, s.project[c], c))
  }

  ghost predicate ValidRun(s: Desk, es: seq<Step>)
    decreases |es|
  {
    es == [] || (Enabled(s, es[0]) && ValidRun(Next(s, es[0]), es[1..]))
  }

  ghost function Run(s: Desk, es: seq<Step>): Desk
    requires ValidRun(s, es)
    decreases |es|
  {
    if es == [] then s else Run(Next(s, es[0]), es[1..])
  }

  /** c is listed only for its own project, only while its handler can still take it off again; and unless
      somebody struck it, for as long as its handler is live. */
  ghost predicate ConnOk(s: Desk, c: ConnId, p: ProjectId) {
    var ph := PhaseOf(s, c);
    var inRoom, inHash := c in Listed(s.rooms, p), c in Listed(s.hash, p);
    && (inRoom ==> ph in {Some(Registered), Some(Live), Some(Unlisted)} && s.project[c] == p)
    && (inHash ==> ph == Some(Live) && s.project[c] == p)
    && (c in s.struck ==> ph.Some?)
    && (c !in s.struck && ph.Some? && s.project[c] == p ==>
          && (ph in {Some(Registered), Some(Live)} ==> inRoom)
          && (inHash <==> ph == Some(Live)))
  }

  ghost predicate Tidy(s: Desk) {
    && (forall c, p: nat :: ConnOk(s, c, p))
    && (forall p :: p in s.rooms ==> s.rooms[p] != {})
    && (forall p :: p in s.hash ==> s.hash[p] != {})
  }

  lemma StepKeepsConn(s: Desk, e: Step, c: ConnId, p: nat)
    requires ConnOk(s, c, p) && Enabled(s, e)
    ensures ConnOk(Next(s, e), c, p)
  {
  }

  lemma StepKeepsTidy(s: Desk, e: Step)
    requires Tidy(s) && Enabled(s, e)
    ensures Tidy(Next(s, e))
  {
    forall c, p: nat ensures ConnOk(Next(s, e), c, p) {
      assert ConnOk(s, c, p);
      StepKeepsConn(s, e, c, p);
    }
  }

  lemma {:induction false} RunKeepsTidy(s: Desk, es: seq<Step>)
    requires Tidy(s) && ValidRun(s, es)
    ensures Tidy(Run(s, es))
    decreases |es|
  {
    if es != [] {
      StepKeepsTidy(s, es[0]);
      RunKeepsTidy(Next(s, es[0]), es[1..]);
    }
  }

  /** Under any interleaving, a listed socket's handler has not ended; no stored room is empty; and while
      nobody struck a socket, the roster lists it exactly while its handler is live. */
  lemma NobodyListedAfterTheEnd(es: seq<Step>, c: ConnId, p: ProjectId)
    requires ValidRun(OPENING, es)
    ensures var s := Run(OPENING, es);
            && (c in Listed(s.rooms, p) || c in Listed(s.hash, p) ==>
                  PhaseOf(s, c).Some? && s.phase[c] != Ended && s.project[c] == p)
            && (p in s.rooms ==> s.rooms[p] != {})
            && (c !in s.struck && PhaseOf(s, c).Some? ==>
                  && (c in Listed(s.hash, s.project[c]) <==> s.phase[c] == Live)
                  && (s.phase[c] == Live ==> c in Listed(s.rooms, s.project[c])))
  {
    RunKeepsTidy(OPENING, es);
    var s := Run(OPENING, es);
    assert ConnOk(s, c, p);
    if PhaseOf(s, c).Some? { assert ConnOk(s, c, s.project[c]); }
  }

  // ---- who is listed, read off the run ----

  predicate InHash(s: Desk, c: ConnId) {
    c in s.project && c in Listed(s.hash, s.project[c])
  }

  predicate InRoom(s: Desk, c: ConnId) {
    c in s.project && c in Listed(s.rooms, s.project[c])
  }

  predicate AddsHash(e: Step, c: ConnId) { e == Record(c) || e == Ping(c) }
  predicate DropsHash(e: Step, c: ConnId) { e == Forget(c) || e == StrikeHash(c) }
  predicate AddsRoom(e: Step, c: ConnId) { e == Register(c) }
  predicate DropsRoom(e: Step, c: ConnId) { e == PopSelf(c) || e == StrikeRoom(c) }

  /** Some step from `from` on puts c on the hash and none after it takes c off. */
  ghost predicate HashedSince(es: seq<Step>, from: nat, c: ConnId) {
    exists i :: (from <= i < |es| && AddsHash(es[i], c) && forall j :: i < j < |es| ==> !DropsHash(es[j], c))
  }

  ghost predicate SeatedSince(es: seq<Step>, from: nat, c: ConnId) {
    exists i :: (from <= i < |es| && AddsRoom(es[i], c) && forall j :: i < j < |es| ==> !DropsRoom(es[j], c))
  }

  lemma StepLists(s: Desk, e: Step, c: ConnId)
    requires Tidy(s) && Enabled(s, e)
    ensures InHash(Next(s, e), c) <==> AddsHash(e, c) || (InHash(s, c) && !DropsHash(e, c))
    ensures InRoom(Next(s, e), c) <==> AddsRoom(e, c) || (InRoom(s, c) && !DropsRoom(e, c))
  {
    if e.Accept? { assert ConnOk(s, c, e.p); }
  }

  lemma {:induction false} RunLists(s: Desk, es: seq<Step>, c: ConnId)
    requires Tidy(s) && ValidRun(s, es)
    ensures InHash(Run(s, es), c) <==>
            HashedSince(es, 0, c) || (InHash(s, c) && forall j :: 0 <= j < |es| ==> !DropsHash(es[j], c))
    ensures InRoom(Run(s, es), c) <==>
            SeatedSince(es, 0, c) || (InRoom(s, c) && forall j :: 0 <= j < |es| ==> !DropsRoom(es[j], c))
    decreases |es|
  {
    if es != [] {
      StepKeepsTidy(s, es[0]);
      StepLists(s, es[0], c);
      RunLists(Next(s, es[0]), es[1..], c);
      HashedCons(es, c);
      SeatedCons(es, c);
    }
  }

  lemma HashedCons(es: seq<Step>, c: ConnId)
    requires es != []
    ensures HashedSince(es, 0, c) <==>
            HashedSince(es[1..], 0, c)
            || (AddsHash(es[0], c) && forall j :: 0 <= j < |es[1..]| ==> !DropsHash(es[1..][j], c))
    ensures (forall j :: 0 <= j < |es| ==> !DropsHash(es[j], c)) <==>
            !DropsHash(es[0], c) && forall j :: 0 <= j < |es[1..]| ==> !DropsHash(es[1..][j], c)
  {
    var rest := es[1..];
    assert forall j :: 1 <= j < |es| ==> es[j] == rest[j - 1];
    if HashedSince(rest, 0, c) {
      var i :| (0 <= i < |rest| && AddsHash(rest[i], c) && forall j :: i < j < |rest| ==> !DropsHash(rest[j], c));
      assert AddsHash(es[i + 1], c);
    }
    if HashedSince(es, 0, c) {
      var i :| (0 <= i < |es| && AddsHash(es[i], c) && forall j :: i < j < |es| ==> !DropsHash(es[j], c));
      assert forall j :: 0 <= j < |rest| ==> rest[j] == es[j + 1];
      if i > 0 { assert AddsHash(rest[i - 1], c); }
    }
  }

  lemma SeatedCons(es: seq<Step>, c: ConnId)
    requires es != []
    ensures SeatedSince(es, 0, c) <==>
            SeatedSince(es[1..], 0, c)
            || (AddsRoom(es[0], c) && forall j :: 0 <= j < |es[1..]| ==> !DropsRoom(es[1..][j], c))
    ensures (forall j :: 0 <= j < |es| ==> !DropsRoom(es[j], c)) <==>
            !DropsRoom(es[0], c) && forall j :: 0 <= j < |es[1..]| ==> !DropsRoom(es[1..][j], c)
  {
    var rest := es[1..];
    assert forall j :: 1 <= j < |es| ==> es[j] == rest[j - 1];
    if SeatedSince(rest, 0, c) {
      var i :| (0 <= i < |rest| && AddsRoom(rest[i], c) && forall j :: i < j < |rest| ==> !DropsRoom(rest[j], c));
      assert AddsRoom(es[i + 1], c);
    }
    if SeatedSince(es, 0, c) {
      var i :| (0 <= i < |es| && AddsRoom(es[i], c) && forall j :: i < j < |es| ==> !DropsRoom(es[j], c));
      assert forall j :: 0 <= j < |rest| ==> rest[j] == es[j + 1];
      if i > 0 { assert AddsRoom(rest[i - 1], c); }
    }
  }

  /** Over every run, the hash lists a socket exactly if it was recorded or pinged and not taken off since,
      and the room exactly if it was registered and not taken out since. */
  lemma ListedExactly(es: seq<Step>, c: ConnId)
    requires ValidRun(OPENING, es)
    ensures InHash(Run(OPENING, es), c) <==> HashedSince(es, 0, c)
    ensures InRoom(Run(OPENING, es), c) <==> SeatedSince(es, 0, c)
  {
    RunLists(OPENING, es, c);
  }

  // ---- leaving a second time ----

  /** Taking a socket off changes what is stored exactly if it is listed, whoever does it. */
  lemma LeaveChangesExactly(s: Desk, e: Step, c: ConnId)
    requires Tidy(s) && Enabled(s, e)
    ensures DropsHash(e, c) ==> (Next(s, e).hash != s.hash <==> InHash(s, c)) && Next(s, e).rooms == s.rooms
    ensures DropsRoom(e, c) ==> (Next(s, e).rooms != s.rooms <==> InRoom(s, c)) && Next(s, e).hash == s.hash
  {
    if DropsHash(e, c) { DropChanges(s.hash, s.project[c], c); }
    if DropsRoom(e, c) { DropChanges(s.rooms, s.project[c], c); }
  }

  lemma DropChanges(m: map<ProjectId, set<ConnId>>, p: ProjectId, c: ConnId)
    requires p in m ==> m[p] != {}
    ensures DropFrom(m, p, c) != m <==> c in Listed(m, p)
  {
    if c in Listed(m, p) {
      assert c !in Listed(DropFrom(m, p, c), p);
    } else if p in m {
      assert m[p] - {c} == m[p];
    }
  }

  /** c is out of the room and past joining it. */
  predicate OutForGood(s: Desk, c: ConnId) {
    PhaseOf(s, c).Some? && s.phase[c] != Accepted && !InRoom(s, c)
  }

  lemma {:induction false} OutStaysOut(s: Desk, es: seq<Step>, c: ConnId)
    requires Tidy(s) && ValidRun(s, es) && OutForGood(s, c)
    ensures OutForGood(Run(s, es), c)
    decreases |es|
  {
    if es != [] {
      StepKeepsTidy(s, es[0]);
      StepLists(s, es[0], c);
      OutStaysOut(Next(s, es[0]), es[1..], c);
    }
  }

  lemma {:induction false} RunSplits(s: Desk, es: seq<Step>, k: nat)
    requires ValidRun(s, es) && k <= |es|
    ensures ValidRun(s, es[..k]) && ValidRun(Run(s, es[..k]), es[k..])
    ensures Run(s, es) == Run(Run(s, es[..k]), es[k..])
    decreases k
  {
    if k == 0 {
      assert es[..0] == [] && es[0..] == es;
    } else {
      RunSplits(Next(s, es[0]), es[1..], k - 1);
      assert es[..k][1..] == es[1..][..k - 1] && es[1..][k - 1..] == es[k..];
    }
  }

  /** When a second leave changes anything. Once one has taken c off the hash and out of the room, a later one
      changes the hash exactly if the handler recorded or pinged in between (and was not taken off again),
      and never the room. */
  lemma SecondLeaveChangesExactly(es: seq<Step>, h: nat, r: nat, c: ConnId, e: Step)
    requires ValidRun(OPENING, es) && h < |es| && r < |es| && DropsHash(es[h], c) && DropsRoom(es[r], c)
    requires Enabled(Run(OPENING, es), e)
    ensures var s := Run(OPENING, es);
            && (DropsHash(e, c) ==>
                  (Next(s, e).hash != s.hash <==> HashedSince(es, h + 1, c)) && Next(s, e).rooms == s.rooms)
            && (DropsRoom(e, c) ==> Next(s, e) == s.(phase := Next(s, e).phase, struck := Next(s, e).struck))
  {
    var s := Run(OPENING, es);
    RunKeepsTidy(OPENING, es);
    LeaveChangesExactly(s, e, c);
    ListedExactly(es, c);
    assert HashedSince(es, 0, c) <==> HashedSince(es, h + 1, c) by {
      if HashedSince(es, 0, c) {
        var i :| (0 <= i < |es| && AddsHash(es[i], c) && forall j :: i < j < |es| ==> !DropsHash(es[j], c));
        assert i != h && !(i < h);
      }
    }
    StruckOut(es, r, c);
  }

  lemma StruckOut(es: seq<Step>, r: nat, c: ConnId)
    requires ValidRun(OPENING, es) && r < |es| && DropsRoom(es[r], c)
    ensures OutForGood(Run(OPENING, es), c)
  {
    RunSplits(OPENING, es, r);
    var s := Run(OPENING, es[..r]);
    RunKeepsTidy(OPENING, es[..r]);
    assert es[r..][0] == es[r];
    StepKeepsTidy(s, es[r]);
    StepLists(s, es[r], c);
    OutStaysOut(Next(s, es[r]), es[r..][1..], c);
  }

  lemma OwnForgetIsLast(es: seq<Step>, h: nat, c: ConnId)
    requires ValidRun(OPENING, es) && h < |es| && es[h] == Forget(c)
    ensures !HashedSince(es, h + 1, c)
  {
    RunSplits(OPENING, es, h);
    var s := Run(OPENING, es[..h]);
    assert es[h..][0] == es[h];
    if HashedSince(es, h + 1, c) {
      var i :| (h + 1 <= i < |es| && AddsHash(es[i], c) && forall j :: i < j < |es| ==> !DropsHash(es[j], c));
      NoMorePings(Next(s, es[h]), es[h..][1..], i - h - 1, c);
    }
  }

  /** After the handler's own leave no later one, of a reaper or evictor, changes anything: only a live
      handler pings. */
  lemma OwnLeaveIsLast(es: seq<Step>, h: nat, r: nat, c: ConnId, e: Step)
    requires ValidRun(OPENING, es) && h < |es| && r < |es| && es[h] == Forget(c) && es[r] == PopSelf(c)
    requires Enabled(Run(OPENING, es), e) && (DropsHash(e, c) || DropsRoom(e, c))
    ensures Next(Run(OPENING, es), e).hash == Run(OPENING, es).hash
    ensures Next(Run(OPENING, es), e).rooms == Run(OPENING, es).rooms
  {
    SecondLeaveChangesExactly(es, h, r, c, e);
    OwnForgetIsLast(es, h, c);
  }

  lemma {:induction false} NoMorePings(s: Desk, es: seq<Step>, i: nat, c: ConnId)
    requires ValidRun(s, es) && i < |es| && PhaseOf(s, c) in {Some(Unlisted), Some(Popped), Some(Ended)}
    ensures !AddsHash(es[i], c)
    decreases |es|
  {
    if i > 0 { NoMorePings(Next(s, es[0]), es[1..], i - 1, c); }
  }

  /** The case that makes a second leave matter: evicted while live, the socket pings before its handler
      ends. It is out of the room but listed again, and its own leave is what takes it off. */
  lemma PingRelistsTheEvicted(c: ConnId, p: ProjectId)
    ensures var es := [Accept(c, p), Register(c), Record(c), StrikeHash(c), StrikeRoom(c), Ping(c)];
            && ValidRun(OPENING, es)
            && var s := Run(OPENING, es);
               && p !in s.rooms && c in Listed(s.hash, p)
               && Enabled(s, Forget(c)) && Next(s, Forget(c)).hash != s.hash
  {
    var es := [Accept(c, p), Register(c), Record(c), StrikeHash(c), StrikeRoom(c), Ping(c)];
    var s1 := Next(OPENING, es[0]);
    var s2 := Next(s1, es[1]);
    var s3 := Next(s2, es[2]);
    var s4 := Next(s3, es[3]);
    var s5 := Next(s4, es[4]);
    var s6 := Next(s5, es[5]);
    assert es[1..][1..] == es[2..] && es[2..][1..] == es[3..] && es[3..][1..] == es[4..] && es[4..][1..] == es[5..];
    assert es[5..][1..] == [];
    assert ValidRun(s6, []) && Run(s6, []) == s6;
    assert ValidRun(s5, es[5..]) && Run(s5, es[5..]) == s6;
    assert ValidRun(s4, es[4..]) && Run(s4, es[4..]) == s6;
    assert ValidRun(s3, es[3..]) && Run(s3, es[3..]) == s6;
    assert ValidRun(s2, es[2..]) && Run(s2, es[2..]) == s6;
    assert ValidRun(s1, es[1..]) && Run(s1, es[1..]) == s6;
  }
}
