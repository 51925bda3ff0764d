/** What one event can set off across the workers: deliveries that reap dead sockets, the rosters that
    follow, departures, evictions and the relays of all of them. With nobody joining, no client
    sending and nobody's access changing, it always dies out. */
module Cascade {
  import opened Wrappers

  type Worker = nat
  type ConnId = nat
  type UserId = nat

  /** A broadcast that worker w has still to make. */
  datatype Say = Say(w: Worker, exclude: Option<ConnId>)

  /** A delivery loop under way on w: the sockets it listed when it started, and whether its frame goes
      on the bus afterwards (a broadcast's does, a replay's does not). */
  datatype Delivery = Delivery(w: Worker, listed: set<ConnId>, exclude: Option<ConnId>, publish: bool)

  /** What waits on the bus for worker `at`. */
  datatype Relay = Relay(at: Worker, origin: Worker, exclude: Option<ConnId>)
  datatype Evict = Evict(at: Worker, origin: Worker, user: UserId)

  datatype Net = Net(home: map<ConnId, Worker>, owner: map<ConnId, UserId>, subscribed: set<Worker>,
                     handlers: set<ConnId>, room: set<ConnId>,
                     evicts: multiset<Evict>, leaving: multiset<ConnId>, says: multiset<Say>,
                     deliveries: map<nat, Delivery>, relays: multiset<Relay>)

  datatype Step =
    | Request(w: Worker, user: UserId) // somebody's access changes: a call of `disconnect_user` on w
    | HandlerEnds(c: ConnId)
    | HearEvict(e: Evict)
    | DoLeave(c: ConnId)
    | StartSay(say: Say, id: nat)
    | StartReplay(relay: Relay, id: nat)
    | Finish(id: nat, dead: set<ConnId>)
    | Lose(relay: Relay)
    | LoseEvict(e: Evict)

  /** The sockets of worker w a delivery loop walks. */
  function Walk(s: Net, w: Worker, exclude: Option<ConnId>): set<ConnId> {
    set c | c in s.room && c in s.home && s.home[c] == w && Some(c) != exclude
  }

  function Sockets(s: Net, w: Worker, user: UserId): set<ConnId> {
    set c | c in s.room && c in s.home && s.home[c] == w && c in s.owner && s.owner[c] == user
  }

  function ToAll(workers: set<Worker>, origin: Worker, exclude: Option<ConnId>): multiset<Relay> {
    multiset(set w | w in workers :: Relay(w, origin, exclude))
  }

  function EvictAll(workers: set<Worker>, origin: Worker, user: UserId): multiset<Evict> {
    multiset(set w | w in workers :: Evict(w, origin, user))
  }

  /** `disconnect_user` on worker w: its sockets of that person are to leave, and unless `localOnly` every
      subscribed worker is told. */
  function Disconnect(s: Net, w: Worker, user: UserId, localOnly: bool): Net {
    s.(leaving := s.leaving + multiset(Sockets(s, w, user)),
       evicts := if localOnly then s.evicts else s.evicts + EvictAll(s.subscribed, w, user))
  }

  ghost predicate Enabled(s: Net, e: Step) {
    match e
    case Request(_, _) => true
    case HandlerEnds(c) => c in s.handlers
    case HearEvict(evict) => evict in s.evicts
    case DoLeave(c) => c in s.leaving
    case StartSay(say, id) => say in s.says && id !in s.deliveries
    case StartReplay(relay, id) => relay in s.relays && id !in s.deliveries
    case Finish(id, dead) => id in s.deliveries && dead <= s.deliveries[id].listed
    case Lose(relay) => relay in s.relays
    case LoseEvict(evict) => evict in s.evicts
  }

  /** `quiet` is the flag with which a worker disconnects a person it was told about. */
  function NextWith(s: Net, e: Step, quiet: bool): Net
    requires Enabled(s, e)
  {
    match e
    case Request(w, user) => Disconnect(s, w, user, false)
    case HandlerEnds(c) => s.(handlers := s.handlers - {c}, leaving := s.leaving + multiset{c})
    case HearEvict(evict) =>
      var heard := s.(evicts := s.evicts - multiset{evict});
      if evict.origin == evict.at then heard else Disconnect(heard, evict.at, evict.user, quiet)
    case DoLeave(c) =>
      var gone := s.(room := s.room - {c}, leaving := s.leaving - multiset{c});
      if c !in s.home then gone
      else gone.(says := s.says + multiset{Say(s.home[c], Some(c)), Say(s.home[c], Some(c))})
    case StartSay(say, id) =>
      s.(says := s.says - multiset{say},
         deliveries := s.deliveries[id := Delivery(say.w, Walk(s, say.w, say.exclude), say.exclude, true)])
    case StartReplay(relay, id) =>
      if relay.origin == relay.at then s.(relays := s.relays - multiset{relay})
      else s.(relays := s.relays - multiset{relay},
              deliveries := s.deliveries[id :=
                Delivery(relay.at, Walk(s, relay.at, relay.exclude), relay.exclude, false)])
    case Finish(id, dead) =>
      var d := s.deliveries[id];
      s.(room := s.room - dead,
         deliveries := s.deliveries - {id},
         says := if dead == {} then s.says else s.says + multiset{Say(d.w, None)},
         relays := if d.publish then s.relays + ToAll(s.subscribed, d.w, d.exclude) else s.relays)
    case Lose(relay) => s.(relays := s.relays - multiset{relay})
    case LoseEvict(evict) => s.(evicts := s.evicts - multiset{evict})
  }

  /** The code passes `local_only=True` there. */
  function Next(s: Net, e: Step): Net
    requires Enabled(s, e)
  {
    NextWith(s, e, true)
  }

  /** A step that goes on with what is under way; nobody asks for anything new. */
  ghost predicate MovesWith(s: Net, s': Net, quiet: bool) {
    exists e: Step :: !e.Request? && Enabled(s, e) && s' == NextWith(s, e, quiet)
  }

  ghost predicate Moves(s: Net, s': Net) {
    MovesWith(s, s', true)
  }

  // ---- the measure ----

  /** Loops whose list names a socket that is registered no more: they may find it dead again. */
  function Stale(s: Net): set<nat> {
    set id | id in s.deliveries && !(s.deliveries[id].listed <= s.room)
  }

  function Current(s: Net, publish: bool): set<nat> {
    set id | id in s.deliveries && s.deliveries[id].listed <= s.room && s.deliveries[id].publish == publish
  }

  datatype Rank = Rank(a: nat, b: nat, c: nat, d: nat, e: nat, f: nat, g: nat, h: nat, i: nat)

  function RankOf(s: Net): Rank {
    Rank(|s.handlers|, |s.evicts|, |s.leaving|, |s.room|, |Stale(s)|, |s.says|, |Current(s, true)|, |s.relays|,
         |Current(s, false)|)
  }

  ghost predicate Below(r: Rank, q: Rank) {
    r.a < q.a || (r.a == q.a && (
    r.b < q.b || (r.b == q.b && (
    r.c < q.c || (r.c == q.c && (
    r.d < q.d || (r.d == q.d && (
    r.e < q.e || (r.e == q.e && (
    r.f < q.f || (r.f == q.f && (
    r.g < q.g || (r.g == q.g && (
    r.h < q.h || (r.h == q.h && r.i < q.i)))))))))))))))
  }

  lemma {:induction false} Fewer<T>(a: set<T>, b: set<T>)
    requires a <= b
    ensures |a| <= |b| && (a != b ==> |a| < |b|)
  {
    assert b == a + (b - a);
    if a != b {
      var x :| x in b - a;
      assert |b - a| > 0;
    }
  }

  lemma FinishLowersRank(s: Net, id: nat, dead: set<ConnId>)
    requires Enabled(s, Finish(id, dead))
    ensures Below(RankOf(Next(s, Finish(id, dead))), RankOf(s))
  {
    var s' := Next(s, Finish(id, dead));
    Fewer(s'.room, s.room);
    if s'.room == s.room {
      Fewer(Stale(s'), Stale(s));
      Fewer(Current(s', true), Current(s, true));
      Fewer(Current(s', false), Current(s, false));
      assert id !in Stale(s') && id !in Current(s', true) && id !in Current(s', false);
      if id in Stale(s) {
        assert Stale(s') != Stale(s);
      } else {
        assert dead <= s.room;
        assert dead == {};
        assert id in Current(s, s.deliveries[id].publish);
        assert Stale(s') == Stale(s);
        assert Current(s', !s.deliveries[id].publish) == Current(s, !s.deliveries[id].publish);
      }
    }
  }

  lemma StartLowersRank(s: Net, say: Say, id: nat)
    requires Enabled(s, StartSay(say, id))
    ensures Below(RankOf(Next(s, StartSay(say, id))), RankOf(s))
  {
    assert Stale(Next(s, StartSay(say, id))) == Stale(s);
  }

  lemma ReplayLowersRank(s: Net, relay: Relay, id: nat)
    requires Enabled(s, StartReplay(relay, id))
    ensures Below(RankOf(Next(s, StartReplay(relay, id))), RankOf(s))
  {
    var s' := Next(s, StartReplay(relay, id));
    assert Stale(s') == Stale(s) && Current(s', true) == Current(s, true);
  }

  lemma EndingLowersRank(s: Net, c: ConnId)
    requires Enabled(s, HandlerEnds(c))
    ensures Below(RankOf(Next(s, HandlerEnds(c))), RankOf(s))
  {
    Fewer(Next(s, HandlerEnds(c)).handlers, s.handlers);
  }

  lemma LeaveLowersRank(s: Net, c: ConnId)
    requires Enabled(s, DoLeave(c))
    ensures Below(RankOf(Next(s, DoLeave(c))), RankOf(s))
  {
    var s' := Next(s, DoLeave(c));
    assert s'.handlers == s.handlers && s'.evicts == s.evicts && s'.leaving == s.leaving - multiset{c};
  }

  lemma EvictLowersRank(s: Net, e: Step)
    requires e.HearEvict? || e.LoseEvict?
    requires Enabled(s, e)
    ensures Below(RankOf(Next(s, e)), RankOf(s))
  {
    var s' := Next(s, e);
    assert s'.handlers == s.handlers && s'.evicts == s.evicts - multiset{e.e};
  }

  lemma LossLowersRank(s: Net, relay: Relay)
    requires Enabled(s, Lose(relay))
    ensures Below(RankOf(Next(s, Lose(relay))), RankOf(s))
  {
    var s' := Next(s, Lose(relay));
    assert Stale(s') == Stale(s) && Current(s', true) == Current(s, true);
  }

  /** Each step lowers the rank: no message breeds more of what bred it unless a socket is gone for good. */
  lemma StepLowersRank(s: Net, e: Step)
    requires Enabled(s, e) && !e.Request?
    ensures Below(RankOf(Next(s, e)), RankOf(s))
  {
    match e
    case Finish(id, dead) => FinishLowersRank(s, id, dead);
    case StartSay(say, id) => StartLowersRank(s, say, id);
    case StartReplay(relay, id) => ReplayLowersRank(s, relay, id);
    case Lose(relay) => LossLowersRank(s, relay);
    case HandlerEnds(c) => EndingLowersRank(s, c);
    case DoLeave(c) => LeaveLowersRank(s, c);
    case HearEvict(_) => EvictLowersRank(s, e);
    case LoseEvict(_) => EvictLowersRank(s, e);
  }

  /** No cascade goes on for ever, whatever sockets die when and however the workers interleave: from any
      point of an endless sequence of states, one is soon not reached by a step. */
  lemma {:induction false} CascadeEnds(run: nat -> Net, i: nat)
    ensures exists j :: i <= j && !Moves(run(j), run(j + 1))
    decreases RankOf(run(i)).a, RankOf(run(i)).b, RankOf(run(i)).c, RankOf(run(i)).d, RankOf(run(i)).e,
              RankOf(run(i)).f, RankOf(run(i)).g, RankOf(run(i)).h, RankOf(run(i)).i
  {
    if Moves(run(i), run(i + 1)) {
      var e: Step :| !e.Request? && Enabled(run(i), e) && run(i + 1) == NextWith(run(i), e, true);
      StepLowersRank(run(i), e);
      CascadeEnds(run, i + 1);
    }
  }

  ghost predicate ValidRun(s: Net, es: seq<Step>)
    decreases |es|
  {
    es == [] || (Enabled(s, es[0]) && ValidRun(Next(s, es[0]), es[1..]))
  }

  ghost function Run(s: Net, es: seq<Step>): Net
    requires ValidRun(s, es)
    decreases |es|
  {
    if es == [] then s else Run(Next(s, es[0]), es[1..])
  }

  function Heard(es: seq<Step>): multiset<Evict> {
    if es == [] then multiset{}
    else (if es[0].HearEvict? then multiset{es[0].e} else multiset{}) + Heard(es[1..])
  }

  /** What the requests of a run publish: one revocation for each subscribed worker. */
  function Asked(workers: set<Worker>, es: seq<Step>): multiset<Evict> {
    if es == [] then multiset{}
    else (if es[0].Request? then EvictAll(workers, es[0].w, es[0].user) else multiset{}) + Asked(workers, es[1..])
  }

  lemma HeardIsGone(s: Net, evict: Evict)
    requires evict in s.evicts
    ensures Next(s, HearEvict(evict)).evicts == s.evicts - multiset{evict}
    ensures Next(s, HearEvict(evict)).subscribed == s.subscribed
  {
  }

  lemma RequestPublishes(s: Net, w: Worker, user: UserId)
    ensures Next(s, Request(w, user)).evicts == s.evicts + EvictAll(s.subscribed, w, user)
    ensures Next(s, Request(w, user)).subscribed == s.subscribed
  {
  }

  lemma OthersPublishNone(s: Net, e: Step)
    requires Enabled(s, e) && !e.HearEvict? && !e.Request?
    ensures Next(s, e).subscribed == s.subscribed && Next(s, e).evicts <= s.evicts
  {
    if !e.LoseEvict? { KeepsEvicts(s, e); }
  }

  lemma KeepsEvicts(s: Net, e: Step)
    requires Enabled(s, e) && !e.HearEvict? && !e.Request? && !e.LoseEvict?
    ensures Next(s, e).subscribed == s.subscribed && Next(s, e).evicts == s.evicts
  {
  }

  /** Over any run with requests, what the workers act on is among what was already waiting and one
      revocation per subscribed worker per request: hearing one never publishes another. */
  lemma {:induction false} EvictionsAreNotRepublished(s: Net, es: seq<Step>)
    requires ValidRun(s, es)
    ensures Heard(es) <= s.evicts + Asked(s.subscribed, es)
    decreases |es|
  {
    if es != [] {
      var e := es[0];
      if e.HearEvict? {
        HeardIsGone(s, e.e);
      } else if e.Request? {
        RequestPublishes(s, e.w, e.user);
      } else {
        OthersPublishNone(s, e);
      }
      EvictionsAreNotRepublished(Next(s, es[0]), es[1..]);
    }
  }

  // ---- what the flag is for ----

  /** Two subscribed workers and no socket at all; these revocations wait. */
  function Echoing(evicts: multiset<Evict>): Net {
    Net(map[], map[], {0, 1}, {}, {}, evicts, multiset{}, multiset{}, map[], multiset{})
  }

  function Pair(origin: Worker): multiset<Evict> {
    multiset{Evict(0, origin, 7)} + multiset{Evict(1, origin, 7)}
  }

  function Beat(k: nat): multiset<Evict> {
    if k == 0 then multiset{Evict(0, 1, 7)}
    else if k == 1 then Pair(0)
    else if k == 2 then multiset{Evict(1, 0, 7)}
    else Pair(1)
  }

  function Echo(n: nat): Net {
    Echoing(Beat(n % 4))
  }

  lemma EchoHears(s: Net, told: Evict, more: multiset<Evict>)
    requires s == Echoing(multiset{told} + more) && told.user == 7
    ensures MovesWith(s, Echoing(if told.origin == told.at then more
                                 else more + Pair(told.at)), false)
  {
    var s' := NextWith(s, HearEvict(told), false);
    assert (set w | w in {0, 1} :: Evict(w, told.at, 7)) == {Evict(0, told.at, 7), Evict(1, told.at, 7)};
    assert EvictAll({0, 1}, told.at, 7) == Pair(told.at);
    assert Sockets(s, told.at, 7) == {};
    assert s.evicts - multiset{told} == more;
    assert s' == Echoing(s'.evicts);
  }

  lemma BeatParts(k: nat) returns (told: Evict, more: multiset<Evict>)
    requires k < 4
    ensures told.user == 7 && Beat(k) == multiset{told} + more
    ensures Beat((k + 1) % 4) == if told.origin == told.at then more else more + Pair(told.at)
  {
    if k == 0 || k == 2 {
      told, more := Evict(if k == 0 then 0 else 1, if k == 0 then 1 else 0, 7), multiset{};
      assert more + Pair(told.at) == Pair(told.at);
    } else {
      told, more := Evict(if k == 1 then 0 else 1, if k == 1 then 0 else 1, 7),
        multiset{Evict(if k == 1 then 1 else 0, if k == 1 then 0 else 1, 7)};
    }
  }

  lemma BeatGoesOn(i: nat)
    ensures MovesWith(Echo(i), Echo(i + 1), false)
  {
    var told, more := BeatParts(i % 4);
    assert Echo(i) == Echoing(multiset{told} + more);
    NextBeat(i);
    EchoHears(Echo(i), told, more);
  }

  lemma NextBeat(i: nat)
    ensures Echo(i + 1) == Echoing(Beat((i % 4 + 1) % 4))
  {
    assert (i + 1) % 4 == (i % 4 + 1) % 4;
  }

  ghost predicate Endless(run: nat -> Net, quiet: bool) {
    forall i: nat :: MovesWith(run(i), run(i + 1), quiet)
  }

  /** Without the flag two workers answer each other's revocation for ever. */
  lemma WithoutTheFlagItNeverEnds()
    ensures Endless(Echo, false)
  {
    forall i: nat ensures MovesWith(Echo(i), Echo(i + 1), false) { BeatGoesOn(i); }
  }
}
