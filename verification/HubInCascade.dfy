/** One worker's hub inside a cascade: the deliveries, replays and departures of the class are runs of the machine
    whose cascades end, round by round, with every roster they cause and every copy they put on the bus. */
module HubInCascade {
  import opened Wrappers
  import D = Delivery
  import C = Cascade

  type Id = nat

  predicate OnWorker(t: C.Net, w: C.Worker, id: Id) {
    id in t.room && id in t.home && t.home[id] == w
  }

  /** The machine's worker w is this hub, as far as one project goes: the same sockets, of the same people. */
  ghost predicate Stands(s: D.HubState, p: Id, w: C.Worker, t: C.Net) {
    && (forall id: Id :: id in D.Ids(D.RoomIn(s.rooms, p)) <==> OnWorker(t, w, id))
    && (forall d :: d in D.RoomIn(s.rooms, p) ==> d.id in t.owner && t.owner[d.id] == d.user)
  }

  // ---- runs put together ----

  lemma {:induction false} Append(t: C.Net, es: seq<C.Step>, fs: seq<C.Step>)
    requires C.ValidRun(t, es) && C.ValidRun(C.Run(t, es), fs)
    ensures C.ValidRun(t, es + fs) && C.Run(t, es + fs) == C.Run(C.Run(t, es), fs)
    decreases |es|
  {
    if es == [] {
      assert es + fs == fs;
    } else {
      assert (es + fs)[1..] == es[1..] + fs;
      Append(C.Next(t, es[0]), es[1..], fs);
    }
  }

  lemma Prepend(t: C.Net, e: C.Step, es: seq<C.Step>)
    requires C.Enabled(t, e) && C.ValidRun(C.Next(t, e), es)
    ensures C.ValidRun(t, [e] + es) && C.Run(t, [e] + es) == C.Run(C.Next(t, e), es)
  {
    assert ([e] + es)[1..] == es;
  }

  lemma TwoSteps(t: C.Net, a: C.Step, b: C.Step)
    requires C.Enabled(t, a) && C.Enabled(C.Next(t, a), b)
    ensures C.ValidRun(t, [a, b]) && C.Run(t, [a, b]) == C.Next(C.Next(t, a), b)
  {
    var t1 := C.Next(t, a);
    assert [a, b][1..] == [b] && [b][1..] == [];
    assert C.ValidRun(C.Next(t1, b), []) && C.Run(C.Next(t1, b), []) == C.Next(t1, b);
    assert C.ValidRun(t1, [b]) && C.Run(t1, [b]) == C.Next(t1, b);
  }

  lemma Above(ids: set<nat>) returns (bound: nat)
    ensures forall id :: id in ids ==> id < bound
    decreases |ids|
  {
    if ids == {} {
      bound := 0;
    } else {
      var id :| id in ids;
      var rest := Above(ids - {id});
      bound := if rest > id then rest else id + 1;
      assert forall x :: x in ids ==> x == id || x in ids - {id};
    }
  }

  // ---- a delivery ----

  /** The copies that n rosters put on the bus. */
  function RosterRelays(workers: set<C.Worker>, w: C.Worker, n: nat): multiset<C.Relay> {
    if n == 0 then multiset{} else C.ToAll(workers, w, None) + RosterRelays(workers, w, n - 1)
  }

  /** One round: a loop starts on the sockets of w and finds these dead. */
  function AfterRound(t: C.Net, w: C.Worker, exclude: Option<Id>, lost: set<Id>, publish: bool): C.Net {
    t.(room := t.room - lost,
       says := if lost == {} then t.says else t.says + multiset{C.Say(w, None)},
       relays := if publish then t.relays + C.ToAll(t.subscribed, w, exclude) else t.relays)
  }

  lemma SayRound(t: C.Net, w: C.Worker, exclude: Option<Id>, lost: set<Id>) returns (es: seq<C.Step>)
    requires C.Say(w, exclude) in t.says && lost <= C.Walk(t, w, exclude)
    ensures C.ValidRun(t, es)
    ensures C.Run(t, es) == AfterRound(t.(says := t.says - multiset{C.Say(w, exclude)}), w, exclude, lost, true)
  {
    var id := Above(t.deliveries.Keys);
    var start, finish := C.StartSay(C.Say(w, exclude), id), C.Finish(id, lost);
    var t1 := C.Next(t, start);
    assert t1.deliveries - {id} == t.deliveries;
    TwoSteps(t, start, finish);
    es := [start, finish];
  }

  lemma ReplayRound(t: C.Net, relay: C.Relay, lost: set<Id>) returns (es: seq<C.Step>)
    requires relay in t.relays && relay.origin != relay.at && lost <= C.Walk(t, relay.at, relay.exclude)
    ensures C.ValidRun(t, es)
    ensures C.Run(t, es) ==
            AfterRound(t.(relays := t.relays - multiset{relay}), relay.at, relay.exclude, lost, false)
  {
    var id := Above(t.deliveries.Keys);
    var start, finish := C.StartReplay(relay, id), C.Finish(id, lost);
    var t1 := C.Next(t, start);
    assert t1.deliveries - {id} == t.deliveries;
    TwoSteps(t, start, finish);
    es := [start, finish];
  }

  lemma LostWalks(s: D.HubState, p: Id, w: C.Worker, t: C.Net, exclude: Option<Id>, dies: D.Script)
    requires Stands(s, p, w, t)
    ensures D.Lost(s, p, exclude, dies) <= C.Walk(t, w, exclude)
  {
    forall id | id in D.Lost(s, p, exclude, dies) ensures id in C.Walk(t, w, exclude) {
      assert id in D.Ids(D.RoomIn(s.rooms, p)) <==> OnWorker(t, w, id);
    }
  }

  lemma RoundStands(s: D.HubState, p: Id, w: C.Worker, t: C.Net, u: C.Net, m: D.Message, exclude: Option<Id>,
                    lost: set<Id>)
    requires Stands(s, p, w, t) && u.room == t.room - lost && u.home == t.home && u.owner == t.owner
    ensures Stands(D.Reaped(D.Offering(s, p, m, exclude, lost), true, p, lost), p, w, u)
  {
    var s' := D.Reaped(D.Offering(s, p, m, exclude, lost), true, p, lost);
    D.ReapedIds(D.Offering(s, p, m, exclude, lost), true, p, lost);
    forall id: Id ensures id in D.Ids(D.RoomIn(s'.rooms, p)) <==> OnWorker(u, w, id) {
      assert id in D.Ids(D.RoomIn(s.rooms, p)) <==> OnWorker(t, w, id);
    }
  }

  /** From t to u: nothing but sockets lost, this work done, and these copies put on the bus. */
  ghost predicate Settled(t: C.Net, u: C.Net, says: multiset<C.Say>, relays: multiset<C.Relay>, dead: set<Id>) {
    u == t.(room := t.room - dead, says := says, relays := relays)
  }

  lemma DeadAdds(t: C.Net, t1: C.Net, u: C.Net, says: multiset<C.Say>, relays: multiset<C.Relay>, lost: set<Id>,
                 more: set<Id>)
    requires t1 == t.(room := t.room - lost, says := t1.says, relays := t1.relays) && Settled(t1, u, says, relays, more)
    ensures Settled(t, u, says, relays, lost + more)
  {
    assert t.room - lost - more == t.room - (lost + more);
  }

  /** Every broadcast of the hub, whatever sends fail, is a run: the broadcast is done, its dead have left, and
      its copy and one for each roster are on the bus for every subscribed worker. */
  lemma CastRuns(s: D.HubState, p: Id, m: D.Message, exclude: Option<Id>, dies: D.Script, w: C.Worker, t: C.Net)
      returns (es: seq<C.Step>)
    requires Stands(s, p, w, t) && C.Say(w, exclude) in t.says
    ensures C.ValidRun(t, es)
    ensures var d, u := D.Cast(s, true, p, m, exclude, dies), C.Run(t, es);
            && Stands(d.state, p, w, u)
            && Settled(t, u, t.says - multiset{C.Say(w, exclude)},
                       t.relays + C.ToAll(t.subscribed, w, exclude) + RosterRelays(t.subscribed, w, |d.rosters|),
                           d.dead)
    decreases |dies|
  {
    var lost := D.Lost(s, p, exclude, dies);
    LostWalks(s, p, w, t, exclude, dies);
    es := SayRound(t, w, exclude, lost);
    var t1 := C.Run(t, es);
    RoundStands(s, p, w, t, t1, m, exclude, lost);
    if lost != {} {
      var reaped := D.Reaped(D.Offering(s, p, m, exclude, lost), true, p, lost);
      var roster := D.Presence(D.SnapshotOf(reaped, true, p));
      var rest := CastRuns(reaped, p, roster, None, dies[1..], w, t1);
      Append(t, es, rest);
      es := es + rest;
      CastUnfolds(s, p, m, exclude, dies);
      var more := D.Cast(reaped, true, p, roster, None, dies[1..]);
      RestSettles(t, t1, C.Run(t, es), w, exclude, lost, more.dead, |more.rosters|);
    } else {
      assert t1.room == t.room - {};
    }
  }

  lemma CastUnfolds(s: D.HubState, p: Id, m: D.Message, exclude: Option<Id>, dies: D.Script)
    requires D.Lost(s, p, exclude, dies) != {}
    ensures var lost := D.Lost(s, p, exclude, dies);
            var reaped := D.Reaped(D.Offering(s, p, m, exclude, lost), true, p, lost);
            var rest := D.Cast(reaped, true, p, D.Presence(D.SnapshotOf(reaped, true, p)), None, dies[1..]);
            var d, c := D.Deliver(s, true, p, m, exclude, dies), D.Cast(s, true, p, m, exclude, dies);
            && d.state == rest.state && d.dead == lost + rest.dead && |d.rosters| == |rest.rosters| + 1
            && c.dead == d.dead && c.rosters == d.rosters && c.state.rooms == d.state.rooms
  {
  }

  lemma RestSettles(t: C.Net, t1: C.Net, u: C.Net, w: C.Worker, exclude: Option<Id>, lost: set<Id>, more: set<Id>,
                    n: nat)
    requires C.Say(w, exclude) in t.says && lost != {}
    requires t1 == AfterRound(t.(says := t.says - multiset{C.Say(w, exclude)}), w, exclude, lost, true)
    requires Settled(t1, u, t1.says - multiset{C.Say(w, None)},
                     t1.relays + C.ToAll(t.subscribed, w, None) + RosterRelays(t.subscribed, w, n), more)
    ensures Settled(t, u, t.says - multiset{C.Say(w, exclude)},
                    t.relays + C.ToAll(t.subscribed, w, exclude) + RosterRelays(t.subscribed, w, n + 1), lost + more)
  {
    DeadAdds(t, t1, u, u.says, u.relays, lost, more);
    assert t1.says - multiset{C.Say(w, None)} == t.says - multiset{C.Say(w, exclude)};
  }

  lemma ReplaySettles(t: C.Net, t1: C.Net, u: C.Net, relay: C.Relay, lost: set<Id>, more: set<Id>, n: nat)
    requires relay in t.relays && lost != {}
    requires t1 == AfterRound(t.(relays := t.relays - multiset{relay}), relay.at, relay.exclude, lost, false)
    requires Settled(t1, u, t1.says - multiset{C.Say(relay.at, None)},
                     t1.relays + C.ToAll(t.subscribed, relay.at, None) + RosterRelays(t.subscribed, relay.at, n), more)
    ensures Settled(t, u, t.says, t.relays - multiset{relay} + RosterRelays(t.subscribed, relay.at, n + 1), lost + more)
  {
    DeadAdds(t, t1, u, u.says, u.relays, lost, more);
    assert t1.says - multiset{C.Say(relay.at, None)} == t.says;
  }

  /** So is the replay of another worker's broadcast, which puts only its rosters on the bus. */
  lemma ReplayRuns(s: D.HubState, p: Id, m: D.Message, dies: D.Script, relay: C.Relay, t: C.Net)
      returns (es: seq<C.Step>)
    requires Stands(s, p, relay.at, t) && relay in t.relays && relay.origin != relay.at
    ensures C.ValidRun(t, es)
    ensures var d, u := D.Deliver(s, true, p, m, relay.exclude, dies), C.Run(t, es);
            && Stands(d.state, p, relay.at, u)
            && Settled(t, u, t.says,
                       t.relays - multiset{relay} + RosterRelays(t.subscribed, relay.at, |d.rosters|), d.dead)
  {
    var w, exclude := relay.at, relay.exclude;
    var lost := D.Lost(s, p, exclude, dies);
    LostWalks(s, p, w, t, exclude, dies);
    es := ReplayRound(t, relay, lost);
    var t1 := C.Run(t, es);
    RoundStands(s, p, w, t, t1, m, exclude, lost);
    if lost != {} {
      var reaped := D.Reaped(D.Offering(s, p, m, exclude, lost), true, p, lost);
      var roster := D.Presence(D.SnapshotOf(reaped, true, p));
      var rest := CastRuns(reaped, p, roster, None, dies[1..], w, t1);
      Append(t, es, rest);
      es := es + rest;
      CastUnfolds(s, p, m, exclude, dies);
      var more := D.Cast(reaped, true, p, roster, None, dies[1..]);
      ReplaySettles(t, t1, C.Run(t, es), relay, lost, more.dead, |more.rosters|);
    } else {
      assert t1.room == t.room - {};
    }
  }

  // ---- leaving ----

  lemma StrikingStands(s: D.HubState, c: D.Connection, w: C.Worker, t: C.Net)
    requires Stands(s, c.project, w, t)
    ensures Stands(D.Reaped(s, true, c.project, {c.id}), c.project, w, t.(room := t.room - {c.id}))
  {
    D.ReapedIds(s, true, c.project, {c.id});
    var s', t' := D.Reaped(s, true, c.project, {c.id}), t.(room := t.room - {c.id});
    forall id: Id ensures id in D.Ids(D.RoomIn(s'.rooms, c.project)) <==> OnWorker(t', w, id) {
      assert id in D.Ids(D.RoomIn(s.rooms, c.project)) <==> OnWorker(t, w, id);
    }
  }

  /** And a departure: the socket is out, and both notices have been broadcast. */
  lemma LeaveRuns(s: D.HubState, c: D.Connection, dies: (D.Script, D.Script), w: C.Worker, t: C.Net)
      returns (es: seq<C.Step>)
    requires Stands(s, c.project, w, t) && c.id in t.leaving && c.id in t.home && t.home[c.id] == w
    ensures C.ValidRun(t, es)
    ensures var a, u := D.Leaving(s, true, c, dies), C.Run(t, es);
            && Stands(a.state, c.project, w, u) && u.says == t.says && u.leaving == t.leaving - multiset{c.id}
            && u.room == t.room - ({c.id} + a.first.dead + a.second.dead)
            && u.handlers == t.handlers && u.evicts == t.evicts && u.deliveries == t.deliveries
  {
    var p, say := c.project, C.Say(w, Some(c.id));
    var e := C.DoLeave(c.id);
    var t1 := C.Next(t, e);
    StrikingStands(s, c, w, t);
    var struck := D.Reaped(s, true, p, {c.id});
    DepartureSays(t.says, say);
    assert t1.says == t.says + multiset{say, say};
    var first := CastRuns(struck, p, D.MemberLeft(D.Describe(c)), Some(c.id), dies.0, w, t1);
    var t2 := C.Run(t1, first);
    assert t2.says == t.says + multiset{say};
    var a := D.Leaving(s, true, c, dies);
    assert a.first == D.Cast(struck, true, p, D.MemberLeft(D.Describe(c)), Some(c.id), dies.0);
    var second := CastRuns(a.first.state, p, D.Presence(a.members), Some(c.id), dies.1, w, t2);
    Append(t1, first, second);
    Prepend(t, e, first + second);
    es := [e] + (first + second);
    var u := C.Run(t2, second);
    BothDead(t, t1, t2, u, c.id, a.first.dead, a.second.dead);
  }

  lemma DepartureSays(says: multiset<C.Say>, say: C.Say)
    ensures says + multiset{say, say} - multiset{say} == says + multiset{say}
    ensures says + multiset{say} - multiset{say} == says
  {
  }

  lemma BothDead(t: C.Net, t1: C.Net, t2: C.Net, u: C.Net, c: Id, first: set<Id>, second: set<Id>)
    requires t1.room == t.room - {c} && t2.room == t1.room - first && u.room == t2.room - second
    ensures u.room == t.room - ({c} + first + second)
  {
  }

  ghost predicate InRoomOf(s: D.HubState, p: Id, user: Id, c: Id) {
    exists d :: d in D.RoomIn(s.rooms, p) && d.id == c && d.user == user
  }

  /** Hearing a revocation lists for departure exactly that person's sockets in this worker's room. */
  lemma HearingLists(s: D.HubState, p: Id, evict: C.Evict, t: C.Net, c: Id)
    requires Stands(s, p, evict.at, t) && evict in t.evicts && evict.origin != evict.at
    ensures C.Next(t, C.HearEvict(evict)).leaving[c] ==
            t.leaving[c] + if InRoomOf(s, p, evict.user, c) then 1 else 0
  {
    var room := D.RoomIn(s.rooms, p);
    assert c in D.Ids(room) <==> OnWorker(t, evict.at, c);
    if c in C.Sockets(t, evict.at, evict.user) {
      var i :| 0 <= i < |room| && room[i].id == c;
      assert room[i] in room;
    }
    if d :| d in room && d.id == c && d.user == evict.user {
      var i :| 0 <= i < |room| && room[i] == d;
      assert c in D.Ids(room);
    }
  }
}
