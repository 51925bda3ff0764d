/** What one worker's hub does to its rooms, the presence hash, the sockets and the bus, as functions of
    which sockets turn out dead; and what those functions promise. `Hub` has the methods. */
module Delivery {
  import opened Wrappers
  import opened Rosters

  datatype Connection = Connection(id: ConnId, user: UserId, project: ProjectId, labels: int)

  datatype Message =
    | Presence(members: seq<Person>)
    | MemberJoined(who: Entry)
    | MemberLeft(who: Entry)
    | Payload(body: int)

  /** What this worker puts on the bus of a project. */
  datatype BusMessage =
    | Relay(project: ProjectId, exclude: Option<ConnId>, message: Message)
    | AccessRevoked(project: ProjectId, user: UserId)

  function Describe(c: Connection): Entry {
    Entry(c.user, c.id, c.labels)
  }

  function Describes(room: seq<Connection>): (es: seq<Entry>)
    ensures |es| == |room| && forall i :: 0 <= i < |room| ==> es[i] == Describe(room[i])
  {
    seq(|room|, i requires 0 <= i < |room| => Describe(room[i]))
  }

  function Ids(room: seq<Connection>): set<ConnId> {
    set i | 0 <= i < |room| :: room[i].id
  }

  /** A room keeps the order its sockets joined in, each id once. */
  ghost predicate Distinct(room: seq<Connection>) {
    forall i, j :: 0 <= i < j < |room| ==> room[i].id != room[j].id
  }

  function Without(room: seq<Connection>, gone: set<ConnId>): (r: seq<Connection>)
    ensures |r| <= |room|
    ensures forall c :: c in r <==> c in room && c.id !in gone
  {
    if room == [] then []
    else
      var rest := Without(room[..|room| - 1], gone);
      if room[|room| - 1].id in gone then rest else rest + [room[|room| - 1]]
  }

  function DropEntries(entries: seq<Entry>, gone: set<ConnId>): (r: seq<Entry>)
    ensures forall e :: e in r <==> e in entries && e.connection !in gone
  {
    if entries == [] then []
    else
      var rest := DropEntries(entries[..|entries| - 1], gone);
      if entries[|entries| - 1].connection in gone then rest else rest + [entries[|entries| - 1]]
  }

  lemma {:induction false} WithoutTwice(room: seq<Connection>, a: set<ConnId>, b: set<ConnId>)
    ensures Without(Without(room, a), b) == Without(room, a + b)
  {
    if room != [] {
      var init, last := room[..|room| - 1], room[|room| - 1];
      WithoutTwice(init, a, b);
      if last.id !in a {
        assert (Without(init, a) + [last])[..|Without(init, a)|] == Without(init, a);
      }
    }
  }

  lemma {:induction false} WithoutDistinct(room: seq<Connection>, a: set<ConnId>)
    requires Distinct(room)
    ensures Distinct(Without(room, a))
  {
    if room != [] {
      var init, last := room[..|room| - 1], room[|room| - 1];
      WithoutDistinct(init, a);
      forall i | 0 <= i < |Without(init, a)| ensures Without(init, a)[i].id != last.id {
        assert Without(init, a)[i] in init;
      }
    }
  }

  lemma {:induction false} WithoutNobody(room: seq<Connection>, a: set<ConnId>)
    requires Ids(room) !! a
    ensures Without(room, a) == room
  {
    if room != [] {
      var init, last := room[..|room| - 1], room[|room| - 1];
      assert last.id in Ids(room);
      assert Ids(init) <= Ids(room) by {
        forall x | x in Ids(init) ensures x in Ids(room) {
          var i :| 0 <= i < |init| && init[i].id == x;
          assert room[i].id == x;
        }
      }
      WithoutNobody(init, a);
    }
  }

  lemma WithoutIds(room: seq<Connection>, a: set<ConnId>)
    ensures Ids(Without(room, a)) == Ids(room) - a
  {
    var r := Without(room, a);
    forall x ensures x in Ids(r) <==> x in Ids(room) - a {
      if x in Ids(r) {
        var i :| 0 <= i < |r| && r[i].id == x;
        assert r[i] in room;
      }
      if x in Ids(room) - a {
        var i :| 0 <= i < |room| && room[i].id == x;
        assert room[i] in r;
      }
    }
  }

  lemma {:induction false} WithoutShrinks(room: seq<Connection>, c: Connection, a: set<ConnId>)
    requires c in room && c.id in a
    ensures |Without(room, a)| < |room|
  {
    var init, last := room[..|room| - 1], room[|room| - 1];
    if last.id !in a {
      assert c in init;
      WithoutShrinks(init, c, a);
    }
  }

  lemma {:induction false} DropLaws(entries: seq<Entry>, a: set<ConnId>, b: set<ConnId>)
    ensures DropEntries(DropEntries(entries, a), b) == DropEntries(entries, a + b)
    ensures DropEntries(entries, {}) == entries
  {
    if entries != [] {
      var init, last := entries[..|entries| - 1], entries[|entries| - 1];
      DropLaws(init, a, b);
      assert entries == init + [last];
      if last.connection !in a {
        assert (DropEntries(init, a) + [last])[..|DropEntries(init, a)|] == DropEntries(init, a);
      }
    }
  }

  type Rooms = map<ProjectId, seq<Connection>>
  type Hash = map<ProjectId, seq<Entry>>

  /** The shared hash once these sockets' entries have been deleted. */
  function ForgetAll(hash: Hash, p: ProjectId, gone: set<ConnId>): Hash {
    if p in hash then hash[p := DropEntries(hash[p], gone)] else hash
  }

  lemma ForgetTwice(hash: Hash, p: ProjectId, a: set<ConnId>, b: set<ConnId>)
    ensures ForgetAll(ForgetAll(hash, p, a), p, b) == ForgetAll(hash, p, a + b)
    ensures ForgetAll(hash, p, {}) == hash
  {
    if p in hash {
      DropLaws(hash[p], a, b);
    }
  }

  function RoomIn(rooms: Rooms, p: ProjectId): seq<Connection> {
    if p in rooms then rooms[p] else []
  }

  /** The rooms once these sockets have been popped; an emptied room is not kept. */
  function PopRoom(rooms: Rooms, p: ProjectId, gone: set<ConnId>): Rooms {
    if p !in rooms then rooms
    else
      var rest := Without(rooms[p], gone);
      if rest == [] then rooms - {p} else rooms[p := rest]
  }

  lemma PopTwice(rooms: Rooms, p: ProjectId, a: set<ConnId>, b: set<ConnId>)
    ensures PopRoom(PopRoom(rooms, p, a), p, b) == PopRoom(rooms, p, a + b)
  {
    if p in rooms {
      WithoutTwice(rooms[p], a, b);
    }
  }

  function Notices(rosters: seq<seq<Person>>): (ms: seq<Message>)
    ensures |ms| == |rosters| && forall i :: 0 <= i < |rosters| ==> ms[i] == Presence(rosters[i])
  {
    seq(|rosters|, i requires 0 <= i < |rosters| => Presence(rosters[i]))
  }

  /** The bus copies of nested rosters: the innermost, newest one is published first. */
  function Relayed(p: ProjectId, rosters: seq<seq<Person>>): (ms: seq<BusMessage>)
    ensures |ms| == |rosters|
    ensures forall i :: 0 <= i < |rosters| ==> ms[i] == Relay(p, None, Presence(rosters[|rosters| - 1 - i]))
  {
    seq(|rosters|, i requires 0 <= i < |rosters| => Relay(p, None, Presence(rosters[|rosters| - 1 - i])))
  }

  /** Everything a hub holds, as a value. `subscribed` are the projects whose channel it listens to. */
  datatype HubState = HubState(rooms: Rooms, hash: Hash, received: map<ConnId, seq<Message>>,
                               published: seq<BusMessage>, subscribed: set<ProjectId>)

  /** Every stored room's channel is listened to. */
  ghost predicate Listening(s: HubState, redis: bool) {
    redis ==> s.rooms.Keys <= s.subscribed
  }

  ghost predicate Sound(s: HubState) {
    && (forall p :: p in s.rooms ==> s.rooms[p] != [] && Distinct(s.rooms[p]))
    && (forall p, i :: p in s.rooms && 0 <= i < |s.rooms[p]| ==>
          s.rooms[p][i].project == p && s.rooms[p][i].id in s.received)
  }

  /** `presence_snapshot`: the shared hash with Redis, this worker's room without. */
  function SnapshotOf(s: HubState, redis: bool, p: ProjectId): seq<Person> {
    Collapse(if redis then (if p in s.hash then s.hash[p] else []) else Describes(RoomIn(s.rooms, p)))
  }

  /** Who was removed and what was broadcast about it. `dead` is exactly who was removed; reaping costs
      one roster per nested round and at most one round per dead socket; and the last roster is the
      room as it now is. */
  ghost predicate Removed(s: HubState, s': HubState, redis: bool, p: ProjectId, dead: set<ConnId>,
                          rosters: seq<seq<Person>>) {
    && dead <= Ids(RoomIn(s.rooms, p))
    && s'.rooms == PopRoom(s.rooms, p, dead)
    && s'.hash == (if redis then ForgetAll(s.hash, p, dead) else s.hash)
    && (rosters == [] <==> dead == {}) && |rosters| <= |dead|
    && (rosters != [] ==> rosters[|rosters| - 1] == SnapshotOf(s', redis, p))
  }

  /** What the sockets were sent: each survivor the frame once (the excluded one not at all) and then
      every roster; sockets of other rooms nothing. */
  ghost predicate Told(s: HubState, s': HubState, p: ProjectId, m: Message, exclude: Option<ConnId>,
                       rosters: seq<seq<Person>>) {
    && s'.received.Keys == s.received.Keys
    && (forall c :: c in RoomIn(s'.rooms, p) && c.id in s.received ==>
          s'.received[c.id] == s.received[c.id] + (if Some(c.id) == exclude then [] else [m]) + Notices(rosters))
    && (forall id :: id in s.received && id !in Ids(RoomIn(s.rooms, p)) ==> s'.received[id] == s.received[id])
  }

  /** First half of a delivery: every socket but the excluded one is offered the frame once. The lost ones,
      whose send fails, do not get it. */
  function Offering(s: HubState, p: ProjectId, m: Message, exclude: Option<ConnId>, lost: set<ConnId>): HubState {
    s.(received := map id | id in s.received ::
         if id in Ids(RoomIn(s.rooms, p)) && id !in lost && Some(id) != exclude
         then s.received[id] + [m] else s.received[id])
  }

  /** The first half of a delivery, i sockets in: who has had the frame, and who was lost. */
  ghost predicate OfferedUpTo(was: map<ConnId, seq<Message>>, got: map<ConnId, seq<Message>>, room: seq<Connection>,
                              i: nat, m: Message, exclude: Option<ConnId>, lost: seq<Connection>)
    requires i <= |room|
  {
    && got.Keys == was.Keys && Distinct(lost) && (forall c :: c in lost ==> c in room[..i] && Some(c.id) != exclude)
    && (forall k :: 0 <= k < i && room[k] !in lost && room[k].id in was ==>
          got[room[k].id] == was[room[k].id] + if Some(room[k].id) == exclude then [] else [m])
    && (forall c :: c in lost && c.id in was ==> got[c.id] == was[c.id])
    && (forall k :: i <= k < |room| && room[k].id in was ==> got[room[k].id] == was[room[k].id])
    && (forall id :: id in was && id !in Ids(room) ==> got[id] == was[id])
  }

  lemma OfferNext(was: map<ConnId, seq<Message>>, got: map<ConnId, seq<Message>>, room: seq<Connection>, i: nat,
                  m: Message, exclude: Option<ConnId>, lost: seq<Connection>)
    requires Distinct(room) && i < |room| && room[i].id in was && OfferedUpTo(was, got, room, i, m, exclude, lost)
    ensures Some(room[i].id) == exclude ==> OfferedUpTo(was, got, room, i + 1, m, exclude, lost)
    ensures Some(room[i].id) != exclude ==>
              && OfferedUpTo(was, got, room, i + 1, m, exclude, lost + [room[i]])
              && OfferedUpTo(was, got[room[i].id := got[room[i].id] + [m]], room, i + 1, m, exclude, lost)
  {
    assert room[..i + 1] == room[..i] + [room[i]];
    assert room[i].id in Ids(room);
    assert forall c :: c in room[..i] ==> c.id != room[i].id;
    assert forall c :: c in lost ==> c.id != room[i].id;
    if Some(room[i].id) != exclude {
      OfferLost(was, got, room, i, m, exclude, lost);
      OfferTaken(was, got, room, i, m, exclude, lost);
    }
  }

  lemma OfferLost(was: map<ConnId, seq<Message>>, got: map<ConnId, seq<Message>>, room: seq<Connection>, i: nat,
                  m: Message, exclude: Option<ConnId>, lost: seq<Connection>)
    requires Distinct(room) && i < |room| && room[i].id in was && OfferedUpTo(was, got, room, i, m, exclude, lost)
    requires Some(room[i].id) != exclude && forall c :: c in lost ==> c.id != room[i].id
    requires room[..i + 1] == room[..i] + [room[i]]
    ensures OfferedUpTo(was, got, room, i + 1, m, exclude, lost + [room[i]])
  {
  }

  lemma OfferTaken(was: map<ConnId, seq<Message>>, got: map<ConnId, seq<Message>>, room: seq<Connection>, i: nat,
                   m: Message, exclude: Option<ConnId>, lost: seq<Connection>)
    requires Distinct(room) && i < |room| && room[i].id in was && OfferedUpTo(was, got, room, i, m, exclude, lost)
    requires Some(room[i].id) != exclude && forall c :: c in lost ==> c.id != room[i].id
    requires room[..i + 1] == room[..i] + [room[i]] && room[i].id in Ids(room)
    ensures OfferedUpTo(was, got[room[i].id := got[room[i].id] + [m]], room, i + 1, m, exclude, lost)
  {
  }

  lemma OfferedAll(s: HubState, got: map<ConnId, seq<Message>>, p: ProjectId, m: Message, exclude: Option<ConnId>,
                   lost: seq<Connection>)
    requires OfferedUpTo(s.received, got, RoomIn(s.rooms, p), |RoomIn(s.rooms, p)|, m, exclude, lost)
    ensures s.(received := got) == Offering(s, p, m, exclude, Ids(lost))
  {
    var room, want := RoomIn(s.rooms, p), Offering(s, p, m, exclude, Ids(lost)).received;
    forall id | id in got ensures got[id] == want[id] {
      if id in Ids(lost) {
        var j :| 0 <= j < |lost| && lost[j].id == id;
        assert lost[j] in lost;
      } else if id in Ids(room) {
        var k :| 0 <= k < |room| && room[k].id == id;
        assert room[k] in lost ==> id in Ids(lost) by { LostIds(room, lost); }
      }
    }
    assert got == want;
  }

  function Reaped(s: HubState, redis: bool, p: ProjectId, gone: set<ConnId>): HubState {
    s.(rooms := PopRoom(s.rooms, p, gone), hash := if redis then ForgetAll(s.hash, p, gone) else s.hash)
  }

  lemma ReapNobody(s: HubState, redis: bool, p: ProjectId)
    requires Sound(s)
    ensures Reaped(s, redis, p, {}) == s
  {
    ForgetTwice(s.hash, p, {}, {});
    if p in s.rooms { WithoutNobody(s.rooms[p], {}); }
  }

  lemma ReapedIds(s: HubState, redis: bool, p: ProjectId, gone: set<ConnId>)
    ensures Ids(RoomIn(Reaped(s, redis, p, gone).rooms, p)) == Ids(RoomIn(s.rooms, p)) - gone
    ensures forall c :: c in RoomIn(Reaped(s, redis, p, gone).rooms, p) ==> c in RoomIn(s.rooms, p) && c.id !in gone
  {
    if p in s.rooms { WithoutIds(s.rooms[p], gone); }
  }

  lemma ReapTwice(s: HubState, redis: bool, p: ProjectId, a: set<ConnId>, b: set<ConnId>)
    ensures Reaped(Reaped(s, redis, p, a), redis, p, b) == Reaped(s, redis, p, a + b)
  {
    PopTwice(s.rooms, p, a, b);
    ForgetTwice(s.hash, p, a, b);
  }

  lemma LostIds(room: seq<Connection>, lost: seq<Connection>)
    requires forall c :: c in lost ==> c in room
    ensures Ids(lost) <= Ids(room)
    ensures forall c :: c in lost ==> c.id in Ids(lost)
    ensures |lost| > 0 ==> Ids(lost) != {}
  {
    forall x | x in Ids(lost) ensures x in Ids(room) {
      var i :| 0 <= i < |lost| && lost[i].id == x;
      assert lost[i] in room;
      var j :| 0 <= j < |room| && room[j] == lost[i];
    }
    if |lost| > 0 { assert lost[0].id in Ids(lost); }
  }

  lemma QuietDelivery(s: HubState, redis: bool, p: ProjectId, m: Message, exclude: Option<ConnId>)
    requires Sound(s)
    ensures var s' := Reaped(Offering(s, p, m, exclude, {}), redis, p, {});
            Removed(s, s', redis, p, {}, []) && Told(s, s', p, m, exclude, []) && s' == Offering(s, p, m, exclude, {})
  {
    ReapNobody(s, redis, p);
    ReapNobody(Offering(s, p, m, exclude, {}), redis, p);
    assert Notices([]) == [];
  }

  lemma Survivor(s: HubState, redis: bool, p: ProjectId, gone: set<ConnId>, c: Connection)
    requires c in RoomIn(Reaped(s, redis, p, gone).rooms, p)
    ensures c in RoomIn(s.rooms, p) && c.id !in gone
  {
  }

  /** What a survivor was offered first and then told by the nested broadcast, put together. */
  lemma ReceivedTwice(was: seq<Message>, mid: seq<Message>, end: seq<Message>, sent: seq<Message>,
                      first: seq<Person>, nested: seq<seq<Person>>)
    requires mid == was + sent && end == mid + [Presence(first)] + Notices(nested)
    ensures end == was + sent + Notices([first] + nested)
  {
    assert Notices([first] + nested) == [Presence(first)] + Notices(nested);
  }

  lemma NestedRooms(s: HubState, s1: HubState, s': HubState, redis: bool, p: ProjectId, lost: set<ConnId>,
                    more: set<ConnId>)
    requires s1 == s.(received := s1.received) && lost <= Ids(RoomIn(s.rooms, p))
    requires more <= Ids(RoomIn(Reaped(s1, redis, p, lost).rooms, p))
    requires SameRooms(s', Reaped(Reaped(s1, redis, p, lost), redis, p, more))
    ensures SameRooms(s', Reaped(s, redis, p, lost + more)) && lost + more <= Ids(RoomIn(s.rooms, p)) && lost !! more
  {
    ReapedIds(s1, redis, p, lost);
    ReapTwice(s1, redis, p, lost, more);
  }

  lemma Apart(a: set<ConnId>, b: set<ConnId>)
    requires a !! b
    ensures |a + b| == |a| + |b|
  {
  }

  lemma SnapshotFollows(s: HubState, t: HubState, redis: bool, p: ProjectId)
    requires SameRooms(s, t)
    ensures SnapshotOf(s, redis, p) == SnapshotOf(t, redis, p)
  {
  }

  /** A round that lost sockets and the roster broadcast it caused, put together: who was removed. */
  lemma NestedRemoved(s: HubState, s1: HubState, s': HubState, redis: bool, p: ProjectId, lost: set<ConnId>,
                      first: seq<Person>, more: set<ConnId>, nested: seq<seq<Person>>)
    requires Sound(s) && s1 == s.(received := s1.received) && s1.received.Keys == s.received.Keys
    requires lost != {} && lost <= Ids(RoomIn(s.rooms, p))
    requires first == SnapshotOf(Reaped(s1, redis, p, lost), redis, p)
    requires Removed(Reaped(s1, redis, p, lost), s', redis, p, more, nested)
    ensures Removed(s, s', redis, p, lost + more, [first] + nested)
  {
    var s2 := Reaped(s1, redis, p, lost);
    NestedRooms(s, s1, s', redis, p, lost, more);
    Apart(lost, more);
    var rosters := [first] + nested;
    if nested == [] {
      SoundReaped(s, s1, redis, p, lost);
      ReapNobody(s2, redis, p);
      SnapshotFollows(s', s2, redis, p);
      assert rosters[|rosters| - 1] == SnapshotOf(s', redis, p);
    } else {
      assert rosters[|rosters| - 1] == nested[|nested| - 1];
    }
  }

  lemma NestedTold(s: HubState, s1: HubState, s': HubState, redis: bool, p: ProjectId, m: Message,
                   exclude: Option<ConnId>, lost: set<ConnId>, first: seq<Person>, more: set<ConnId>,
                   nested: seq<seq<Person>>)
    requires s1 == Offering(s, p, m, exclude, lost)
    requires s'.rooms == Reaped(Reaped(s1, redis, p, lost), redis, p, more).rooms
    requires Told(Reaped(s1, redis, p, lost), s', p, Presence(first), None, nested)
    ensures Told(s, s', p, m, exclude, [first] + nested)
  {
    var s2 := Reaped(s1, redis, p, lost);
    ReapedIds(s1, redis, p, lost);
    forall c | c in RoomIn(s'.rooms, p) && c.id in s.received
      ensures s'.received[c.id] ==
              s.received[c.id] + (if Some(c.id) == exclude then [] else [m]) + Notices([first] + nested)
    {
      Survivor(s2, redis, p, more, c);
      Survivor(s1, redis, p, lost, c);
      ReceivedTwice(s.received[c.id], s1.received[c.id], s'.received[c.id],
                    if Some(c.id) == exclude then [] else [m], first, nested);
    }
  }

  lemma SoundReaped(s: HubState, s1: HubState, redis: bool, p: ProjectId, gone: set<ConnId>)
    requires Sound(s) && s1 == s.(received := s1.received) && s1.received.Keys == s.received.Keys
    ensures Sound(Reaped(s1, redis, p, gone))
  {
    if p in s.rooms {
      WithoutDistinct(s.rooms[p], gone);
      assert forall i :: 0 <= i < |Without(s.rooms[p], gone)| ==> Without(s.rooms[p], gone)[i] in s.rooms[p];
    }
  }

  lemma RelayedCons(p: ProjectId, first: seq<Person>, nested: seq<seq<Person>>)
    ensures Relayed(p, [first] + nested) == Relayed(p, nested) + [Relay(p, None, Presence(first))]
    ensures Relayed(p, []) == []
  {
  }

  // ---- a delivery, given who turns out dead ----

  /** Which sends fail, round by round; after the last round named, none. */
  type Script = seq<set<ConnId>>

  datatype Delivered = Delivered(state: HubState, dead: set<ConnId>, rosters: seq<seq<Person>>)

  /** The sockets the first round of a delivery loses. */
  function Lost(s: HubState, p: ProjectId, exclude: Option<ConnId>, dies: Script): (lost: set<ConnId>)
    ensures lost <= Ids(RoomIn(s.rooms, p))
  {
    if dies == [] then {} else set id | id in Ids(RoomIn(s.rooms, p)) && Some(id) != exclude && id in dies[0]
  }

  lemma LostFirst(s: HubState, p: ProjectId, exclude: Option<ConnId>, lost: set<ConnId>, rest: Script)
    requires lost <= Ids(RoomIn(s.rooms, p)) && forall id :: id in lost ==> Some(id) != exclude
    ensures Lost(s, p, exclude, [lost] + rest) == lost
  {
  }

  function OnBus(s: HubState, redis: bool, m: BusMessage): HubState {
    if redis then s.(published := s.published + [m]) else s
  }

  /** `_deliver_local`: offer, reap, and if anyone was reaped broadcast one roster, which does the same. */
  function Deliver(s: HubState, redis: bool, p: ProjectId, m: Message, exclude: Option<ConnId>, dies: Script): Delivered
    decreases |dies|, 0
  {
    var lost := Lost(s, p, exclude, dies);
    var reaped := Reaped(Offering(s, p, m, exclude, lost), redis, p, lost);
    if lost == {} then Delivered(reaped, {}, [])
    else
      var roster := SnapshotOf(reaped, redis, p);
      var rest := Cast(reaped, redis, p, Presence(roster), None, dies[1..]);
      Delivered(rest.state, lost + rest.dead, [roster] + rest.rosters)
  }

  /** `broadcast`: the delivery, then one copy on the bus. */
  function Cast(s: HubState, redis: bool, p: ProjectId, m: Message, exclude: Option<ConnId>, dies: Script): Delivered
    decreases |dies|, 1
  {
    var d := Deliver(s, redis, p, m, exclude, dies);
    d.(state := OnBus(d.state, redis, Relay(p, exclude, m)))
  }

  /** Whoever dies: exactly the dead are removed, every survivor has the frame once and each roster. */
  ghost predicate DeliversHere(s: HubState, d: Delivered, redis: bool, p: ProjectId, m: Message,
                               exclude: Option<ConnId>) {
    && Sound(d.state) && d.state.subscribed == s.subscribed
    && Removed(s, d.state, redis, p, d.dead, d.rosters)
    && Told(s, d.state, p, m, exclude, d.rosters)
  }

  /** And the rosters go on the bus newest first. */
  ghost predicate Delivers(s: HubState, d: Delivered, redis: bool, p: ProjectId, m: Message, exclude: Option<ConnId>) {
    && DeliversHere(s, d, redis, p, m, exclude)
    && d.state.published == s.published + if redis then Relayed(p, d.rosters) else []
  }

  lemma {:induction false} DeliverHere(s: HubState, redis: bool, p: ProjectId, m: Message, exclude: Option<ConnId>,
                                       dies: Script)
    requires Sound(s)
    ensures DeliversHere(s, Deliver(s, redis, p, m, exclude, dies), redis, p, m, exclude)
    decreases |dies|
  {
    var lost := Lost(s, p, exclude, dies);
    var s1 := Offering(s, p, m, exclude, lost);
    var s2 := Reaped(s1, redis, p, lost);
    SoundReaped(s, s1, redis, p, lost);
    if lost == {} {
      QuietDelivery(s, redis, p, m, exclude);
    } else {
      var roster := SnapshotOf(s2, redis, p);
      DeliverHere(s2, redis, p, Presence(roster), None, dies[1..]);
      var rest := Deliver(s2, redis, p, Presence(roster), None, dies[1..]);
      var s' := OnBus(rest.state, redis, Relay(p, None, Presence(roster)));
      SoundOnBus(rest.state, s');
      NestedHeard(s, s1, redis, p, m, exclude, lost, roster, rest, s');
      DeliverIsNested(s, redis, p, m, exclude, dies);
    }
  }

  lemma {:induction false} DeliverPublishes(s: HubState, redis: bool, p: ProjectId, m: Message,
                                            exclude: Option<ConnId>, dies: Script)
    ensures var d := Deliver(s, redis, p, m, exclude, dies);
            d.state.published == s.published + if redis then Relayed(p, d.rosters) else []
    decreases |dies|
  {
    var lost := Lost(s, p, exclude, dies);
    if lost == {} {
      RelayedCons(p, [], []);
    } else {
      var s2 := Reaped(Offering(s, p, m, exclude, lost), redis, p, lost);
      var roster := SnapshotOf(s2, redis, p);
      DeliverPublishes(s2, redis, p, Presence(roster), None, dies[1..]);
      DeliverIsNested(s, redis, p, m, exclude, dies);
      RelayedCons(p, roster, Deliver(s2, redis, p, Presence(roster), None, dies[1..]).rosters);
    }
  }

  lemma DeliverLaws(s: HubState, redis: bool, p: ProjectId, m: Message, exclude: Option<ConnId>, dies: Script)
    requires Sound(s)
    ensures Delivers(s, Deliver(s, redis, p, m, exclude, dies), redis, p, m, exclude)
  {
    DeliverHere(s, redis, p, m, exclude, dies);
    DeliverPublishes(s, redis, p, m, exclude, dies);
  }

  lemma NestedHeard(s: HubState, s1: HubState, redis: bool, p: ProjectId, m: Message, exclude: Option<ConnId>,
                     lost: set<ConnId>, roster: seq<Person>, rest: Delivered, s': HubState)
    requires Sound(s) && s1 == Offering(s, p, m, exclude, lost) && lost != {} && lost <= Ids(RoomIn(s.rooms, p))
    requires roster == SnapshotOf(Reaped(s1, redis, p, lost), redis, p)
    requires Removed(Reaped(s1, redis, p, lost), rest.state, redis, p, rest.dead, rest.rosters)
    requires Told(Reaped(s1, redis, p, lost), rest.state, p, Presence(roster), None, rest.rosters)
    requires s' == rest.state.(published := s'.published)
    ensures Removed(s, s', redis, p, lost + rest.dead, [roster] + rest.rosters)
    ensures Told(s, s', p, m, exclude, [roster] + rest.rosters)
  {
    NestedRemovedOnBus(s, s1, rest.state, s', redis, p, lost, roster, rest.dead, rest.rosters);
    NestedToldOnBus(s, s1, rest.state, s', redis, p, m, exclude, lost, roster, rest.dead, rest.rosters);
  }

  lemma DeliverIsNested(s: HubState, redis: bool, p: ProjectId, m: Message, exclude: Option<ConnId>, dies: Script)
    requires Lost(s, p, exclude, dies) != {}
    ensures var lost := Lost(s, p, exclude, dies);
            var reaped := Reaped(Offering(s, p, m, exclude, lost), redis, p, lost);
            var roster := SnapshotOf(reaped, redis, p);
            var rest := Deliver(reaped, redis, p, Presence(roster), None, dies[1..]);
            Deliver(s, redis, p, m, exclude, dies) ==
            Delivered(OnBus(rest.state, redis, Relay(p, None, Presence(roster))), lost + rest.dead,
                      [roster] + rest.rosters)
  {
  }

  lemma SoundOnBus(s: HubState, s': HubState)
    requires Sound(s) && s' == s.(published := s'.published)
    ensures Sound(s')
  {
  }

  lemma NestedToldOnBus(s: HubState, s1: HubState, t: HubState, s': HubState, redis: bool, p: ProjectId, m: Message,
                        exclude: Option<ConnId>, lost: set<ConnId>, first: seq<Person>, more: set<ConnId>,
                        nested: seq<seq<Person>>)
    requires s1 == Offering(s, p, m, exclude, lost) && s' == t.(published := s'.published)
    requires SameRooms(t, Reaped(Reaped(s1, redis, p, lost), redis, p, more))
    requires Told(Reaped(s1, redis, p, lost), t, p, Presence(first), None, nested)
    ensures Told(s, s', p, m, exclude, [first] + nested)
  {
    NestedTold(s, s1, s', redis, p, m, exclude, lost, first, more, nested);
  }

  lemma NestedRemovedOnBus(s: HubState, s1: HubState, t: HubState, s': HubState, redis: bool, p: ProjectId,
                           lost: set<ConnId>, first: seq<Person>, more: set<ConnId>, nested: seq<seq<Person>>)
    requires Sound(s) && s1 == s.(received := s1.received) && s1.received.Keys == s.received.Keys
    requires lost != {} && lost <= Ids(RoomIn(s.rooms, p)) && SameRooms(s', t)
    requires first == SnapshotOf(Reaped(s1, redis, p, lost), redis, p)
    requires Removed(Reaped(s1, redis, p, lost), t, redis, p, more, nested)
    ensures Removed(s, s', redis, p, lost + more, [first] + nested)
  {
    SnapshotFollows(s', t, redis, p);
    NestedRemoved(s, s1, s', redis, p, lost, first, more, nested);
  }

  // ---- the last roster on the bus ----

  function Total(people: seq<Person>): nat {
    if people == [] then 0 else Total(people[..|people| - 1]) + people[|people| - 1].connections
  }

  lemma {:induction false} TotalUpdate(people: seq<Person>, i: nat, n: nat)
    requires i < |people|
    ensures Total(people[i := people[i].(connections := n)]) + people[i].connections == Total(people) + n
  {
    var k := |people| - 1;
    var after := people[i := people[i].(connections := n)];
    if i == k {
      assert after[..k] == people[..k];
    } else {
      TotalUpdate(people[..k], i, n);
      assert after[..k] == people[..k][i := people[i].(connections := n)];
    }
  }

  /** A roster accounts for every entry it was collapsed from. */
  lemma {:induction false} CollapseCountsAll(entries: seq<Entry>)
    ensures Total(Collapse(entries)) == |entries|
  {
    if entries != [] {
      var k := |entries| - 1;
      var people, e := Collapse(entries[..k]), entries[k];
      CollapseCountsAll(entries[..k]);
      var i := RowOf(people, e.user);
      if i.Some? {
        TotalUpdate(people, i.value, people[i.value].connections + 1);
      } else {
        assert (people + [Person(e, 1)])[..|people|] == people;
      }
    }
  }

  lemma {:induction false} DropCounts(entries: seq<Entry>, gone: set<ConnId>)
    ensures |DropEntries(entries, gone)| <= |entries|
    ensures (forall e :: e in entries ==> e.connection !in gone) ==> DropEntries(entries, gone) == entries
    ensures (exists e :: e in entries && e.connection in gone) ==> |DropEntries(entries, gone)| < |entries|
  {
    if entries != [] {
      DropCounts(entries[..|entries| - 1], gone);
      assert entries == entries[..|entries| - 1] + [entries[|entries| - 1]];
    }
  }

  function HashOf(s: HubState, p: ProjectId): seq<Entry> {
    if p in s.hash then s.hash[p] else []
  }

  /** The roster other workers are left with is the room as it now is exactly when nobody on the hash died
      after the first round, that is on one of the rosters. */
  lemma LastOnTheBus(s: HubState, p: ProjectId, m: Message, exclude: Option<ConnId>, dies: Script)
    requires Sound(s) && Lost(s, p, exclude, dies) != {}
    ensures var d, first := Deliver(s, true, p, m, exclude, dies), Lost(s, p, exclude, dies);
            && |d.state.published| > |s.published|
            && var now := Presence(SnapshotOf(d.state, true, p));
               (d.state.published[|d.state.published| - 1] == Relay(p, None, now) <==>
                forall e :: e in HashOf(s, p) && e.connection in d.dead ==> e.connection in first)
  {
    var d, first := Deliver(s, true, p, m, exclude, dies), Lost(s, p, exclude, dies);
    DeliverLaws(s, true, p, m, exclude, dies);
    FirstRoster(s, p, m, exclude, dies);
    var mid, end := DropEntries(HashOf(s, p), first), DropEntries(HashOf(s, p), d.dead);
    assert d.rosters[0] == Collapse(mid) && SnapshotOf(d.state, true, p) == Collapse(end);
    DropLaws(HashOf(s, p), first, d.dead);
    assert first + d.dead == d.dead;
    assert end == DropEntries(mid, d.dead);
    DropCounts(mid, d.dead);
    CollapseCountsAll(mid);
    CollapseCountsAll(end);
  }

  lemma FirstRoster(s: HubState, p: ProjectId, m: Message, exclude: Option<ConnId>, dies: Script)
    requires Lost(s, p, exclude, dies) != {}
    ensures var d, first := Deliver(s, true, p, m, exclude, dies), Lost(s, p, exclude, dies);
            first <= d.dead && d.rosters != [] && d.rosters[0] == Collapse(DropEntries(HashOf(s, p), first))
  {
  }

  /** A room of two, listed as such. */
  function TwoSockets(a: Connection, b: Connection): HubState {
    HubState(map[a.project := [a, b]], map[a.project := [Describe(a), Describe(b)]], map[a.id := [], b.id := []],
             [], {a.project})
  }

  /** Two sockets, the second found dead by the roster about the first: the room is empty, but the last word
      on the bus still lists the second. */
  lemma OldRosterSeenLast(a: Connection, b: Connection, m: Message)
    requires a.id != b.id && a.project == b.project
    ensures var s := TwoSockets(a, b);
            var d := Deliver(s, true, a.project, m, None, [{a.id}, {b.id}]);
            && Sound(s) && d.dead == {a.id, b.id} && RoomIn(d.state.rooms, a.project) == []
            && SnapshotOf(d.state, true, a.project) == []
            && d.state.published == [Relay(a.project, None, Presence([])),
                                     Relay(a.project, None, Presence([Person(Describe(b), 1)]))]
  {
    var s, p := TwoSockets(a, b), a.project;
    RoundOne(a, b, m);
    BothRounds(a, b, m);
    DeliverLaws(s, true, p, m, None, [{a.id}, {b.id}]);
  }

  lemma BothRounds(a: Connection, b: Connection, m: Message)
    requires a.id != b.id && a.project == b.project
    ensures var d := Deliver(TwoSockets(a, b), true, a.project, m, None, [{a.id}, {b.id}]);
            && d.dead == {a.id, b.id} && d.rosters == [[Person(Describe(b), 1)], []]
            && RoomIn(d.state.rooms, a.project) == []
  {
    var s, p := TwoSockets(a, b), a.project;
    RoundOne(a, b, m);
    var s1 := Reaped(Offering(s, p, m, None, {a.id}), true, p, {a.id});
    RoundTwo(b, s1);
    RoundFollows(s, true, p, m, None, [{a.id}, {b.id}]);
    assert [{a.id}, {b.id}][1..] == [{b.id}];
  }

  /** A delivery that loses somebody, unfolded once. */
  lemma RoundFollows(s: HubState, redis: bool, p: ProjectId, m: Message, exclude: Option<ConnId>, dies: Script)
    requires Lost(s, p, exclude, dies) != {}
    ensures var lost := Lost(s, p, exclude, dies);
            var reaped := Reaped(Offering(s, p, m, exclude, lost), redis, p, lost);
            var roster := SnapshotOf(reaped, redis, p);
            var d, rest := Deliver(s, redis, p, m, exclude, dies),
                Deliver(reaped, redis, p, Presence(roster), None, dies[1..]);
            && d.dead == lost + rest.dead && d.rosters == [roster] + rest.rosters && d.state.rooms == rest.state.rooms
  {
  }

  lemma RoundOne(a: Connection, b: Connection, m: Message)
    requires a.id != b.id && a.project == b.project
    ensures var s, p := TwoSockets(a, b), a.project;
            var s1 := Reaped(Offering(s, p, m, None, {a.id}), true, p, {a.id});
            && Sound(s) && Sound(s1) && Lost(s, p, None, [{a.id}, {b.id}]) == {a.id}
            && RoomIn(s1.rooms, p) == [b] && HashOf(s1, p) == [Describe(b)]
            && SnapshotOf(s1, true, p) == [Person(Describe(b), 1)]
  {
    var s, p := TwoSockets(a, b), a.project;
    DropPair(a, b);
    DropOne(b);
    assert Ids([a, b]) == {a.id, b.id} by { assert [a, b][0].id == a.id && [a, b][1].id == b.id; }
    SoundReaped(s, Offering(s, p, m, None, {a.id}), true, p, {a.id});
  }

  lemma RoundTwo(b: Connection, s: HubState)
    requires Sound(s) && RoomIn(s.rooms, b.project) == [b] && HashOf(s, b.project) == [Describe(b)]
    ensures var d := Deliver(s, true, b.project, Presence([Person(Describe(b), 1)]), None, [{b.id}]);
            d.dead == {b.id} && d.rosters == [[]] && RoomIn(d.state.rooms, b.project) == []
  {
    var p, roster := b.project, Presence([Person(Describe(b), 1)]);
    DropOne(b);
    assert Ids([b]) == {b.id} by { assert [b][0].id == b.id; }
    assert Lost(s, p, None, [{b.id}]) == {b.id};
    var s2 := Reaped(Offering(s, p, roster, None, {b.id}), true, p, {b.id});
    assert RoomIn(s2.rooms, p) == [] && HashOf(s2, p) == [] && SnapshotOf(s2, true, p) == [];
    assert [{b.id}][1..] == [];
    assert Ids(RoomIn(s2.rooms, p)) == {} && Lost(s2, p, None, []) == {};
    var last := Deliver(s2, true, p, Presence([]), None, []);
    assert last.dead == {} && last.rosters == [] && last.state.rooms == PopRoom(s2.rooms, p, {});
  }

  lemma DropPair(a: Connection, b: Connection)
    requires a.id != b.id
    ensures Without([a, b], {a.id}) == [b] && DropEntries([Describe(a), Describe(b)], {a.id}) == [Describe(b)]
  {
    assert [a, b][..1] == [a] && [a][..0] == [];
    assert [Describe(a), Describe(b)][..1] == [Describe(a)] && [Describe(a)][..0] == [];
    assert Without([a], {a.id}) == [] && DropEntries([Describe(a)], {a.id}) == [];
  }

  lemma DropOne(b: Connection)
    ensures Without([b], {b.id}) == [] && DropEntries([Describe(b)], {b.id}) == []
    ensures Collapse([Describe(b)]) == [Person(Describe(b), 1)]
  {
    assert [b][..0] == [] && [Describe(b)][..0] == [];
    assert Collapse([]) == [];
  }

  lemma TabsNext(room: seq<Connection>, i: nat, user: UserId)
    requires i < |room|
    ensures Tabs(Describes(room[..i + 1]), user) ==
            Tabs(Describes(room[..i]), user) + if room[i].user == user then 1 else 0
  {
    var es := Describes(room[..i + 1]);
    assert es[..i] == Describes(room[..i]);
  }

  lemma ReapThrough(s: HubState, t: HubState, u: HubState, redis: bool, p: ProjectId, a: set<ConnId>, b: set<ConnId>)
    requires SameRooms(t, Reaped(s, redis, p, a)) && SameRooms(u, Reaped(t, redis, p, b))
    ensures SameRooms(u, Reaped(s, redis, p, a + b))
  {
    ReapTwice(s, redis, p, a, b);
  }

  /** Two broadcasts about c, as the sockets and the bus saw them: everyone who stayed got the news and then
      the roster, each followed by the rosters its dead caused; c got those alone. */
  ghost predicate Announced(s: HubState, s': HubState, redis: bool, c: Connection, news: Message, members: seq<Person>,
                            first: seq<seq<Person>>, second: seq<seq<Person>>) {
    && (forall d :: d in RoomIn(s'.rooms, c.project) && d.id in s.received && d.id in s'.received ==>
          s'.received[d.id] == s.received[d.id] + Heard(d.id == c.id, news, members, first, second))
    && s'.received.Keys == s.received.Keys
    && (forall id :: id in s.received && id !in Ids(RoomIn(s.rooms, c.project)) && id in s'.received ==>
          s'.received[id] == s.received[id])
    && s'.published == s.published + if redis then OnTheBus(c, news, members, first, second) else []
  }

  function OnTheBus(c: Connection, news: Message, members: seq<Person>, first: seq<seq<Person>>,
                    second: seq<seq<Person>>): seq<BusMessage> {
    Relayed(c.project, first) + [Relay(c.project, Some(c.id), news)]
    + (Relayed(c.project, second) + [Relay(c.project, Some(c.id), Presence(members))])
  }

  function Heard(self: bool, news: Message, members: seq<Person>, first: seq<seq<Person>>,
                 second: seq<seq<Person>>): seq<Message> {
    if self then Notices(first) + Notices(second)
    else [news] + Notices(first) + [Presence(members)] + Notices(second)
  }

  lemma HeardBoth(self: bool, was: seq<Message>, mid: seq<Message>, end: seq<Message>, news: Message,
                  members: seq<Person>, first: seq<seq<Person>>, second: seq<seq<Person>>)
    requires mid == was + (if self then [] else [news]) + Notices(first)
    requires end == mid + (if self then [] else [Presence(members)]) + Notices(second)
    ensures end == was + Heard(self, news, members, first, second)
  {
  }

  lemma ToldBoth(s: HubState, mid: HubState, s': HubState, redis: bool, c: Connection, news: Message,
                 members: seq<Person>, more: set<ConnId>, first: seq<seq<Person>>, second: seq<seq<Person>>)
    requires Told(s, mid, c.project, news, Some(c.id), first)
    requires Told(mid, s', c.project, Presence(members), Some(c.id), second)
    requires Ids(RoomIn(mid.rooms, c.project)) <= Ids(RoomIn(s.rooms, c.project))
    requires s'.rooms == PopRoom(mid.rooms, c.project, more)
    ensures forall d :: d in RoomIn(s'.rooms, c.project) && d.id in s.received && d.id in s'.received ==>
              s'.received[d.id] == s.received[d.id] + Heard(d.id == c.id, news, members, first, second)
  {
    forall d | d in RoomIn(s'.rooms, c.project) && d.id in s.received && d.id in s'.received
      ensures s'.received[d.id] == s.received[d.id] + Heard(d.id == c.id, news, members, first, second)
    {
      assert d in RoomIn(mid.rooms, c.project);
      HeardBoth(d.id == c.id, s.received[d.id], mid.received[d.id], s'.received[d.id], news, members, first, second);
    }
  }

  lemma BroadcastTwice(s: HubState, mid: HubState, s': HubState, redis: bool, c: Connection, news: Message,
                       members: seq<Person>, gone: set<ConnId>, more: set<ConnId>,
                       first: seq<seq<Person>>, second: seq<seq<Person>>)
    requires SameRooms(mid, Reaped(s, redis, c.project, gone)) && SameRooms(s', Reaped(mid, redis, c.project, more))
    requires members == SnapshotOf(mid, redis, c.project)
    requires Told(s, mid, c.project, news, Some(c.id), first)
    requires Told(mid, s', c.project, Presence(members), Some(c.id), second)
    requires mid.published ==
             s.published + if redis then Relayed(c.project, first) + [Relay(c.project, Some(c.id), news)] else []
    requires s'.published == mid.published + if !redis then []
             else Relayed(c.project, second) + [Relay(c.project, Some(c.id), Presence(members))]
    ensures members == SnapshotOf(Reaped(s, redis, c.project, gone), redis, c.project)
    ensures SameRooms(s', Reaped(s, redis, c.project, gone + more))
    ensures Announced(s, s', redis, c, news, members, first, second)
  {
    ReapThrough(s, mid, s', redis, c.project, gone, more);
    ReapedIds(s, redis, c.project, gone);
    ToldBoth(s, mid, s', redis, c, news, members, more, first, second);
    assert s'.published == s.published + if redis then OnTheBus(c, news, members, first, second) else [];
  }

  // ---- departures and evictions, given who turns out dead ----

  /** Two broadcasts about one socket, and the roster in the second. */
  datatype Announcement = Announcement(state: HubState, members: seq<Person>, first: Delivered, second: Delivered)

  function Announcing(s: HubState, redis: bool, c: Connection, news: Message, dies: (Script, Script)): Announcement {
    var first := Cast(s, redis, c.project, news, Some(c.id), dies.0);
    var members := SnapshotOf(first.state, redis, c.project);
    var second := Cast(first.state, redis, c.project, Presence(members), Some(c.id), dies.1);
    Announcement(second.state, members, first, second)
  }

  function Leaving(s: HubState, redis: bool, c: Connection, dies: (Script, Script)): Announcement {
    Announcing(Reaped(s, redis, c.project, {c.id}), redis, c, MemberLeft(Describe(c)), dies)
  }

  ghost predicate Announces(s: HubState, a: Announcement, redis: bool, c: Connection, news: Message) {
    && Sound(a.state) && a.state.subscribed == s.subscribed
    && a.members == SnapshotOf(Reaped(s, redis, c.project, a.first.dead), redis, c.project)
    && SameRooms(a.state, Reaped(s, redis, c.project, a.first.dead + a.second.dead))
    && Announced(s, a.state, redis, c, news, a.members, a.first.rosters, a.second.rosters)
  }

  lemma CastLaws(s: HubState, redis: bool, p: ProjectId, m: Message, exclude: Option<ConnId>, dies: Script)
    requires Sound(s)
    ensures var d := Cast(s, redis, p, m, exclude, dies);
            && Sound(d.state) && d.state.subscribed == s.subscribed && Told(s, d.state, p, m, exclude, d.rosters)
            && SameRooms(d.state, Reaped(s, redis, p, d.dead))
            && d.state.published == s.published + if redis then Relayed(p, d.rosters) + [Relay(p, exclude, m)] else []
  {
    DeliverLaws(s, redis, p, m, exclude, dies);
  }

  lemma AnnounceLaws(s: HubState, redis: bool, c: Connection, news: Message, dies: (Script, Script))
    requires Sound(s)
    ensures Announces(s, Announcing(s, redis, c, news, dies), redis, c, news)
  {
    var a, p := Announcing(s, redis, c, news, dies), c.project;
    CastLaws(s, redis, p, news, Some(c.id), dies.0);
    CastLaws(a.first.state, redis, p, Presence(a.members), Some(c.id), dies.1);
    BroadcastTwice(s, a.first.state, a.state, redis, c, news, a.members, a.first.dead, a.second.dead,
                   a.first.rosters, a.second.rosters);
  }

  lemma OnTheBusRelays(c: Connection, news: Message, members: seq<Person>, first: seq<seq<Person>>,
                       second: seq<seq<Person>>)
    ensures forall i :: 0 <= i < |OnTheBus(c, news, members, first, second)| ==>
              OnTheBus(c, news, members, first, second)[i].Relay?
  {
  }

  lemma RelaysAppended(before: seq<BusMessage>, more: seq<BusMessage>)
    requires forall i :: 0 <= i < |more| ==> more[i].Relay?
    ensures RelaysOnly(before, before + more)
  {
  }

  lemma AnnouncedRelays(s: HubState, a: Announcement, redis: bool, c: Connection, news: Message)
    requires a.state.published ==
             s.published + if redis then OnTheBus(c, news, a.members, a.first.rosters, a.second.rosters) else []
    ensures RelaysOnly(s.published, a.state.published)
  {
    OnTheBusRelays(c, news, a.members, a.first.rosters, a.second.rosters);
    RelaysAppended(s.published,
                   if redis then OnTheBus(c, news, a.members, a.first.rosters, a.second.rosters) else []);
  }

  datatype Evicted = Evicted(state: HubState, gone: set<ConnId>, closed: nat)

  /** The loop of `disconnect_user` over the room it listed: each socket of that person leaves in turn. */
  function Evicting(s: HubState, redis: bool, user: UserId, room: seq<Connection>, dies: seq<(Script, Script)>): Evicted
    requires |dies| == |room|
    decreases |room|
  {
    if room == [] then Evicted(s, {}, 0)
    else
      var k := |room| - 1;
      var sofar := Evicting(s, redis, user, room[..k], dies[..k]);
      if room[k].user != user then sofar
      else
        var a := Leaving(sofar.state, redis, room[k], dies[k]);
        Evicted(a.state, sofar.gone + ({room[k].id} + a.first.dead + a.second.dead), sofar.closed + 1)
  }

  /** Every socket of that person on the list is out, they are counted, and only relays were published. */
  ghost predicate Evicts(s: HubState, e: Evicted, redis: bool, p: ProjectId, user: UserId, room: seq<Connection>) {
    && Sound(e.state) && e.state.subscribed == s.subscribed
    && SameRooms(e.state, Reaped(s, redis, p, e.gone))
    && (forall k :: 0 <= k < |room| && room[k].user == user ==> room[k].id in e.gone)
    && e.closed == Tabs(Describes(room), user)
    && RelaysOnly(s.published, e.state.published)
  }

  lemma LeaveLaws(s: HubState, t: HubState, redis: bool, c: Connection, gone: set<ConnId>, dies: (Script, Script))
    requires Sound(t) && t.subscribed == s.subscribed && SameRooms(t, Reaped(s, redis, c.project, gone))
    requires RelaysOnly(s.published, t.published)
    ensures var a := Leaving(t, redis, c, dies);
            && Sound(a.state) && a.state.subscribed == s.subscribed && RelaysOnly(s.published, a.state.published)
            && SameRooms(a.state, Reaped(s, redis, c.project, gone + ({c.id} + a.first.dead + a.second.dead)))
  {
    var p := c.project;
    var struck := Reaped(t, redis, p, {c.id});
    SoundReaped(t, t, redis, p, {c.id});
    var a := Leaving(t, redis, c, dies);
    AnnounceLaws(struck, redis, c, MemberLeft(Describe(c)), dies);
    AnnouncedRelays(struck, a, redis, c, MemberLeft(Describe(c)));
    ReapThrough(t, struck, a.state, redis, p, {c.id}, a.first.dead + a.second.dead);
    assert {c.id} + (a.first.dead + a.second.dead) == {c.id} + a.first.dead + a.second.dead;
    ReapThrough(s, t, a.state, redis, p, gone, {c.id} + a.first.dead + a.second.dead);
  }

  lemma {:induction false} EvictLaws(s: HubState, redis: bool, p: ProjectId, user: UserId, room: seq<Connection>,
                                     dies: seq<(Script, Script)>)
    requires Sound(s) && |dies| == |room| && forall i :: 0 <= i < |room| ==> room[i].project == p
    ensures Evicts(s, Evicting(s, redis, user, room, dies), redis, p, user, room)
    decreases |room|
  {
    if room == [] {
      ReapNobody(s, redis, p);
    } else {
      var k := |room| - 1;
      EvictLaws(s, redis, p, user, room[..k], dies[..k]);
      TabsNext(room, k, user);
      assert room[..k + 1] == room;
      var sofar := Evicting(s, redis, user, room[..k], dies[..k]);
      if room[k].user == user { LeaveLaws(s, sofar.state, redis, room[k], sofar.gone, dies[k]); }
    }
  }

  lemma EvictedAll(s: HubState, redis: bool, p: ProjectId, user: UserId, gone: set<ConnId>)
    requires forall k :: 0 <= k < |RoomIn(s.rooms, p)| && RoomIn(s.rooms, p)[k].user == user ==>
             RoomIn(s.rooms, p)[k].id in gone
    ensures forall c :: c in RoomIn(Reaped(s, redis, p, gone).rooms, p) ==> c.user != user
  {
    forall c | c in RoomIn(Reaped(s, redis, p, gone).rooms, p) ensures c.user != user {
      Survivor(s, redis, p, gone, c);
      var k :| 0 <= k < |RoomIn(s.rooms, p)| && RoomIn(s.rooms, p)[k] == c;
    }
  }

  /** Everything published since `before` relays a message; none of it is an instruction. */
  ghost predicate RelaysOnly(before: seq<BusMessage>, after: seq<BusMessage>) {
    before <= after && forall i :: |before| <= i < |after| ==> after[i].Relay?
  }

  ghost predicate SameRooms(s: HubState, t: HubState) {
    s.rooms == t.rooms && s.hash == t.hash
  }

  /** The hub with one more socket registered, before anyone is told. The first one of a room makes the
      worker subscribe to the project's channel. */
  function Joined(s: HubState, redis: bool, c: Connection): HubState {
    HubState(s.rooms[c.project := RoomIn(s.rooms, c.project) + [c]],
             if redis then s.hash[c.project := HashOf(s, c.project) + [Describe(c)]] else s.hash,
             s.received[c.id := []], s.published,
             if redis && RoomIn(s.rooms, c.project) == [] then s.subscribed + {c.project} else s.subscribed)
  }

  lemma JoinedSound(s: HubState, redis: bool, c: Connection)
    requires Sound(s) && Listening(s, redis) && c.id !in s.received
    ensures Sound(Joined(s, redis, c)) && Listening(Joined(s, redis, c), redis)
  {
    var room := RoomIn(s.rooms, c.project);
    forall i | 0 <= i < |room| ensures room[i].id != c.id {
      assert s.rooms[c.project][i].id in s.received;
    }
  }

  /** With nobody found dead, leaving a socket that is already out changes neither rooms nor hash. */
  lemma SecondLeaveIsQuiet(s: HubState, redis: bool, p: ProjectId, id: ConnId)
    ensures SameRooms(Reaped(Reaped(s, redis, p, {id}), redis, p, {id}), Reaped(s, redis, p, {id}))
  {
    ReapTwice(s, redis, p, {id}, {id});
    assert {id} + {id} == {id};
  }
}
