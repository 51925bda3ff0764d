/** Whom the room, the shared hash and the rosters name after a join, a departure, an eviction or a delivery,
    told from what was there before. */
module HubLaws {
  import opened Wrappers
  import opened Rosters
  import opened Delivery

  // ---- what reaping leaves of the hash ----

  lemma HashReaped(s: HubState, redis: bool, p: ProjectId, gone: set<ConnId>, q: ProjectId)
    ensures HashOf(Reaped(s, redis, p, gone), q) ==
            if redis && q == p then DropEntries(HashOf(s, p), gone) else HashOf(s, q)
  {
    DropLaws([], gone, {});
  }

  /** Of project p's entries those of `gone` are dropped, and nothing else changes on the hash. */
  ghost predicate HashLess(s: HubState, s': HubState, redis: bool, p: ProjectId, gone: set<ConnId>) {
    && (forall q: ProjectId :: q != p || !redis ==> HashOf(s', q) == HashOf(s, q))
    && (redis ==> forall e :: e in HashOf(s', p) <==> e in HashOf(s, p) && e.connection !in gone)
  }

  lemma SameRoomsReaped(s: HubState, s': HubState, redis: bool, p: ProjectId, gone: set<ConnId>)
    requires SameRooms(s', Reaped(s, redis, p, gone))
    ensures HashLess(s, s', redis, p, gone)
    ensures forall c :: c in RoomIn(s'.rooms, p) <==> c in RoomIn(s.rooms, p) && c.id !in gone
    ensures forall q :: q != p ==> RoomIn(s'.rooms, q) == RoomIn(s.rooms, q)
  {
    forall q: ProjectId ensures HashOf(s', q) == HashOf(Reaped(s, redis, p, gone), q) {}
    forall q: ProjectId | q != p || !redis ensures HashOf(s', q) == HashOf(s, q) { HashReaped(s, redis, p, gone, q); }
    HashReaped(s, redis, p, gone, p);
  }

  // ---- a roster is who is there ----

  /** The roster is one row per person among the hash entries or, without Redis, the sockets of the room. */
  lemma SnapshotTells(s: HubState, redis: bool, p: ProjectId)
    ensures RosterOf(SnapshotOf(s, redis, p), if redis then HashOf(s, p) else Describes(RoomIn(s.rooms, p)))
  {
    CollapseLaw(if redis then HashOf(s, p) else Describes(RoomIn(s.rooms, p)));
  }

  /** The last roster a delivery sends names, once each and with their number of sockets, exactly the people of
      the surviving room, or of the hash with its dead struck off. */
  lemma LastRosterTells(s: HubState, redis: bool, p: ProjectId, m: Message, exclude: Option<ConnId>, dies: Script)
    requires Sound(s) && Deliver(s, redis, p, m, exclude, dies).rosters != []
    ensures var d := Deliver(s, redis, p, m, exclude, dies);
            && RosterOf(d.rosters[|d.rosters| - 1],
                        if redis then HashOf(d.state, p) else Describes(RoomIn(d.state.rooms, p)))
            && HashLess(s, d.state, redis, p, d.dead)
            && (forall c :: c in RoomIn(d.state.rooms, p) <==> c in RoomIn(s.rooms, p) && c.id !in d.dead)
  {
    DeliverLaws(s, redis, p, m, exclude, dies);
    var d := Deliver(s, redis, p, m, exclude, dies);
    SnapshotTells(d.state, redis, p);
    SameRoomsReaped(s, d.state, redis, p, d.dead);
  }

  lemma PresentIsListed(entries: seq<Entry>, e: Entry)
    requires e in entries
    ensures Tabs(entries, e.user) >= 1
  {
    NoTabs(entries, e.user);
  }

  // ---- joining ----

  /** The entry that names this socket and its person. */
  function EntryOf(c: Connection): Entry {
    Entry(c.user, c.id, c.labels)
  }

  ghost predicate RoomWith(s: HubState, s': HubState, c: Connection, dead: set<ConnId>) {
    && dead <= Ids(RoomIn(s.rooms, c.project)) + {c.id}
    && forall d :: d in RoomIn(s'.rooms, c.project) <==> (d in RoomIn(s.rooms, c.project) || d == c) && d.id !in dead
  }

  ghost predicate HashWith(s: HubState, s': HubState, redis: bool, c: Connection, dead: set<ConnId>) {
    && (forall q: ProjectId :: q != c.project || !redis ==> HashOf(s', q) == HashOf(s, q))
    && (redis ==> forall e :: e in HashOf(s', c.project) <==>
          (e in HashOf(s, c.project) || e == EntryOf(c)) && e.connection !in dead)
  }

  /** What a join leaves: c and those who were there, less the dead; the hash likewise. */
  ghost predicate JoinedWith(s: HubState, s': HubState, redis: bool, c: Connection, dead: set<ConnId>) {
    RoomWith(s, s', c, dead) && HashWith(s, s', redis, c, dead)
  }

  lemma JoinedIds(s: HubState, redis: bool, c: Connection)
    ensures Ids(RoomIn(Joined(s, redis, c).rooms, c.project)) == Ids(RoomIn(s.rooms, c.project)) + {c.id}
  {
    var room := RoomIn(s.rooms, c.project);
    var more := room + [c];
    forall id ensures id in Ids(more) <==> id in Ids(room) + {c.id} {
      if id in Ids(room) {
        var i :| 0 <= i < |room| && room[i].id == id;
        assert more[i].id == id;
      }
      assert more[|room|].id == c.id;
    }
  }

  lemma JoinedHash(s: HubState, redis: bool, c: Connection, q: ProjectId)
    ensures HashOf(Joined(s, redis, c), q) == HashOf(s, q) + if redis && q == c.project then [EntryOf(c)] else []
  {
  }

  lemma JoinSettlesRoom(s: HubState, s': HubState, redis: bool, c: Connection, dead: set<ConnId>)
    requires SameRooms(s', Reaped(Joined(s, redis, c), redis, c.project, dead))
    requires dead <= Ids(RoomIn(Joined(s, redis, c).rooms, c.project))
    ensures RoomWith(s, s', c, dead)
  {
    SameRoomsReaped(Joined(s, redis, c), s', redis, c.project, dead);
    JoinedIds(s, redis, c);
  }

  lemma JoinSettlesHash(s: HubState, s': HubState, redis: bool, c: Connection, dead: set<ConnId>)
    requires HashLess(Joined(s, redis, c), s', redis, c.project, dead)
    ensures HashWith(s, s', redis, c, dead)
  {
    forall q: ProjectId | q != c.project || !redis ensures HashOf(s', q) == HashOf(s, q) { JoinedHash(s, redis, c, q); }
    JoinedHash(s, redis, c, c.project);
  }

  lemma JoinSettles(s: HubState, s': HubState, redis: bool, c: Connection, dead: set<ConnId>)
    requires SameRooms(s', Reaped(Joined(s, redis, c), redis, c.project, dead))
    requires dead <= Ids(RoomIn(Joined(s, redis, c).rooms, c.project))
    ensures JoinedWith(s, s', redis, c, dead)
  {
    SameRoomsReaped(Joined(s, redis, c), s', redis, c.project, dead);
    JoinSettlesRoom(s, s', redis, c, dead);
    JoinSettlesHash(s, s', redis, c, dead);
  }

  lemma GreetingTells(s: HubState, redis: bool, c: Connection, dead: set<ConnId>)
    requires c.id !in dead
    ensures var members := SnapshotOf(Reaped(Joined(s, redis, c), redis, c.project, dead), redis, c.project);
            RowOf(members, c.user).Some?
  {
    var p := c.project;
    var t := Reaped(Joined(s, redis, c), redis, p, dead);
    SnapshotTells(t, redis, p);
    if redis {
      HashReaped(Joined(s, redis, c), redis, p, dead, p);
      JoinedHash(s, redis, c, p);
      PresentIsListed(HashOf(t, p), EntryOf(c));
    } else {
      ReapedIds(Joined(s, redis, c), redis, p, dead);
      var joined := RoomIn(Joined(s, redis, c).rooms, p);
      assert joined[|joined| - 1] == c;
      SameRoomsReaped(Joined(s, redis, c), t, redis, p, dead);
      assert c in RoomIn(t.rooms, p);
      var i :| 0 <= i < |RoomIn(t.rooms, p)| && RoomIn(t.rooms, p)[i] == c;
      assert Describes(RoomIn(t.rooms, p))[i] == Describe(c);
      PresentIsListed(Describes(RoomIn(t.rooms, p)), Describe(c));
    }
  }

  /** A newcomer is in the room and, with Redis, on the shared hash under its own id and person, besides exactly
      those who were there and did not die; unless it died itself, the roster it is greeted with names it. */
  lemma JoinLaws(s: HubState, redis: bool, c: Connection, dies: (Script, Script)) returns (dead: set<ConnId>)
    requires Sound(s) && Listening(s, redis) && c.id !in s.received
    ensures var a := Announcing(Joined(s, redis, c), redis, c, MemberJoined(Describe(c)), dies);
            && JoinedWith(s, a.state, redis, c, dead)
            && (c in RoomIn(a.state.rooms, c.project) ==> RowOf(a.members, c.user).Some?)
            && RosterOf(a.members, if redis then HashOf(a.first.state, c.project)
                                   else Describes(RoomIn(a.first.state.rooms, c.project)))
            && JoinedWith(s, a.first.state, redis, c, a.first.dead)
  {
    dead := JoinEnds(s, redis, c, dies);
    FirstNewsSettles(s, redis, c, dies);
    var a := Announcing(Joined(s, redis, c), redis, c, MemberJoined(Describe(c)), dies);
    if c.id !in a.first.dead { GreetingTells(s, redis, c, a.first.dead); }
  }

  lemma JoinEnds(s: HubState, redis: bool, c: Connection, dies: (Script, Script)) returns (dead: set<ConnId>)
    requires Sound(s) && Listening(s, redis) && c.id !in s.received
    ensures var a := Announcing(Joined(s, redis, c), redis, c, MemberJoined(Describe(c)), dies);
            && a.first.dead <= dead && JoinedWith(s, a.state, redis, c, dead)
            && a.members == SnapshotOf(Reaped(Joined(s, redis, c), redis, c.project, a.first.dead), redis, c.project)
  {
    var joined := Joined(s, redis, c);
    JoinedSound(s, redis, c);
    var a := Announcing(joined, redis, c, MemberJoined(Describe(c)), dies);
    AnnounceLaws(joined, redis, c, MemberJoined(Describe(c)), dies);
    AnnounceLosesMembers(joined, redis, c, MemberJoined(Describe(c)), dies);
    dead := a.first.dead + a.second.dead;
    JoinSettles(s, a.state, redis, c, dead);
  }

  /** Between the two notices of a join: where the greeting's roster is read. */
  lemma FirstNewsSettles(s: HubState, redis: bool, c: Connection, dies: (Script, Script))
    requires Sound(s) && Listening(s, redis) && c.id !in s.received
    ensures var a := Announcing(Joined(s, redis, c), redis, c, MemberJoined(Describe(c)), dies);
            && RosterOf(a.members, if redis then HashOf(a.first.state, c.project)
                                   else Describes(RoomIn(a.first.state.rooms, c.project)))
            && JoinedWith(s, a.first.state, redis, c, a.first.dead)
  {
    var joined := Joined(s, redis, c);
    JoinedSound(s, redis, c);
    var a := Announcing(joined, redis, c, MemberJoined(Describe(c)), dies);
    CastLaws(joined, redis, c.project, MemberJoined(Describe(c)), Some(c.id), dies.0);
    AnnounceLosesMembers(joined, redis, c, MemberJoined(Describe(c)), dies);
    JoinSettles(s, a.first.state, redis, c, a.first.dead);
    SnapshotTells(a.first.state, redis, c.project);
  }

  lemma AnnounceLosesMembers(s: HubState, redis: bool, c: Connection, news: Message, dies: (Script, Script))
    requires Sound(s)
    ensures var a := Announcing(s, redis, c, news, dies);
            a.first.dead + a.second.dead <= Ids(RoomIn(s.rooms, c.project))
  {
    var a, p := Announcing(s, redis, c, news, dies), c.project;
    DeliverLaws(s, redis, p, news, Some(c.id), dies.0);
    CastLaws(s, redis, p, news, Some(c.id), dies.0);
    DeliverLaws(a.first.state, redis, p, Presence(a.members), Some(c.id), dies.1);
    ReapedIds(s, redis, p, a.first.dead);
  }

  // ---- leaving ----

  /** What a departure leaves: nobody new, not c, in the room or on the hash, and of the others those alive. */
  ghost predicate LeftWith(s: HubState, s': HubState, redis: bool, c: Connection, dead: set<ConnId>) {
    var p := c.project;
    && (forall d :: d in RoomIn(s'.rooms, p) <==> d in RoomIn(s.rooms, p) && d.id != c.id && d.id !in dead)
    && dead <= Ids(RoomIn(s.rooms, p)) && HashLess(s, s', redis, p, dead + {c.id})
  }

  lemma LeaveSettles(s: HubState, redis: bool, c: Connection, dies: (Script, Script)) returns (dead: set<ConnId>)
    requires Sound(s)
    ensures LeftWith(s, Leaving(s, redis, c, dies).state, redis, c, dead)
  {
    var p := c.project;
    var struck := Reaped(s, redis, p, {c.id});
    SoundReaped(s, s, redis, p, {c.id});
    var a := Leaving(s, redis, c, dies);
    AnnounceLaws(struck, redis, c, MemberLeft(Describe(c)), dies);
    AnnounceLosesMembers(struck, redis, c, MemberLeft(Describe(c)), dies);
    dead := a.first.dead + a.second.dead;
    ReapedIds(s, redis, p, {c.id});
    ReapThrough(s, struck, a.state, redis, p, {c.id}, dead);
    assert {c.id} + dead == dead + {c.id};
    SameRoomsReaped(s, a.state, redis, p, dead + {c.id});
  }

  /** An eviction leaves none of the person's sockets that were in the room in it, or on the hash, and names
      nobody new. */
  lemma EvictSettles(s: HubState, redis: bool, p: ProjectId, user: UserId, dies: seq<(Script, Script)>)
    requires Sound(s) && |dies| == |RoomIn(s.rooms, p)|
    ensures var s' := Evicting(s, redis, user, RoomIn(s.rooms, p), dies).state;
            && (forall d :: d in RoomIn(s'.rooms, p) ==> d in RoomIn(s.rooms, p) && d.user != user)
            && (redis ==> forall e :: e in HashOf(s', p) ==>
                  e in HashOf(s, p) && forall d :: d in RoomIn(s.rooms, p) && d.user == user ==> d.id != e.connection)
  {
    var room := RoomIn(s.rooms, p);
    EvictLaws(s, redis, p, user, room, dies);
    var e := Evicting(s, redis, user, room, dies);
    SameRoomsReaped(s, e.state, redis, p, e.gone);
    forall d | d in room && d.user == user ensures d.id in e.gone {
      var k :| 0 <= k < |room| && room[k] == d;
    }
  }
}
