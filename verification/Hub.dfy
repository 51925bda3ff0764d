/** One worker's hub: rooms of open sockets, delivery that reaps the sockets it finds dead, joining,
    leaving and eviction. Each method does what its function in `Delivery` says, for the sends that failed. */
module Hub {
  import opened Wrappers
  import opened Rosters
  import opened Delivery
  import opened HubLaws

  class CollabHub {
    var rooms: Rooms
    /** The presence hash of each project, shared through Redis; unused without it. */
    var hash: Hash
    /** What reached each socket, and what this worker put on the bus. */
    var received: map<ConnId, seq<Message>>
    var published: seq<BusMessage>
    /** The projects whose channel this worker listens to. */
    var subscribed: set<ProjectId>
    const redis: bool

    ghost function State(): HubState
      reads this
    {
      HubState(rooms, hash, received, published, subscribed)
    }

    function Room(p: ProjectId): seq<Connection>
      reads this
    {
      RoomIn(rooms, p)
    }

    constructor (redis: bool)
      ensures Sound(State()) && Listening(State(), redis)
      ensures State() == HubState(map[], map[], map[], [], {}) && this.redis == redis
    {
      rooms, hash, received, published, subscribed := map[], map[], map[], [], {};
      this.redis := redis;
    }

    method PresenceSnapshot(p: ProjectId) returns (people: seq<Person>)
      ensures people == SnapshotOf(State(), redis, p)
    {
      people := CollapseEntries(if redis then (if p in hash then hash[p] else []) else Describes(Room(p)));
    }

    /** The socket may be gone: whether the frame went through is not up to the hub. */
    method Send(c: Connection, m: Message) returns (ok: bool)
      requires c.id in received
      modifies this`received
      ensures received == if ok then old(received)[c.id := old(received)[c.id] + [m]] else old(received)
    {
      ok := *;
      if ok {
        received := received[c.id := received[c.id] + [m]];
      }
    }

    method ForgetPresence(c: Connection)
      modifies this`hash
      ensures hash == if redis then ForgetAll(old(hash), c.project, {c.id}) else old(hash)
    {
      if redis && c.project in hash {
        hash := hash[c.project := DropEntries(hash[c.project], {c.id})];
      }
    }

    method Pop(c: Connection)
      requires Sound(State())
      modifies this`rooms
      ensures Sound(State()) && rooms == PopRoom(old(rooms), c.project, {c.id})
    {
      SoundReaped(State(), State(), false, c.project, {c.id});
      if c.project in rooms {
        var rest := Without(rooms[c.project], {c.id});
        if rest == [] {
          rooms := rooms - {c.project};
        } else {
          rooms := rooms[c.project := rest];
        }
      }
    }

    method Publish(m: BusMessage)
      modifies this`published
      ensures State() == OnBus(old(State()), redis, m)
    {
      if redis {
        published := published + [m];
      }
    }

    /** One turn of a delivery loop: the excluded socket is passed over. */
    method Offer(c: Connection, m: Message, exclude: Option<ConnId>) returns (lost: bool)
      requires c.id in received
      modifies this`received
      ensures received == if lost || Some(c.id) == exclude then old(received)
                          else old(received)[c.id := old(received)[c.id] + [m]]
      ensures lost ==> Some(c.id) != exclude
    {
      if Some(c.id) == exclude { return false; }
      var ok := Send(c, m);
      return !ok;
    }

    /** First half of a delivery: each socket of the room but the excluded one is offered the frame once. */
    method OfferAll(p: ProjectId, m: Message, exclude: Option<ConnId>) returns (dead: seq<Connection>)
      requires Sound(State())
      modifies this`received
      ensures State() == Offering(old(State()), p, m, exclude, Ids(dead))
      ensures forall c :: c in dead ==> c in Room(p) && Some(c.id) != exclude
      ensures forall i :: 0 <= i < |dead| ==> dead[i].project == p
    {
      var room := Room(p);
      ghost var was := State();
      assert forall k :: 0 <= k < |room| ==> room[k].project == p && room[k].id in received;
      dead := [];
      var i := 0;
      while i < |room|
        invariant 0 <= i <= |room| && OfferedUpTo(was.received, received, room, i, m, exclude, dead)
      {
        OfferNext(was.received, received, room, i, m, exclude, dead);
        var lost := Offer(room[i], m, exclude);
        if lost { dead := dead + [room[i]]; }
        i := i + 1;
      }
      OfferedAll(was, received, p, m, exclude, dead);
      assert room[..|room|] == room;
    }

    /** Second half: the dead are struck from the presence hash and popped, without any broadcast. */
    method Reap(p: ProjectId, dead: seq<Connection>)
      requires Sound(State()) && (forall i :: 0 <= i < |dead| ==> dead[i].project == p)
      modifies this`rooms, this`hash
      ensures Sound(State()) && State() == Reaped(old(State()), redis, p, Ids(dead))
    {
      ReapNobody(State(), redis, p);
      assert Ids(dead[..0]) == {};
      var i := 0;
      while i < |dead|
        invariant 0 <= i <= |dead| && Sound(State())
        invariant State() == Reaped(old(State()), redis, p, Ids(dead[..i]))
      {
        ForgetPresence(dead[i]);
        Pop(dead[i]);
        ReapTwice(old(State()), redis, p, Ids(dead[..i]), {dead[i].id});
        assert Ids(dead[..i + 1]) == Ids(dead[..i]) + {dead[i].id};
        i := i + 1;
      }
      assert dead[..|dead|] == dead;
    }

    /** Delivers one frame to this worker's sockets and reaps those it finds dead. The recursion ends
        because every nested round starts from a smaller room. `dies` are the sends that failed. */
    method DeliverLocal(p: ProjectId, m: Message, exclude: Option<ConnId>)
        returns (dead: set<ConnId>, ghost rosters: seq<seq<Person>>, ghost dies: Script)
      requires Sound(State())
      modifies this`rooms, this`hash, this`received, this`published
      decreases |Room(p)|, 0
      ensures Delivered(State(), dead, rosters) == Deliver(old(State()), redis, p, m, exclude, dies)
      ensures Delivers(old(State()), Delivered(State(), dead, rosters), redis, p, m, exclude)
    {
      ghost var before := State();
      var lost := OfferAll(p, m, exclude);
      LostIds(RoomIn(before.rooms, p), lost);
      Reap(p, lost);
      if lost == [] {
        dead, rosters, dies := {}, [], [];
        assert Ids(lost) == {};
      } else {
        ghost var reaped := State();
        WithoutShrinks(before.rooms[p], lost[0], Ids(lost));
        var roster := PresenceSnapshot(p);
        var more, nested, rest := Broadcast(p, Presence(roster), None);
        dead, rosters, dies := Ids(lost) + more, [roster] + nested, [Ids(lost)] + rest;
        assert dies[1..] == rest;
        LostFirst(before, p, exclude, Ids(lost), rest);
      }
      DeliverLaws(before, redis, p, m, exclude, dies);
    }

    /** Local delivery, then one copy on the bus, after whatever the delivery itself published. */
    method Broadcast(p: ProjectId, m: Message, exclude: Option<ConnId>)
        returns (dead: set<ConnId>, ghost rosters: seq<seq<Person>>, ghost dies: Script)
      requires Sound(State())
      modifies this`rooms, this`hash, this`received, this`published
      decreases |Room(p)|, 1
      ensures Delivered(State(), dead, rosters) == Cast(old(State()), redis, p, m, exclude, dies)
      ensures Sound(State())
    {
      dead, rosters, dies := DeliverLocal(p, m, exclude);
      Publish(Relay(p, exclude, m));
    }

    /** Tells the room what happened to c and then who is in it; c hears neither. */
    method Announce(c: Connection, news: Message) returns (members: seq<Person>, ghost dies: (Script, Script))
      requires Sound(State())
      modifies this`rooms, this`hash, this`received, this`published
      ensures Sound(State())
      ensures var a := Announcing(old(State()), redis, c, news, dies); State() == a.state && members == a.members
    {
      var _, _, first := Broadcast(c.project, news, Some(c.id));
      members := PresenceSnapshot(c.project);
      var _, _, second := Broadcast(c.project, Presence(members), Some(c.id));
      dies := (first, second);
    }

    method Subscribe(p: ProjectId)
      modifies this`subscribed
      ensures subscribed == if redis then old(subscribed) + {p} else old(subscribed)
    {
      if redis { subscribed := subscribed + {p}; }
    }

    method Register(c: Connection)
      requires Sound(State()) && Listening(State(), redis) && c.id !in received
      modifies this`rooms, this`hash, this`received, this`subscribed
      ensures State() == Joined(old(State()), redis, c) && Sound(State()) && Listening(State(), redis)
    {
      JoinedSound(State(), redis, c);
      var firstInRoom := Room(c.project) == [];
      rooms := rooms[c.project := Room(c.project) + [c]];
      received := received[c.id := []];
      if firstInRoom { Subscribe(c.project); }
      if redis {
        hash := hash[c.project := (if c.project in hash then hash[c.project] else []) + [Describe(c)]];
      }
    }

    /** Registers a socket under a fresh id, subscribes for the first one of a room, and tells the room;
        returns the roster the socket is greeted with. */
    method Join(c: Connection) returns (members: seq<Person>, ghost dies: (Script, Script), ghost dead: set<ConnId>)
      requires Sound(State()) && Listening(State(), redis) && c.id !in received
      modifies this
      ensures Sound(State()) && Listening(State(), redis)
      ensures var a := Announcing(Joined(old(State()), redis, c), redis, c, MemberJoined(Describe(c)), dies);
              && State() == a.state && members == a.members
              && Announces(Joined(old(State()), redis, c), a, redis, c, MemberJoined(Describe(c)))
      ensures JoinedWith(old(State()), State(), redis, c, dead)
      ensures c in Room(c.project) ==> RowOf(members, c.user).Some?
    {
      ghost var before := State();
      Register(c);
      ghost var joined := State();
      members, dies := Announce(c, MemberJoined(Describe(c)));
      AnnounceLaws(joined, redis, c, MemberJoined(Describe(c)), dies);
      dead := JoinLaws(before, redis, c, dies);
    }

    /** Strikes one socket and tells the room. */
    method Leave(c: Connection) returns (ghost dies: (Script, Script), ghost dead: set<ConnId>)
      requires Sound(State())
      modifies this`rooms, this`hash, this`received, this`published
      ensures State() == Leaving(old(State()), redis, c, dies).state && Sound(State())
      ensures Announces(Reaped(old(State()), redis, c.project, {c.id}), Leaving(old(State()), redis, c, dies),
                        redis, c, MemberLeft(Describe(c)))
      ensures LeftWith(old(State()), State(), redis, c, dead)
    {
      ghost var before := State();
      ForgetPresence(c);
      Pop(c);
      ghost var struck := State();
      assert struck == Reaped(before, redis, c.project, {c.id});
      var _, scripts := Announce(c, MemberLeft(Describe(c)));
      dies := scripts;
      AnnounceLaws(struck, redis, c, MemberLeft(Describe(c)), dies);
      dead := LeaveSettles(before, redis, c, dies);
    }

    /** Closes every socket one person has open on a project. The instruction to the other workers goes
        out only for a local request, never in answer to theirs, so an eviction cannot echo. */
    method DisconnectUser(p: ProjectId, user: UserId, localOnly: bool)
        returns (closed: nat, ghost gone: set<ConnId>, ghost dies: seq<(Script, Script)>)
      requires Sound(State())
      modifies this`rooms, this`hash, this`received, this`published
      ensures Sound(State()) && |dies| == |old(Room(p))|
      ensures var e := Evicting(old(State()), redis, user, old(Room(p)), dies);
              && State() == (if localOnly then e.state else OnBus(e.state, redis, AccessRevoked(p, user)))
              && closed == e.closed == Tabs(Describes(old(Room(p))), user)
              && gone == e.gone && SameRooms(State(), Reaped(old(State()), redis, p, gone))
              && RelaysOnly(old(published), e.state.published)
      ensures forall c :: c in Room(p) ==> c in old(Room(p)) && c.user != user
      ensures redis ==> forall e :: e in HashOf(State(), p) ==>
                && e in old(HashOf(State(), p))
                && forall c :: c in old(Room(p)) && c.user == user ==> c.id != e.connection
    {
      var room := Room(p);
      closed, dies := CloseAll(p, user, room);
      gone := Evicting(old(State()), redis, user, room, dies).gone;
      EvictLaws(old(State()), redis, p, user, room, dies);
      EvictedAll(old(State()), redis, p, user, gone);
      EvictSettles(old(State()), redis, p, user, dies);
      if !localOnly {
        Publish(AccessRevoked(p, user));
      }
    }

    method CloseAll(p: ProjectId, user: UserId, room: seq<Connection>)
        returns (closed: nat, ghost dies: seq<(Script, Script)>)
      requires Sound(State()) && forall i :: 0 <= i < |room| ==> room[i].project == p
      modifies this`rooms, this`hash, this`received, this`published
      ensures Sound(State()) && |dies| == |room|
      ensures var e := Evicting(old(State()), redis, user, room, dies); State() == e.state && closed == e.closed
    {
      closed, dies := 0, [];
      var i := 0;
      while i < |room|
        invariant 0 <= i <= |room| && Sound(State()) && |dies| == i
        invariant State() == Evicting(old(State()), redis, user, room[..i], dies).state
        invariant closed == Evicting(old(State()), redis, user, room[..i], dies).closed
      {
        assert room[..i + 1][..i] == room[..i];
        ghost var script: (Script, Script) := ([], []);
        if room[i].user == user {
          var told, _ := Leave(room[i]);
          script := told;
          closed := closed + 1;
        }
        dies := dies + [script];
        assert dies[..i] == dies[..|dies| - 1];
        i := i + 1;
      }
      assert room[..|room|] == room;
    }
  }
}
