/** One worker's hub inside the cluster: what a broadcast, a join and a departure do to this worker's rooms and
    sockets is what a run of the cluster machine does, for the sends that failed. */
module HubInCluster {
  import opened Wrappers
  import D = Delivery
  import C = Cluster

  type Id = nat

  predicate OnWorker(t: C.Cluster, w: C.Worker, id: Id) {
    id in t.room && id in t.seats && t.seats[id].worker == w
  }

  /** Frames still to be offered come from broadcasts that were made. Any worker may be in the middle of
      delivering some. */
  ghost predicate Dated(t: C.Cluster) {
    forall c, b :: c in t.todo && b in t.todo[c] ==> b < |t.posts|
  }

  /** The cluster's worker w is this hub, as far as one project goes: the same sockets are registered and
      the channel is listened to on both sides or neither. */
  ghost predicate Stands(s: D.HubState, redis: bool, p: Id, w: C.Worker, t: C.Cluster) {
    && C.Shaped(t) && Dated(t)
    && (forall id: Id :: id in D.Ids(D.RoomIn(s.rooms, p)) <==> OnWorker(t, w, id))
    && (redis ==> (p in s.subscribed <==> w in t.inbox))
  }

  // ---- runs put together ----

  lemma {:induction false} Append(t: C.Cluster, es: seq<C.Step>, fs: seq<C.Step>)
    requires C.ValidRun(t, es) && C.ValidRun(C.Run(t, es), fs)
    ensures C.ValidRun(t, es + fs) && C.Run(t, es + fs) == C.Run(C.Run(t, es), fs)
    decreases |es|
  {
    if es == [] {
      assert es + fs == fs;
    } else {
      assert (es + fs)[1..] == es[1..] + fs;
      Append(C.Next(t, es[0]), es[1..], fs);
    }
  }

  lemma OneStep(t: C.Cluster, e: C.Step)
    requires C.Enabled(t, e)
    ensures C.ValidRun(t, [e]) && C.Run(t, [e]) == C.Next(t, e)
  {
    assert [e][1..] == [];
    assert C.ValidRun(C.Next(t, e), []) && C.Run(C.Next(t, e), []) == C.Next(t, e);
  }

  lemma Prepend(t: C.Cluster, e: C.Step, es: seq<C.Step>)
    requires C.Enabled(t, e) && C.ValidRun(C.Next(t, e), es)
    ensures C.ValidRun(t, [e] + es) && C.Run(t, [e] + es) == C.Run(C.Next(t, e), es)
  {
    assert ([e] + es)[1..] == es;
  }

  // ---- the parts of a delivery ----

  type Frames = map<Id, multiset<C.PostId>>

  function Cleared(todo: Frames, waiting: set<Id>, b: C.PostId): Frames {
    map c | c in todo :: if c in waiting then todo[c] - multiset{b} else todo[c]
  }

  function Arrived(got: Frames, reached: set<Id>, b: C.PostId): Frames {
    map c | c in got :: if c in reached then got[c] + multiset{b} else got[c]
  }

  /** Every frame listed has been offered; it arrived where the send did not fail. */
  function Offered(t: C.Cluster, waiting: set<Id>, b: C.PostId, lost: set<Id>): C.Cluster {
    t.(todo := Cleared(t.todo, waiting, b), got := Arrived(t.got, waiting - lost, b))
  }

  lemma ClearedNext(todo: Frames, waiting: set<Id>, b: C.PostId, c: Id)
    requires c in waiting && c in todo
    ensures Cleared(todo[c := todo[c] - multiset{b}], waiting - {c}, b) == Cleared(todo, waiting, b)
  {
  }

  lemma ArrivedNext(got: Frames, reached: set<Id>, b: C.PostId, c: Id)
    requires c in got
    ensures c in reached ==> Arrived(got[c := got[c] + multiset{b}], reached - {c}, b) == Arrived(got, reached, b)
  {
  }

  lemma OfferedNext(t: C.Cluster, waiting: set<Id>, b: C.PostId, lost: set<Id>, c: Id)
    requires c in waiting && c in t.todo && c in t.got && b in t.todo[c]
    ensures Offered(C.Next(t, C.Offer(c, b, c !in lost)), waiting - {c}, b, lost) == Offered(t, waiting, b, lost)
  {
    var t1 := C.Next(t, C.Offer(c, b, c !in lost));
    assert t1.todo == t.todo[c := t.todo[c] - multiset{b}];
    ClearedNext(t.todo, waiting, b, c);
    if c in lost {
      assert t1.got == t.got && waiting - {c} - lost == waiting - lost;
    } else {
      assert t1.got == t.got[c := t.got[c] + multiset{b}] && waiting - {c} - lost == waiting - lost - {c};
      ArrivedNext(t.got, waiting - lost, b, c);
    }
  }

  lemma OffersRun(t: C.Cluster, waiting: set<Id>, b: C.PostId, lost: set<Id>) returns (es: seq<C.Step>)
    requires forall c :: c in waiting ==> c in t.todo && c in t.got && b in t.todo[c]
    ensures C.ValidRun(t, es) && C.Run(t, es) == Offered(t, waiting, b, lost)
    decreases |waiting|
  {
    if waiting == {} {
      es := [];
      assert Cleared(t.todo, {}, b) == t.todo && Arrived(t.got, {} - lost, b) == t.got;
    } else {
      var c :| c in waiting;
      var e := C.Offer(c, b, c !in lost);
      OfferedNext(t, waiting, b, lost, c);
      var rest := OffersRun(C.Next(t, e), waiting - {c}, b, lost);
      Prepend(t, e, rest);
      es := [e] + rest;
    }
  }

  /** Same sockets, frames and bus; some have left the room. */
  ghost predicate Left(t: C.Cluster, u: C.Cluster, gone: set<Id>) {
    && u == t.(room := t.room - gone, seats := u.seats) && u.seats.Keys == t.seats.Keys
    && forall c :: c in t.seats ==> u.seats[c].worker == t.seats[c].worker
  }

  lemma LeavesRun(t: C.Cluster, gone: set<Id>) returns (es: seq<C.Step>)
    requires C.Shaped(t)
    ensures C.ValidRun(t, es) && Left(t, C.Run(t, es), gone)
    decreases |gone|
  {
    if gone == {} {
      es := [];
      assert t.room - gone == t.room;
    } else {
      var c :| c in gone;
      var t1 := C.Next(t, C.Leave(c));
      assert t1.room == t.room - {c};
      var rest := LeavesRun(t1, gone - {c});
      Prepend(t, C.Leave(c), rest);
      es := [C.Leave(c)] + rest;
      assert t.room - {c} - (gone - {c}) == t.room - gone;
    }
  }

  // ---- one round ----

  function Audience(t: C.Cluster, w: C.Worker, exclude: Option<Id>): set<Id> {
    set c | c in t.room && OnWorker(t, w, c) && Some(c) != exclude
  }

  /** One more post from w, offered to its sockets; the lost ones have left. */
  ghost predicate Round(t: C.Cluster, u: C.Cluster, w: C.Worker, exclude: Option<Id>, lost: set<Id>) {
    && C.Shaped(u) && Left(t.(posts := u.posts, got := u.got), u, lost)
    && u.posts == t.posts + [C.Post(w, exclude, false)]
    && u.got == Arrived(t.got, Audience(t, w, exclude) - lost, |t.posts|)
  }

  lemma ListedToAll(t: C.Cluster, w: C.Worker, exclude: Option<Id>)
    requires C.Shaped(t)
    ensures var u := C.Next(t, C.Broadcast(w, exclude));
            && C.Shaped(u) && u == t.(posts := t.posts + [C.Post(w, exclude, false)], todo := u.todo)
            && u.todo == Arrived(t.todo, Audience(t, w, exclude), |t.posts|)
  {
    C.StepKeepsShape(t, C.Broadcast(w, exclude));
    ListedArrives(t, w, exclude, |t.posts|);
  }

  lemma ListedArrives(t: C.Cluster, w: C.Worker, exclude: Option<Id>, b: C.PostId)
    ensures C.Listed(t, w, exclude, b) == Arrived(t.todo, Audience(t, w, exclude), b)
  {
    var waiting := Audience(t, w, exclude);
    forall c | c in t.todo ensures C.Listed(t, w, exclude, b)[c] == Arrived(t.todo, waiting, b)[c] {
      assert c in waiting <==> OnWorker(t, w, c) && Some(c) != exclude;
    }
  }

  lemma RoundRuns(t: C.Cluster, w: C.Worker, exclude: Option<Id>, lost: set<Id>) returns (es: seq<C.Step>)
    requires C.Shaped(t) && lost <= Audience(t, w, exclude)
    ensures C.ValidRun(t, es) && Round(t, C.Run(t, es), w, exclude, lost)
  {
    var e := C.Broadcast(w, exclude);
    var t1 := C.Next(t, e);
    ListedToAll(t, w, exclude);
    var waiting := Audience(t, w, exclude);
    var offers := OffersRun(t1, waiting, |t.posts|, lost);
    var t2 := C.Run(t1, offers);
    ClearedAgain(t.todo, waiting, |t.posts|);
    var leaves := LeavesRun(t2, lost);
    Append(t1, offers, leaves);
    Prepend(t, e, offers + leaves);
    es := [e] + (offers + leaves);
  }

  /** Listing a frame and offering it leaves the other frames waiting as they were. */
  lemma ClearedAgain(todo: Frames, waiting: set<Id>, b: C.PostId)
    ensures Cleared(Arrived(todo, waiting, b), waiting, b) == todo
  {
    forall c | c in todo ensures Cleared(Arrived(todo, waiting, b), waiting, b)[c] == todo[c] {
      assert todo[c] + multiset{b} - multiset{b} == todo[c];
    }
  }

  lemma RoundStands(s: D.HubState, redis: bool, p: Id, w: C.Worker, t: C.Cluster, u: C.Cluster, m: D.Message,
                    exclude: Option<Id>, lost: set<Id>)
    requires Stands(s, redis, p, w, t) && Round(t, u, w, exclude, lost)
    ensures Stands(D.Reaped(D.Offering(s, p, m, exclude, lost), redis, p, lost), redis, p, w, u)
  {
    var s' := D.Reaped(D.Offering(s, p, m, exclude, lost), redis, p, lost);
    D.ReapedIds(D.Offering(s, p, m, exclude, lost), redis, p, lost);
    forall id: Id ensures id in D.Ids(D.RoomIn(s'.rooms, p)) <==> OnWorker(u, w, id) {
      assert id in D.Ids(D.RoomIn(s.rooms, p)) <==> OnWorker(t, w, id);
    }
  }

  // ---- a whole delivery ----

  function RosterPosts(w: C.Worker, n: nat, published: bool): seq<C.Post> {
    if n == 0 then [] else [C.Post(w, None, published)] + RosterPosts(w, n - 1, published)
  }

  function Copies(first: nat, upto: nat): multiset<C.PostId>
    decreases upto - first
  {
    if first >= upto then multiset{} else multiset{first} + Copies(first + 1, upto)
  }

  /** What a socket still there has had of the new posts: all, but for the first if that excludes it. */
  function Share(first: nat, upto: nat, exclude: Option<Id>, c: Id): multiset<C.PostId> {
    (if exclude == Some(c) then multiset{} else multiset{first}) + Copies(first + 1, upto)
  }

  /** From t to u: a frame and n rosters more, each survivor on w has its share of them, and nobody new. */
  ghost predicate Broadcasts(t: C.Cluster, u: C.Cluster, w: C.Worker, exclude: Option<Id>, own: bool, n: nat,
                             redis: bool) {
    && u.posts == t.posts + [C.Post(w, exclude, own)] + RosterPosts(w, n, redis)
    && u.got.Keys == t.got.Keys && u.room <= t.room && u.todo == t.todo
    && (forall c: Id :: OnWorker(u, w, c) ==> OnWorker(t, w, c))
    && (forall c: Id :: c in t.got && OnWorker(u, w, c) ==>
          u.got[c] == t.got[c] + Share(|t.posts|, |u.posts|, exclude, c))
  }

  lemma RoundBroadcasts(t: C.Cluster, u: C.Cluster, w: C.Worker, exclude: Option<Id>, lost: set<Id>, redis: bool)
    requires Round(t, u, w, exclude, lost)
    ensures Broadcasts(t, u, w, exclude, false, 0, redis)
  {
    var k := |t.posts|;
    assert RosterPosts(w, 0, redis) == [] && |u.posts| == k + 1;
    forall c: Id | OnWorker(u, w, c)
      ensures OnWorker(t, w, c) && (Some(c) != exclude ==> c in Audience(t, w, exclude))
    {
      assert c in t.seats && c in t.room - lost;
    }
    forall c: Id | c in t.got && OnWorker(u, w, c) ensures u.got[c] == t.got[c] + Share(k, k + 1, exclude, c) {
      assert Copies(k + 1, k + 1) == multiset{};
      OneShare(t.got, Audience(t, w, exclude) - lost, k, exclude, c);
    }
  }

  lemma OneShare(got: Frames, reached: set<Id>, k: nat, exclude: Option<Id>, c: Id)
    requires c in got && (c in reached <==> exclude != Some(c))
    ensures Arrived(got, reached, k)[c] == got[c] + Share(k, k + 1, exclude, c)
  {
    assert Copies(k + 1, k + 1) == multiset{};
  }

  lemma NestedBroadcasts(t: C.Cluster, t1: C.Cluster, u: C.Cluster, w: C.Worker, exclude: Option<Id>, n: nat,
                         redis: bool)
    requires Broadcasts(t, t1, w, exclude, false, 0, redis) && Broadcasts(t1, u, w, None, redis, n, redis)
    ensures Broadcasts(t, u, w, exclude, false, n + 1, redis)
  {
    var k := |t.posts|;
    assert RosterPosts(w, 0, redis) == [] && |t1.posts| == k + 1;
    assert RosterPosts(w, n + 1, redis) == [C.Post(w, None, redis)] + RosterPosts(w, n, redis);
    forall c: Id | c in t.got && OnWorker(u, w, c) ensures u.got[c] == t.got[c] + Share(k, |u.posts|, exclude, c) {
      assert OnWorker(t1, w, c);
      assert Copies(k + 1, k + 1) == multiset{};
      assert Copies(k + 1, |u.posts|) == multiset{k + 1} + Copies(k + 2, |u.posts|);
    }
  }

  /** Every delivery of the hub, whatever sends fail, is a run of the cluster machine by its worker: the same
      sockets are left, each of them with the frame (unless it excludes them) and every roster, and the posts
      are the frame and the rosters. */
  lemma DeliverRuns(s: D.HubState, redis: bool, p: Id, m: D.Message, exclude: Option<Id>, dies: D.Script,
                    w: C.Worker, t: C.Cluster) returns (es: seq<C.Step>)
    requires Stands(s, redis, p, w, t)
    ensures C.ValidRun(t, es)
    ensures var d, u := D.Deliver(s, redis, p, m, exclude, dies), C.Run(t, es);
            Stands(d.state, redis, p, w, u) && Broadcasts(t, u, w, exclude, false, |d.rosters|, redis)
    decreases |dies|, 0
  {
    var lost := D.Lost(s, p, exclude, dies);
    AudienceStands(s, redis, p, w, t, exclude, dies);
    es := RoundRuns(t, w, exclude, lost);
    var t1 := C.Run(t, es);
    RoundStands(s, redis, p, w, t, t1, m, exclude, lost);
    RoundBroadcasts(t, t1, w, exclude, lost, redis);
    if lost == {} {
      assert D.Deliver(s, redis, p, m, exclude, dies).rosters == [];
    } else {
      var reaped := D.Reaped(D.Offering(s, p, m, exclude, lost), redis, p, lost);
      var roster := D.Presence(D.SnapshotOf(reaped, redis, p));
      var rest := CastRuns(reaped, redis, p, roster, None, dies[1..], w, t1);
      Append(t, es, rest);
      DeliverUnfolds(s, redis, p, m, exclude, dies);
      NestedBroadcasts(t, t1, C.Run(t1, rest), w, exclude,
                       |D.Cast(reaped, redis, p, roster, None, dies[1..]).rosters|, redis);
      es := es + rest;
    }
  }

  lemma DeliverUnfolds(s: D.HubState, redis: bool, p: Id, m: D.Message, exclude: Option<Id>, dies: D.Script)
    requires D.Lost(s, p, exclude, dies) != {}
    ensures var lost := D.Lost(s, p, exclude, dies);
            var reaped := D.Reaped(D.Offering(s, p, m, exclude, lost), redis, p, lost);
            var d := D.Deliver(s, redis, p, m, exclude, dies);
            var rest := D.Cast(reaped, redis, p, D.Presence(D.SnapshotOf(reaped, redis, p)), None, dies[1..]);
            d.state == rest.state && |d.rosters| == |rest.rosters| + 1
  {
  }

  lemma AudienceStands(s: D.HubState, redis: bool, p: Id, w: C.Worker, t: C.Cluster, exclude: Option<Id>,
                       dies: D.Script)
    requires Stands(s, redis, p, w, t)
    ensures D.Lost(s, p, exclude, dies) <= Audience(t, w, exclude)
  {
    forall id | id in D.Lost(s, p, exclude, dies) ensures id in Audience(t, w, exclude) {
      assert id in D.Ids(D.RoomIn(s.rooms, p)) <==> OnWorker(t, w, id);
    }
  }

  /** So is every broadcast; with Redis its frame goes on the bus last. */
  lemma CastRuns(s: D.HubState, redis: bool, p: Id, m: D.Message, exclude: Option<Id>, dies: D.Script,
                 w: C.Worker, t: C.Cluster) returns (es: seq<C.Step>)
    requires Stands(s, redis, p, w, t)
    ensures C.ValidRun(t, es)
    ensures var d, u := D.Cast(s, redis, p, m, exclude, dies), C.Run(t, es);
            Stands(d.state, redis, p, w, u) && Broadcasts(t, u, w, exclude, redis, |d.rosters|, redis)
    decreases |dies|, 1
  {
    es := DeliverRuns(s, redis, p, m, exclude, dies, w, t);
    if redis {
      var n := |D.Deliver(s, redis, p, m, exclude, dies).rosters|;
      PublishedLast(t, C.Run(t, es), w, exclude, n);
      OneStep(C.Run(t, es), C.Publish(|t.posts|));
      Append(t, es, [C.Publish(|t.posts|)]);
      es := es + [C.Publish(|t.posts|)];
    }
  }

  lemma PublishedLast(t: C.Cluster, u: C.Cluster, w: C.Worker, exclude: Option<Id>, n: nat)
    requires C.Shaped(u) && Dated(t) && Broadcasts(t, u, w, exclude, false, n, true)
    ensures C.Enabled(u, C.Publish(|t.posts|))
    ensures var v := C.Next(u, C.Publish(|t.posts|));
            && Broadcasts(t, v, w, exclude, true, n, true) && v == u.(posts := v.posts, inbox := v.inbox)
            && v.inbox.Keys == u.inbox.Keys
  {
    var v := C.Next(u, C.Publish(|t.posts|));
    assert v.posts == t.posts + [C.Post(w, exclude, true)] + RosterPosts(w, n, true);
  }

  // ---- joining and leaving ----

  /** Two broadcasts that exclude c, with a state of the cluster in between. */
  ghost predicate AnnouncedBy(t: C.Cluster, mid: C.Cluster, u: C.Cluster, w: C.Worker, c: Id, a: D.Announcement,
                              redis: bool) {
    && Broadcasts(t, mid, w, Some(c), redis, |a.first.rosters|, redis)
    && Broadcasts(mid, u, w, Some(c), redis, |a.second.rosters|, redis)
  }

  lemma AnnounceRuns(s: D.HubState, redis: bool, c: D.Connection, news: D.Message, dies: (D.Script, D.Script),
                     w: C.Worker, t: C.Cluster) returns (es: seq<C.Step>, mid: C.Cluster)
    requires Stands(s, redis, c.project, w, t)
    ensures C.ValidRun(t, es)
    ensures var a := D.Announcing(s, redis, c, news, dies);
            Stands(a.state, redis, c.project, w, C.Run(t, es)) && AnnouncedBy(t, mid, C.Run(t, es), w, c.id, a, redis)
  {
    var first := D.Cast(s, redis, c.project, news, Some(c.id), dies.0);
    var members := D.SnapshotOf(first.state, redis, c.project);
    es := CastRuns(s, redis, c.project, news, Some(c.id), dies.0, w, t);
    mid := C.Run(t, es);
    var more := CastRuns(first.state, redis, c.project, D.Presence(members), Some(c.id), dies.1, w, mid);
    Append(t, es, more);
    es := es + more;
  }

  /** The cluster once c has joined on w, and w listens to the channel from its first socket on. */
  ghost predicate Seated(t: C.Cluster, u: C.Cluster, w: C.Worker, c: Id)
    requires c !in t.seats
  {
    && u == C.Next(t, C.Join(c, w)).(inbox := u.inbox)
    && t.inbox.Keys <= u.inbox.Keys <= t.inbox.Keys + {w}
  }

  lemma SeatingRuns(s: D.HubState, redis: bool, c: D.Connection, w: C.Worker, t: C.Cluster) returns (es: seq<C.Step>)
    requires Stands(s, redis, c.project, w, t) && c.id !in t.seats
    ensures C.ValidRun(t, es) && Seated(t, C.Run(t, es), w, c.id)
    ensures Stands(D.Joined(s, redis, c), redis, c.project, w, C.Run(t, es))
  {
    var t1 := C.Next(t, C.Join(c.id, w));
    JoinedStands(s, redis, c, w, t);
    OneStep(t, C.Join(c.id, w));
    es := [C.Join(c.id, w)];
    if redis && D.RoomIn(s.rooms, c.project) == [] && w !in t.inbox {
      OneStep(t1, C.Subscribe(w));
      Append(t, es, [C.Subscribe(w)]);
      es := es + [C.Subscribe(w)];
    }
  }

  /** A seat taken puts the same socket in both rooms; the subscription is still to be made. */
  lemma JoinedStands(s: D.HubState, redis: bool, c: D.Connection, w: C.Worker, t: C.Cluster)
    requires Stands(s, redis, c.project, w, t) && c.id !in t.seats
    ensures var t1 := C.Next(t, C.Join(c.id, w));
            Stands(D.Joined(s, redis, c).(subscribed := s.subscribed), redis, c.project, w, t1)
  {
    var t1 := C.Next(t, C.Join(c.id, w));
    C.StepKeepsShape(t, C.Join(c.id, w));
    JoinedIds(s, redis, c);
    forall id: Id ensures id in D.Ids(D.RoomIn(D.Joined(s, redis, c).rooms, c.project)) <==> OnWorker(t1, w, id) {
      assert id in D.Ids(D.RoomIn(s.rooms, c.project)) <==> OnWorker(t, w, id);
    }
  }

  lemma JoinedIds(s: D.HubState, redis: bool, c: D.Connection)
    ensures D.Ids(D.RoomIn(D.Joined(s, redis, c).rooms, c.project)) == D.Ids(D.RoomIn(s.rooms, c.project)) + {c.id}
  {
    var room := D.RoomIn(s.rooms, c.project);
    var more := room + [c];
    forall id ensures id in D.Ids(more) <==> id in D.Ids(room) + {c.id} {
      if id in D.Ids(room) {
        var i :| 0 <= i < |room| && room[i].id == id;
        assert more[i].id == id;
      }
      assert more[|room|].id == c.id;
    }
  }

  /** Joining is a run: a seat, the subscription if it is the worker's first, and two broadcasts. */
  lemma JoinRuns(s: D.HubState, redis: bool, c: D.Connection, dies: (D.Script, D.Script), w: C.Worker, t: C.Cluster)
      returns (es: seq<C.Step>, seated: C.Cluster, mid: C.Cluster)
    requires Stands(s, redis, c.project, w, t) && c.id !in t.seats
    ensures C.ValidRun(t, es) && Seated(t, seated, w, c.id)
    ensures var a := D.Announcing(D.Joined(s, redis, c), redis, c, D.MemberJoined(D.Describe(c)), dies);
            && Stands(a.state, redis, c.project, w, C.Run(t, es))
            && AnnouncedBy(seated, mid, C.Run(t, es), w, c.id, a, redis)
  {
    es := SeatingRuns(s, redis, c, w, t);
    seated := C.Run(t, es);
    var more;
    more, mid := AnnounceRuns(D.Joined(s, redis, c), redis, c, D.MemberJoined(D.Describe(c)), dies, w, seated);
    Append(t, es, more);
    es := es + more;
  }

  lemma StrikingStands(s: D.HubState, redis: bool, c: D.Connection, w: C.Worker, t: C.Cluster)
    requires Stands(s, redis, c.project, w, t)
    ensures Stands(D.Reaped(s, redis, c.project, {c.id}), redis, c.project, w, C.Next(t, C.Leave(c.id)))
  {
    D.ReapedIds(s, redis, c.project, {c.id});
    C.StepKeepsShape(t, C.Leave(c.id));
    var s', t' := D.Reaped(s, redis, c.project, {c.id}), C.Next(t, C.Leave(c.id));
    forall id: Id ensures id in D.Ids(D.RoomIn(s'.rooms, c.project)) <==> OnWorker(t', w, id) {
      assert id in D.Ids(D.RoomIn(s.rooms, c.project)) <==> OnWorker(t, w, id);
    }
  }

  /** So is leaving, a first or a second time. */
  lemma LeaveRuns(s: D.HubState, redis: bool, c: D.Connection, dies: (D.Script, D.Script), w: C.Worker, t: C.Cluster)
      returns (es: seq<C.Step>, mid: C.Cluster)
    requires Stands(s, redis, c.project, w, t)
    ensures C.ValidRun(t, es)
    ensures var a := D.Leaving(s, redis, c, dies);
            && Stands(a.state, redis, c.project, w, C.Run(t, es))
            && AnnouncedBy(C.Next(t, C.Leave(c.id)), mid, C.Run(t, es), w, c.id, a, redis)
  {
    var t1 := C.Next(t, C.Leave(c.id));
    StrikingStands(s, redis, c, w, t);
    var more;
    more, mid := AnnounceRuns(D.Reaped(s, redis, c.project, {c.id}), redis, c, D.MemberLeft(D.Describe(c)), dies, w,
                              t1);
    Prepend(t, C.Leave(c.id), more);
    es := [C.Leave(c.id)] + more;
  }

  /** The sockets of one person on a list. */
  function Targets(room: seq<D.Connection>, user: Id): set<Id> {
    if room == [] then {}
    else
      var last := room[|room| - 1];
      Targets(room[..|room| - 1], user) + if last.user == user then {last.id} else {}
  }

  /** And evicting a person is the departures of their sockets, one after the other, and leaves none of them. */
  lemma EvictRuns(s: D.HubState, redis: bool, p: Id, user: Id, room: seq<D.Connection>,
                  dies: seq<(D.Script, D.Script)>, w: C.Worker, t: C.Cluster) returns (es: seq<C.Step>)
    requires Stands(s, redis, p, w, t) && |dies| == |room| && forall i :: 0 <= i < |room| ==> room[i].project == p
    ensures C.ValidRun(t, es) && Stands(D.Evicting(s, redis, user, room, dies).state, redis, p, w, C.Run(t, es))
    ensures C.Run(t, es).room <= t.room - Targets(room, user)
    decreases |room|
  {
    if room == [] {
      es := [];
    } else {
      var k := |room| - 1;
      es := EvictRuns(s, redis, p, user, room[..k], dies[..k], w, t);
      var sofar, u := D.Evicting(s, redis, user, room[..k], dies[..k]).state, C.Run(t, es);
      if room[k].user == user {
        var more := DepartureRuns(sofar, redis, room[k], dies[k], w, u);
        Append(t, es, more);
        es := es + more;
      }
    }
  }

  lemma DepartureRuns(s: D.HubState, redis: bool, c: D.Connection, dies: (D.Script, D.Script), w: C.Worker,
                      t: C.Cluster)
      returns (es: seq<C.Step>)
    requires Stands(s, redis, c.project, w, t)
    ensures C.ValidRun(t, es) && Stands(D.Leaving(s, redis, c, dies).state, redis, c.project, w, C.Run(t, es))
    ensures C.Run(t, es).room <= t.room - {c.id}
  {
    var mid;
    es, mid := LeaveRuns(s, redis, c, dies, w, t);
    assert C.Next(t, C.Leave(c.id)).room <= t.room - {c.id};
  }
}
