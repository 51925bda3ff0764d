/** Many workers on one project's channel: local delivery, the bus, and replay by the other workers.
    One worker holding every socket is the specification. */
module Cluster {
  import opened Wrappers

  type Worker = nat
  type ConnId = nat
  type PostId = nat

  /** Where a socket sits, and how many broadcasts had been made when it joined and when it left. */
  datatype Seat = Seat(worker: Worker, since: nat, until: Option<nat>)

  /** One call of `broadcast`: the worker it ran on, whom it excludes, and whether its copy has gone out. */
  datatype Post = Post(origin: Worker, exclude: Option<ConnId>, published: bool)

  /** `seats` remembers every socket that ever joined; `room` holds those registered. `todo` are the frames
      a delivery loop has listed for a socket and not offered yet, `got` the ones that arrived, and
      `inbox` what the bus keeps for each subscribed worker. */
  datatype Cluster = Cluster(seats: map<ConnId, Seat>, room: set<ConnId>, posts: seq<Post>,
                             todo: map<ConnId, multiset<PostId>>, got: map<ConnId, multiset<PostId>>,
                             inbox: map<Worker, multiset<PostId>>)

  const EMPTY := Cluster(map[], {}, [], map[], map[], map[])

  datatype Step =
    | Join(c: ConnId, w: Worker)
    | Subscribe(w: Worker)
    | Leave(c: ConnId)                                 // left, was evicted, or was reaped
    | Broadcast(w: Worker, exclude: Option<ConnId>)
    | Offer(c: ConnId, b: PostId, arrives: bool)       // one `send` of a delivery loop
    | Publish(b: PostId)
    | Replay(w: Worker, b: PostId)
    | Lose(w: Worker, b: PostId)

  /** A frame listed for everyone a delivery on worker w addresses: the room as it is now. */
  function Listed(s: Cluster, w: Worker, exclude: Option<ConnId>, b: PostId): map<ConnId, multiset<PostId>> {
    map c | c in s.todo ::
      if c in s.room && c in s.seats && s.seats[c].worker == w && Some(c) != exclude
      then s.todo[c] + multiset{b} else s.todo[c]
  }

  ghost predicate Enabled(s: Cluster, e: Step) {
    match e
    case Join(c, _) => c !in s.seats
    case Subscribe(w) => w !in s.inbox
    case Leave(_) => true
    case Broadcast(_, _) => true
    case Offer(c, b, _) => c in s.todo && c in s.got && b in s.todo[c]
    case Publish(b) => b < |s.posts| && !s.posts[b].published && forall c :: c in s.todo ==> b !in s.todo[c]
    case Replay(w, b) => w in s.inbox && b in s.inbox[w] && b < |s.posts|
    case Lose(w, b) => w in s.inbox && b in s.inbox[w]
  }

  function Next(s: Cluster, e: Step): Cluster
    requires Enabled(s, e)
  {
    match e
    case Join(c, w) =>
      s.(seats := s.seats[c := Seat(w, |s.posts|, None)], room := s.room + {c},
         todo := s.todo[c := multiset{}], got := s.got[c := multiset{}])
    case Subscribe(w) => s.(inbox := s.inbox[w := multiset{}])
    case Leave(c) =>
      if c !in s.room || c !in s.seats then s
      else s.(room := s.room - {c}, seats := s.seats[c := s.seats[c].(until := Some(|s.posts|))])
    case Broadcast(w, exclude) =>
      s.(posts := s.posts + [Post(w, exclude, false)], todo := Listed(s, w, exclude, |s.posts|))
    case Offer(c, b, arrives) =>
      s.(todo := s.todo[c := s.todo[c] - multiset{b}],
         got := if arrives then s.got[c := s.got[c] + multiset{b}] else s.got)
    case Publish(b) =>
      s.(posts := s.posts[b := s.posts[b].(published := true)],
         inbox := map w | w in s.inbox :: s.inbox[w] + multiset{b})
    case Replay(w, b) =>
      var taken := s.inbox[w := s.inbox[w] - multiset{b}];
      // a worker skips what it published itself
      if s.posts[b].origin == w then s.(inbox := taken)
      else s.(inbox := taken, todo := Listed(s, w, s.posts[b].exclude, b))
    case Lose(w, b) => s.(inbox := s.inbox[w := s.inbox[w] - multiset{b}])
  }

  ghost predicate ValidRun(s: Cluster, es: seq<Step>)
    decreases |es|
  {
    es == [] || (Enabled(s, es[0]) && ValidRun(Next(s, es[0]), es[1..]))
  }

  ghost function Run(s: Cluster, es: seq<Step>): Cluster
    requires ValidRun(s, es)
    decreases |es|
  {
    if es == [] then s else Run(Next(s, es[0]), es[1..])
  }

  // ---- never twice ----

  ghost predicate Shaped(s: Cluster) {
    s.todo.Keys == s.seats.Keys && s.got.Keys == s.seats.Keys && s.room <= s.seats.Keys
  }

  /** Copies of b on the bus still to be replayed to c's worker. */
  function Waiting(s: Cluster, c: ConnId, b: PostId): nat
    requires c in s.seats
  {
    var w := s.seats[c].worker;
    if w !in s.inbox || b >= |s.posts| || s.posts[b].origin == w then 0 else s.inbox[w][b]
  }

  /** What c has of b, or is about to be offered. */
  function Held(s: Cluster, c: ConnId, b: PostId): nat
    requires Shaped(s) && c in s.seats
  {
    s.todo[c][b] + s.got[c][b]
  }

  ghost predicate BusOk(s: Cluster, w: Worker, b: PostId)
    requires w in s.inbox
  {
    s.inbox[w][b] <= 1 && (b in s.inbox[w] ==> b < |s.posts| && s.posts[b].published)
  }

  /** One socket and one broadcast: at most one copy, only if meant for it, across workers only once
      published, and not when it had left before. */
  ghost predicate CopyOk(s: Cluster, c: ConnId, b: PostId)
    requires Shaped(s) && c in s.seats
  {
    && Held(s, c, b) + Waiting(s, c, b) <= 1
    && (Held(s, c, b) > 0 ==>
          && b < |s.posts| && s.posts[b].exclude != Some(c)
          && (s.posts[b].published || s.posts[b].origin == s.seats[c].worker)
          && (s.seats[c].until.Some? ==> b < s.seats[c].until.value))
    && (c in s.room <==> s.seats[c].until.None?)
    && s.seats[c].since <= |s.posts|
    && (s.seats[c].until.Some? ==> s.seats[c].until.value <= |s.posts|)
  }

  ghost predicate Orderly(s: Cluster) {
    && Shaped(s)
    && (forall w, b: nat :: w in s.inbox ==> BusOk(s, w, b))
    && (forall c, b: nat :: c in s.seats ==> CopyOk(s, c, b))
  }

  lemma StepKeepsShape(s: Cluster, e: Step)
    requires Shaped(s) && Enabled(s, e)
    ensures Shaped(Next(s, e))
  {
  }

  lemma StepKeepsBus(s: Cluster, e: Step, w: Worker, b: nat)
    requires Enabled(s, e) && w in Next(s, e).inbox
    requires w in s.inbox ==> BusOk(s, w, b)
    ensures BusOk(Next(s, e), w, b)
  {
    if e.Publish? { PublishKeepsBus(s, e.b, w, b); }
  }

  lemma PublishKeepsBus(s: Cluster, k: PostId, w: Worker, b: nat)
    requires Enabled(s, Publish(k)) && w in s.inbox && BusOk(s, w, b)
    ensures BusOk(Next(s, Publish(k)), w, b)
  {
    assert Next(s, Publish(k)).inbox[w] == s.inbox[w] + multiset{k};
  }

  /** The facts about one socket and one broadcast that a step starts from. */
  ghost predicate Before(s: Cluster, c: ConnId, b: PostId, w: Worker) {
    && Shaped(s)
    && (c in s.seats ==> CopyOk(s, c, b) && s.seats[c].worker == w)
    && (w in s.inbox ==> BusOk(s, w, b))
  }

  lemma BroadcastKeepsCopy(s: Cluster, c: ConnId, b: nat, w: Worker, origin: Worker, exclude: Option<ConnId>)
    requires Before(s, c, b, w) && Shaped(Next(s, Broadcast(origin, exclude))) && c in s.seats
    ensures CopyOk(Next(s, Broadcast(origin, exclude)), c, b)
  {
    var s' := Next(s, Broadcast(origin, exclude));
    assert s'.todo[c][b] <= s.todo[c][b] + if b == |s.posts| then 1 else 0;
    if b == |s.posts| { assert Held(s, c, b) == 0; }
  }

  lemma TakeKeepsCopy(s: Cluster, c: ConnId, b: nat, w: Worker, v: Worker, k: PostId)
    requires Before(s, c, b, w) && v in s.inbox && k in s.inbox[v] && c in s.seats
    ensures var s' := s.(inbox := s.inbox[v := s.inbox[v] - multiset{k}]);
            CopyOk(s', c, b) && (v == w && k == b ==> Waiting(s', c, b) == 0)
            && (v == w && k == b && s.posts[b].origin != w ==> Held(s, c, b) == 0)
  {
  }

  lemma ListingKeepsCopy(s: Cluster, c: ConnId, b: nat, v: Worker, k: PostId)
    requires Shaped(s) && c in s.seats && CopyOk(s, c, b) && k < |s.posts| && s.posts[k].published
    requires k == b && s.seats[c].worker == v ==> Held(s, c, b) + Waiting(s, c, b) == 0
    ensures Shaped(s.(todo := Listed(s, v, s.posts[k].exclude, k)))
    ensures CopyOk(s.(todo := Listed(s, v, s.posts[k].exclude, k)), c, b)
  {
  }

  lemma ReplayKeepsCopy(s: Cluster, c: ConnId, b: nat, w: Worker, v: Worker, k: PostId)
    requires Before(s, c, b, w) && Enabled(s, Replay(v, k)) && BusOk(s, v, k) && c in s.seats
    requires Shaped(Next(s, Replay(v, k)))
    ensures CopyOk(Next(s, Replay(v, k)), c, b)
  {
    TakeKeepsCopy(s, c, b, w, v, k);
    if s.posts[k].origin != v {
      ListingKeepsCopy(s.(inbox := s.inbox[v := s.inbox[v] - multiset{k}]), c, b, v, k);
    }
  }

  lemma PublishKeepsCopy(s: Cluster, k: PostId, c: ConnId, b: nat, w: Worker)
    requires Before(s, c, b, w) && Enabled(s, Publish(k)) && Shaped(Next(s, Publish(k))) && c in s.seats
    ensures CopyOk(Next(s, Publish(k)), c, b)
  {
    var s' := Next(s, Publish(k));
    assert Held(s', c, b) == Held(s, c, b);
  }

  lemma OfferKeepsCopy(s: Cluster, d: ConnId, k: PostId, arrives: bool, c: ConnId, b: nat, w: Worker)
    requires Before(s, c, b, w) && Enabled(s, Offer(d, k, arrives)) && Shaped(Next(s, Offer(d, k, arrives))) &&
             c in s.seats
    ensures CopyOk(Next(s, Offer(d, k, arrives)), c, b)
  {
    var s' := Next(s, Offer(d, k, arrives));
    assert Held(s', c, b) <= Held(s, c, b) && Waiting(s', c, b) == Waiting(s, c, b);
  }

  lemma SeatingKeepsCopy(s: Cluster, e: Step, c: ConnId, b: nat, w: Worker)
    requires e.Join? || e.Leave? || e.Subscribe?
    requires Before(s, c, b, w) && Enabled(s, e) && Shaped(Next(s, e)) && c in Next(s, e).seats
    requires Next(s, e).seats[c].worker == w
    ensures CopyOk(Next(s, e), c, b)
  {
  }

  lemma StepKeepsCopy(s: Cluster, e: Step, c: ConnId, b: nat, w: Worker)
    requires Before(s, c, b, w) && Enabled(s, e) && Shaped(Next(s, e)) && c in Next(s, e).seats
    requires Next(s, e).seats[c].worker == w && (e.Replay? ==> BusOk(s, e.w, e.b))
    ensures CopyOk(Next(s, e), c, b)
  {
    match e
    case Broadcast(origin, exclude) => BroadcastKeepsCopy(s, c, b, w, origin, exclude);
    case Replay(v, k) => ReplayKeepsCopy(s, c, b, w, v, k);
    case Lose(v, k) => TakeKeepsCopy(s, c, b, w, v, k);
    case Publish(k) => PublishKeepsCopy(s, k, c, b, w);
    case Offer(d, k, arrives) => OfferKeepsCopy(s, d, k, arrives, c, b, w);
    case _ => SeatingKeepsCopy(s, e, c, b, w);
  }

  lemma StepKeepsSeat(s: Cluster, e: Step, c: ConnId)
    requires Enabled(s, e) && c in s.seats
    ensures c in Next(s, e).seats && Next(s, e).seats[c].worker == s.seats[c].worker
  {
  }

  lemma StepKeepsOrder(s: Cluster, e: Step)
    requires Orderly(s) && Enabled(s, e)
    ensures Orderly(Next(s, e))
  {
    StepKeepsShape(s, e);
    var s' := Next(s, e);
    forall w, b: nat | w in s'.inbox ensures BusOk(s', w, b) { StepKeepsBus(s, e, w, b); }
    forall c, b: nat | c in s'.seats ensures CopyOk(s', c, b) {
      if c in s.seats { StepKeepsSeat(s, e, c); }
      StepKeepsCopy(s, e, c, b, s'.seats[c].worker);
    }
  }

  lemma {:induction false} RunKeepsOrder(s: Cluster, es: seq<Step>)
    requires Orderly(s) && ValidRun(s, es)
    ensures Orderly(Run(s, es))
    decreases |es|
  {
    if es != [] {
      StepKeepsOrder(s, es[0]);
      RunKeepsOrder(Next(s, es[0]), es[1..]);
    }
  }

  // ---- one worker holding every socket ----

  /** The same calls on a single worker whose sends all succeed. */
  datatype One = One(room: set<ConnId>, made: nat, got: map<ConnId, set<PostId>>)

  const ALONE := One({}, 0, map[])

  function OneNext(o: One, e: Step): One {
    match e
    case Join(c, _) => o.(room := o.room + {c}, got := o.got[c := {}])
    case Leave(c) => o.(room := o.room - {c})
    case Broadcast(_, exclude) =>
      o.(made := o.made + 1,
         got := map c | c in o.got :: if c in o.room && Some(c) != exclude then o.got[c] + {o.made} else o.got[c])
    case _ => o
  }

  function OneRun(o: One, es: seq<Step>): One
    decreases |es|
  {
    if es == [] then o else OneRun(OneNext(o, es[0]), es[1..])
  }

  /** What the single worker has delivered to c, read off the seats and posts of the cluster. */
  ghost predicate Due(s: Cluster, c: ConnId, b: PostId)
    requires c in s.seats
  {
    && s.seats[c].since <= b < |s.posts| && s.posts[b].exclude != Some(c)
    && (s.seats[c].until.Some? ==> b < s.seats[c].until.value)
  }

  ghost predicate Mirrors(o: One, s: Cluster) {
    && o.room == s.room && o.made == |s.posts| && o.got.Keys == s.seats.Keys
    && (forall c, b: nat :: c in s.seats ==> (b in o.got[c] <==> Due(s, c, b)))
  }

  lemma BroadcastMirrors(o: One, s: Cluster, w: Worker, exclude: Option<ConnId>, c: ConnId, b: nat)
    requires c in s.seats && Shaped(s) && CopyOk(s, c, b)
    requires o.room == s.room && o.made == |s.posts| && o.got.Keys == s.seats.Keys
    requires b in o.got[c] <==> Due(s, c, b)
    ensures b in OneNext(o, Broadcast(w, exclude)).got[c] <==> Due(Next(s, Broadcast(w, exclude)), c, b)
  {
  }

  lemma CellMirrors(o: One, s: Cluster, e: Step, c: ConnId, b: nat)
    requires Shaped(s) && Enabled(s, e) && c in Next(s, e).seats
    requires o.room == s.room && o.made == |s.posts| && o.got.Keys == s.seats.Keys
    requires c in s.seats ==> CopyOk(s, c, b) && (b in o.got[c] <==> Due(s, c, b))
    ensures c in OneNext(o, e).got && (b in OneNext(o, e).got[c] <==> Due(Next(s, e), c, b))
  {
    if e.Broadcast? { BroadcastMirrors(o, s, e.w, e.exclude, c, b); }
  }

  lemma RoomMirrors(o: One, s: Cluster, e: Step)
    requires Shaped(s) && Enabled(s, e) && o.room == s.room && o.made == |s.posts| && o.got.Keys == s.seats.Keys
    ensures var o', s' := OneNext(o, e), Next(s, e);
            o'.room == s'.room && o'.made == |s'.posts| && o'.got.Keys == s'.seats.Keys
  {
  }

  lemma StepMirrors(o: One, s: Cluster, e: Step)
    requires Orderly(s) && Enabled(s, e) && Mirrors(o, s)
    ensures Mirrors(OneNext(o, e), Next(s, e))
  {
    StepKeepsShape(s, e);
    RoomMirrors(o, s, e);
    var o', s' := OneNext(o, e), Next(s, e);
    forall c, b: nat | c in s'.seats ensures b in o'.got[c] <==> Due(s', c, b) {
      if c in s.seats { assert CopyOk(s, c, b); }
      CellMirrors(o, s, e, c, b);
    }
  }

  lemma {:induction false} RunMirrors(o: One, s: Cluster, es: seq<Step>)
    requires Orderly(s) && ValidRun(s, es) && Mirrors(o, s)
    ensures Mirrors(OneRun(o, es), Run(s, es))
    decreases |es|
  {
    if es != [] {
      StepMirrors(o, s, es[0]);
      StepKeepsOrder(s, es[0]);
      RunMirrors(OneNext(o, es[0]), Next(s, es[0]), es[1..]);
    }
  }

  // ---- exactly once ----

  /** No step of the run loses a frame for c: its sends arrive, its worker's bus loses nothing, and its
      worker is subscribed whenever a broadcast is published while c is registered. */
  ghost predicate Lossless(s: Cluster, es: seq<Step>, c: ConnId)
    requires ValidRun(s, es)
    decreases |es|
  {
    es != [] ==>
      && LosslessStep(s, es[0], c)
      && Lossless(Next(s, es[0]), es[1..], c)
  }

  ghost predicate LosslessStep(s: Cluster, e: Step, c: ConnId) {
    match e
    case Offer(d, _, arrives) => d == c ==> arrives
    case Lose(w, _) => c in s.seats ==> s.seats[c].worker != w
    case Publish(_) => c in s.room && c in s.seats ==> s.seats[c].worker in s.inbox
    case _ => true
  }

  /** A broadcast c should have is with c, waiting for it on the bus, or not published yet. */
  ghost predicate Covered(s: Cluster, c: ConnId, b: PostId)
    requires Shaped(s) && c in s.seats
  {
    c in s.room && Due(s, c, b) && (s.posts[b].published || s.posts[b].origin == s.seats[c].worker) ==>
      Held(s, c, b) + Waiting(s, c, b) == 1
  }

  lemma BroadcastKeepsCovered(s: Cluster, c: ConnId, b: nat, w: Worker, origin: Worker, exclude: Option<ConnId>)
    requires Before(s, c, b, w) && c in s.seats && Covered(s, c, b)
    requires Shaped(Next(s, Broadcast(origin, exclude)))
    ensures Covered(Next(s, Broadcast(origin, exclude)), c, b)
  {
    var s' := Next(s, Broadcast(origin, exclude));
    assert s'.got == s.got && s'.inbox == s.inbox;
    if b == |s.posts| {
      assert Held(s, c, b) == 0;
    } else {
      assert s'.todo[c][b] == s.todo[c][b];
    }
  }

  lemma ReplayKeepsCovered(s: Cluster, c: ConnId, b: nat, w: Worker, v: Worker, k: PostId)
    requires Before(s, c, b, w) && Enabled(s, Replay(v, k)) && BusOk(s, v, k) && c in s.seats && Covered(s, c, b)
    requires Shaped(Next(s, Replay(v, k)))
    ensures Covered(Next(s, Replay(v, k)), c, b)
  {
    if k != b || v != w {
      ReplayElsewhere(s, c, b, w, v, k);
    } else {
      ReplayHere(s, c, b, w);
    }
  }

  lemma ReplayElsewhere(s: Cluster, c: ConnId, b: nat, w: Worker, v: Worker, k: PostId)
    requires Before(s, c, b, w) && Enabled(s, Replay(v, k)) && c in s.seats && Covered(s, c, b)
    requires Shaped(Next(s, Replay(v, k))) && (k != b || v != w)
    ensures Covered(Next(s, Replay(v, k)), c, b)
  {
    var s' := Next(s, Replay(v, k));
    assert s'.todo[c][b] == s.todo[c][b] && Waiting(s', c, b) == Waiting(s, c, b);
  }

  /** The copy leaves the bus and is listed for every socket it is due to. */
  lemma ReplayHere(s: Cluster, c: ConnId, b: nat, w: Worker)
    requires Before(s, c, b, w) && Enabled(s, Replay(w, b)) && c in s.seats && Covered(s, c, b)
    requires Shaped(Next(s, Replay(w, b)))
    ensures Covered(Next(s, Replay(w, b)), c, b)
  {
    assert s.inbox[w][b] == 1;
    if s.posts[b].origin != w { assert Held(s, c, b) == 0; }
  }

  lemma TrafficKeepsCovered(s: Cluster, e: Step, c: ConnId, b: nat, w: Worker)
    requires e.Publish? || e.Offer? || e.Subscribe? || e.Lose?
    requires Before(s, c, b, w) && Enabled(s, e) && LosslessStep(s, e, c) && c in s.seats && Covered(s, c, b)
    requires Shaped(Next(s, e))
    ensures Covered(Next(s, e), c, b)
  {
  }

  lemma SeatingKeepsCovered(s: Cluster, e: Step, c: ConnId, b: nat)
    requires e.Join? || e.Leave?
    requires Shaped(s) && Enabled(s, e) && c in Next(s, e).seats && Shaped(Next(s, e))
    requires c in s.seats ==> CopyOk(s, c, b) && Covered(s, c, b)
    ensures Covered(Next(s, e), c, b)
  {
  }

  lemma StepKeepsCovered(s: Cluster, e: Step, c: ConnId, b: nat)
    requires Orderly(s) && Enabled(s, e) && LosslessStep(s, e, c) && c in Next(s, e).seats
    requires c in s.seats ==> Covered(s, c, b)
    requires Shaped(Next(s, e))
    ensures Covered(Next(s, e), c, b)
  {
    if c in s.seats {
      assert Before(s, c, b, s.seats[c].worker);
    }
    match e
    case Join(_, _) => SeatingKeepsCovered(s, e, c, b);
    case Leave(_) => SeatingKeepsCovered(s, e, c, b);
    case Broadcast(origin, exclude) => BroadcastKeepsCovered(s, c, b, s.seats[c].worker, origin, exclude);
    case Replay(v, k) =>
      assert BusOk(s, v, k);
      ReplayKeepsCovered(s, c, b, s.seats[c].worker, v, k);
    case _ => TrafficKeepsCovered(s, e, c, b, s.seats[c].worker);
  }

  lemma {:induction false} RunKeepsCovered(s: Cluster, es: seq<Step>, c: ConnId, b: nat)
    requires Orderly(s) && ValidRun(s, es) && Lossless(s, es, c)
    requires c in s.seats ==> Covered(s, c, b)
    ensures Orderly(Run(s, es)) && (c in Run(s, es).seats ==> Covered(Run(s, es), c, b))
    decreases |es|
  {
    if es != [] {
      StepKeepsOrder(s, es[0]);
      if c in Next(s, es[0]).seats { StepKeepsCovered(s, es[0], c, b); }
      RunKeepsCovered(Next(s, es[0]), es[1..], c, b);
    }
  }

  /** Everything has been published, replayed and offered. */
  ghost predicate Settled(s: Cluster) {
    && (forall b :: 0 <= b < |s.posts| ==> s.posts[b].published)
    && (forall w :: w in s.inbox ==> s.inbox[w] == multiset{})
    && (forall c :: c in s.todo ==> s.todo[c] == multiset{})
  }

  /** Many workers deliver what one would. Whatever is lost, fails, joins or leaves, no broadcast reaches a
      socket twice or reaches the one it excludes, and one made since a socket joined reaches it only if
      the single worker delivers it too (an older one may: its relay was still on the bus). */
  lemma AtMostOnce(es: seq<Step>, c: ConnId, b: PostId)
    requires ValidRun(EMPTY, es) && c in Run(EMPTY, es).seats
    ensures var s, one := Run(EMPTY, es), OneRun(ALONE, es);
            && c in s.got && c in one.got
            && s.got[c][b] <= 1
            && (b < |s.posts| && s.posts[b].exclude == Some(c) ==> b !in s.got[c])
            && (b in s.got[c] && s.seats[c].since <= b ==> b in one.got[c])
  {
    RunKeepsOrder(EMPTY, es);
    RunMirrors(ALONE, EMPTY, es);
    assert CopyOk(Run(EMPTY, es), c, b);
  }

  /** With nothing lost on the way to a socket that is still registered, once traffic settles it has had
      each broadcast made since it joined exactly as often as the single worker delivers it. */
  lemma ExactlyOnce(es: seq<Step>, c: ConnId, b: PostId)
    requires ValidRun(EMPTY, es) && Lossless(EMPTY, es, c)
    requires var s := Run(EMPTY, es); Settled(s) && c in s.room && c in s.seats && s.seats[c].since <= b
    ensures var s, one := Run(EMPTY, es), OneRun(ALONE, es);
            && c in s.got && c in one.got
            && s.got[c][b] == if b in one.got[c] then 1 else 0
  {
    RunKeepsOrder(EMPTY, es);
    RunMirrors(ALONE, EMPTY, es);
    RunKeepsCovered(EMPTY, es, c, b);
    var s := Run(EMPTY, es);
    assert CopyOk(s, c, b);
    assert Covered(s, c, b);
    assert c in s.todo;
  }
}
