/** Any number of hooks talking to the interleaved service over a network that may lose, delay,
    reorder or repeat messages: what an accepted socket save may overwrite. */
module EndToEnd {
  import opened Wrappers
  import opened Projects
  import opened Ledger
  import opened SaveProtocol
  import H = Hook

  type ClientId = nat

  datatype Message =
    | Hello(doc: Doc, version: nat)
    | DocAck(version: nat)
    | DocUpdated(doc: Doc, version: nat)
    | DocConflict(doc: Doc, version: nat)

  /** `inbox` and `frames` hold everything ever sent, to and from each client, and `heard` what reached
      each client; `owner` tells which client's frame a request serves. Requests without an owner came
      over HTTP. */
  datatype World = World(sys: Sys, hooks: map<ClientId, H.Hook>, inbox: set<(ClientId, Message)>,
                         heard: set<(ClientId, Message)>, frames: set<(ClientId, H.Frame)>,
                         owner: map<TxId, ClientId>)

  datatype Move =
    | Serve(step: Step)
    | Receive(t: TxId, c: ClientId, user: UserId, f: H.Frame, schema: Option<int>, snapshot: bool)
    | Greet(c: ClientId)
    | Answer(t: TxId, hears: set<ClientId>)
    | TellConflict(t: TxId)
    | Deliver(c: ClientId, m: Message)
    | Local(c: ClientId, event: H.Event)

  predicate IsLocal(e: H.Event) {
    e.QueueDoc? || e.FlushTimer? || e.HelloSettles? || e.SocketUp? || e.SocketDown?
  }

  function EventOf(m: Message): H.Event {
    match m
    case Hello(_, v) => H.HelloVersion(v)
    case DocAck(v) => H.Ack(v)
    case DocUpdated(_, v) => H.Updated(v)
    case DocConflict(_, v) => H.Conflict(v)
  }

  /** The save `_apply_update` builds from a frame. */
  function SaveOf(f: H.Frame, schema: Option<int>, snapshot: bool): SaveInput {
    SaveInput(f.doc, if f.base.Some? then Some(f.base.value) else None, schema, None, snapshot)
  }

  ghost predicate Possible(w: World, m: Move) {
    match m
    case Serve(e) => Enabled(w.sys, e)
    case Receive(t, c, _, f, _, _) => (c, f) in w.frames && t !in w.sys.txs
    case Greet(c) => c in w.hooks
    case Answer(t, hears) => hears <= w.hooks.Keys && t in w.owner && t in w.sys.txs && w.sys.txs[t].phase.Replied?
    case TellConflict(t) => t in w.owner && t in w.sys.txs && w.sys.txs[t].phase.Refused?
    case Deliver(c, msg) => c in w.hooks && (c, msg) in w.inbox
    case Local(c, e) => c in w.hooks && IsLocal(e)
  }

  function Notify(w: World, c: ClientId, e: H.Event): World
    requires c in w.hooks
  {
    var (h, f) := H.React(w.hooks[c], e);
    w.(hooks := w.hooks[c := h], frames := if f.Some? then w.frames + {(c, f.value)} else w.frames)
  }

  /** The sender is told the version. The document goes to whoever else is listening, the sender
      included when it has reconnected, since the exclusion names its old socket. */
  function Replies(hears: set<ClientId>, c: ClientId, doc: Doc, version: nat): set<(ClientId, Message)> {
    {(c, DocAck(version))} + set d | d in hears :: (d, DocUpdated(doc, version))
  }

  ghost function Moved(w: World, m: Move, limit: nat): World
    requires Possible(w, m)
  {
    match m
    case Serve(e) => w.(sys := Next(w.sys, e, limit))
    case Receive(t, c, user, f, schema, snapshot) =>
      w.(sys := Next(w.sys, Begin(t, SaveReq(user, SaveOf(f, schema, snapshot))), limit), owner := w.owner[t := c])
    case Greet(c) => w.(inbox := w.inbox + {(c, Hello(w.sys.store.project.doc, w.sys.store.project.version))})
    case Answer(t, hears) =>
      w.(inbox := w.inbox + Replies(hears, w.owner[t], w.sys.txs[t].phase.doc, w.sys.txs[t].phase.version))
    case TellConflict(t) =>
      w.(inbox := w.inbox + {(w.owner[t], DocConflict(w.sys.store.project.doc, w.sys.store.project.version))})
    case Deliver(c, msg) => Notify(w.(heard := w.heard + {(c, msg)}), c, EventOf(msg))
    case Local(c, e) => Notify(w, c, e)
  }

  ghost predicate ValidMoves(w: World, ms: seq<Move>, limit: nat)
    decreases |ms|
  {
    ms == [] || (Possible(w, ms[0]) && ValidMoves(Moved(w, ms[0], limit), ms[1..], limit))
  }

  ghost function After(w: World, ms: seq<Move>, limit: nat): World
    requires ValidMoves(w, ms, limit)
    decreases |ms|
  {
    if ms == [] then w else After(Moved(w, ms[0], limit), ms[1..], limit)
  }

  // ---- what a client has seen ----

  predicate Carries(m: Message, doc: Doc, v: nat) {
    !m.DocAck? && m.doc == doc && m.version == v
  }

  /** A message that reached this client carried exactly this document at this version. */
  ghost predicate WasShown(w: World, c: ClientId, doc: Doc, v: nat) {
    exists m :: (c, m) in w.heard && Carries(m, doc, v)
  }

  /** A save of this client's own made this version, with exactly this document. */
  ghost predicate WroteIt(w: World, c: ClientId, doc: Doc, v: nat) {
    exists t :: t in w.owner && w.owner[t] == c && t in w.sys.txs && Wrote(w.sys.txs[t].phase) == Some(v)
             && w.sys.txs[t].req.SaveReq? && w.sys.txs[t].req.input.doc == doc
  }

  /** A save of this client's own was answered with version v, though its base is not the one before v. */
  ghost predicate LateReply(w: World, c: ClientId, v: nat) {
    exists t :: t in w.owner && w.owner[t] == c && t in w.sys.txs && RepliedLate(w.sys.txs[t], v)
  }

  predicate RepliedLate(tx: Tx, v: nat) {
    tx.phase.Replied? && tx.req.SaveReq? && tx.phase.version == v && tx.req.input.base != Some(v - 1)
  }

  /** And the acknowledgement has reached it. */
  ghost predicate LateAck(w: World, c: ClientId, v: nat) {
    LateReply(w, c, v) && (c, DocAck(v)) in w.heard
  }

  ghost predicate Saw(w: World, l: Ledger, c: ClientId, v: nat) {
    && 1 <= v <= |l.history|
    && (WasShown(w, c, l.history[v - 1], v) || WroteIt(w, c, l.history[v - 1], v) || LateAck(w, c, v))
  }

  ghost predicate HookOk(w: World, l: Ledger, c: ClientId, h: H.Hook) {
    && (h.docVersion == 0 || Saw(w, l, c, h.docVersion))
    && (h.pendingBase.Some? ==> Saw(w, l, c, h.pendingBase.value))
  }

  ghost predicate FrameOk(w: World, l: Ledger, c: ClientId, f: H.Frame) {
    f.base.Some? && (f.base.value == 0 || Saw(w, l, c, f.base.value))
  }

  /** What is on its way: the document of the version it names, or the acknowledgement of a save. */
  ghost predicate MessageOk(w: World, l: Ledger, c: ClientId, m: Message) {
    && 1 <= m.version <= |l.history|
    && (if m.DocAck? then WroteIt(w, c, l.history[m.version - 1], m.version) || LateReply(w, c, m.version)
        else m.doc == l.history[m.version - 1])
  }

  /** An owned request is a save of one of its owner's frames. */
  ghost predicate OwnedOk(w: World, t: TxId)
    requires t in w.owner
  {
    && t in w.sys.txs && w.sys.txs[t].req.SaveReq?
    && (exists f, schema, snapshot ::
          (w.owner[t], f) in w.frames && w.sys.txs[t].req.input == SaveOf(f, schema, snapshot))
  }

  ghost predicate Consistent(w: World, l: Ledger, limit: nat) {
    && Sim(w.sys, l, limit)
    && (forall c :: c in w.hooks ==> HookOk(w, l, c, w.hooks[c]))
    && (forall c, f :: (c, f) in w.frames ==> FrameOk(w, l, c, f))
    && w.heard <= w.inbox && (forall c, m :: (c, m) in w.inbox ==> MessageOk(w, l, c, m))
    && (forall t :: t in w.owner ==> OwnedOk(w, t))
  }

  /** What a client saw it has seen for good. */
  ghost predicate Grew(w: World, w': World, l: Ledger, l': Ledger) {
    && w.heard <= w'.heard && l.history <= l'.history
    && (forall t :: t in w.owner && t in w.sys.txs ==>
          t in w'.owner && w'.owner[t] == w.owner[t] && t in w'.sys.txs && w'.sys.txs[t].req == w.sys.txs[t].req
          && (Wrote(w.sys.txs[t].phase).Some? ==> Wrote(w'.sys.txs[t].phase) == Wrote(w.sys.txs[t].phase))
          && (w.sys.txs[t].phase.Replied? ==> w'.sys.txs[t].phase == w.sys.txs[t].phase))
  }

  lemma WroteItGrows(w: World, w': World, l: Ledger, l': Ledger, c: ClientId, doc: Doc, v: nat)
    requires WroteIt(w, c, doc, v) && Grew(w, w', l, l')
    ensures WroteIt(w', c, doc, v)
  {
    var t :| t in w.owner && w.owner[t] == c && t in w.sys.txs && Wrote(w.sys.txs[t].phase) == Some(v)
             && w.sys.txs[t].req.SaveReq? && w.sys.txs[t].req.input.doc == doc;
    assert Wrote(w'.sys.txs[t].phase) == Some(v);
  }

  lemma LateReplyGrows(w: World, w': World, l: Ledger, l': Ledger, c: ClientId, v: nat)
    requires LateReply(w, c, v) && Grew(w, w', l, l')
    ensures LateReply(w', c, v)
  {
    var t :| t in w.owner && w.owner[t] == c && t in w.sys.txs && RepliedLate(w.sys.txs[t], v);
    assert RepliedLate(w'.sys.txs[t], v);
  }

  lemma SawGrows(w: World, w': World, l: Ledger, l': Ledger, c: ClientId, v: nat)
    requires Saw(w, l, c, v) && Grew(w, w', l, l')
    ensures Saw(w', l', c, v)
  {
    var doc := l.history[v - 1];
    if WasShown(w, c, doc, v) {
      var m :| (c, m) in w.heard && Carries(m, doc, v);
      assert (c, m) in w'.heard;
    } else if LateAck(w, c, v) {
      LateReplyGrows(w, w', l, l', c, v);
    } else {
      WroteItGrows(w, w', l, l', c, doc, v);
    }
  }

  lemma MessageGrows(w: World, w': World, l: Ledger, l': Ledger, c: ClientId, m: Message)
    requires MessageOk(w, l, c, m) && Grew(w, w', l, l')
    ensures MessageOk(w', l', c, m)
  {
    if m.DocAck? {
      if LateReply(w, c, m.version) {
        LateReplyGrows(w, w', l, l', c, m.version);
      } else {
        WroteItGrows(w, w', l, l', c, l.history[m.version - 1], m.version);
      }
    }
  }

  lemma ConsistentGrows(w: World, w': World, l: Ledger, l': Ledger, limit: nat)
    requires Consistent(w, l, limit) && Grew(w, w', l, l')
    ensures forall c :: c in w.hooks ==> HookOk(w', l', c, w.hooks[c])
    ensures forall c, f :: (c, f) in w.frames ==> FrameOk(w', l', c, f)
    ensures forall c, m :: (c, m) in w.inbox ==> MessageOk(w', l', c, m)
  {
    forall c | c in w.hooks ensures HookOk(w', l', c, w.hooks[c]) {
      var h := w.hooks[c];
      if h.docVersion != 0 { SawGrows(w, w', l, l', c, h.docVersion); }
      if h.pendingBase.Some? { SawGrows(w, w', l, l', c, h.pendingBase.value); }
    }
    forall c, f | (c, f) in w.frames ensures FrameOk(w', l', c, f) {
      if f.base.value != 0 { SawGrows(w, w', l, l', c, f.base.value); }
    }
    forall c, m | (c, m) in w.inbox ensures MessageOk(w', l', c, m) {
      MessageGrows(w, w', l, l', c, m);
    }
  }

  ghost function LedgerOf(w: World, l: Ledger, m: Move, limit: nat): Ledger
    requires Possible(w, m)
  {
    match m
    case Serve(e) => LedgerAfter(w.sys, l, e, limit)
    case _ => l
  }

  lemma ServeGrows(w: World, l: Ledger, e: Step, limit: nat)
    requires Consistent(w, l, limit) && Enabled(w.sys, e)
    ensures Sim(Next(w.sys, e, limit), LedgerAfter(w.sys, l, e, limit), limit)
    ensures Grew(w, w.(sys := Next(w.sys, e, limit)), l, LedgerAfter(w.sys, l, e, limit))
  {
    StepSimulates(w.sys, l, e, limit);
    HistoryAfterStep(w.sys, l, e, limit);
    forall t | t in w.sys.txs
      ensures t in Next(w.sys, e, limit).txs && Next(w.sys, e, limit).txs[t].req == w.sys.txs[t].req
      ensures Wrote(w.sys.txs[t].phase).Some? ==> Wrote(Next(w.sys, e, limit).txs[t].phase) == Wrote(w.sys.txs[t].phase)
      ensures w.sys.txs[t].phase.Replied? ==> Next(w.sys, e, limit).txs[t].phase == w.sys.txs[t].phase
    {
      StepKeepsRequest(w.sys, e, t, limit);
    }
  }

  lemma HistoryAfterStep(s: Sys, l: Ledger, e: Step, limit: nat)
    requires Enabled(s, e)
    ensures l.history <= LedgerAfter(s, l, e, limit).history
  {
  }

  lemma ServeKeeps(w: World, l: Ledger, e: Step, limit: nat)
    requires Consistent(w, l, limit) && Possible(w, Serve(e))
    ensures Consistent(Moved(w, Serve(e), limit), LedgerAfter(w.sys, l, e, limit), limit)
  {
    var w', l' := Moved(w, Serve(e), limit), LedgerAfter(w.sys, l, e, limit);
    ServeGrows(w, l, e, limit);
    ConsistentGrows(w, w', l, l', limit);
    forall t | t in w'.owner ensures OwnedOk(w', t) { ServeKeepsOwned(w, e, t, limit); }
  }

  lemma ServeKeepsOwned(w: World, e: Step, t: TxId, limit: nat)
    requires Possible(w, Serve(e)) && t in w.owner && OwnedOk(w, t)
    ensures OwnedOk(Moved(w, Serve(e), limit), t)
  {
    StepKeepsRequest(w.sys, e, t, limit);
  }

  lemma ReceiveKeeps(w: World, l: Ledger, m: Move, limit: nat)
    requires Consistent(w, l, limit) && m.Receive? && Possible(w, m)
    ensures Consistent(Moved(w, m, limit), l, limit)
  {
    var w' := Moved(w, m, limit);
    var begin := Begin(m.t, SaveReq(m.user, SaveOf(m.f, m.schema, m.snapshot)));
    ServeGrows(w, l, begin, limit);
    assert Grew(w, w', l, l);
    ConsistentGrows(w, w', l, l, limit);
    forall t | t in w'.owner ensures OwnedOk(w', t) {
      if t != m.t {
        assert OwnedOk(w, t);
      }
    }
  }

  /** Sending more messages keeps everything, when each new one is something its receiver then saw. */
  lemma SendKeeps(w: World, l: Ledger, more: set<(ClientId, Message)>, limit: nat)
    requires Consistent(w, l, limit)
    requires forall c, m :: (c, m) in more ==> MessageOk(w.(inbox := w.inbox + more), l, c, m)
    ensures Consistent(w.(inbox := w.inbox + more), l, limit)
  {
    var w' := w.(inbox := w.inbox + more);
    assert Grew(w, w', l, l);
    ConsistentGrows(w, w', l, l, limit);
    forall t | t in w'.owner ensures OwnedOk(w', t) {
      assert OwnedOk(w, t);
    }
  }

  /** An owned save names a base, so the version it made is the one after. */
  lemma OwnedWroteNext(w: World, l: Ledger, t: TxId, limit: nat)
    requires Consistent(w, l, limit) && t in w.owner && t in w.sys.txs && Wrote(w.sys.txs[t].phase).Some?
    ensures w.sys.txs[t].req.SaveReq? && w.sys.txs[t].req.input.base == Some(Wrote(w.sys.txs[t].phase).value - 1)
    ensures Exact(l.history, w.sys.txs[t].req.input.doc, Wrote(w.sys.txs[t].phase).value)
  {
    assert OwnedOk(w, t) && TxOk(w.sys, l, t, limit);
    var f, schema, snapshot :| (w.owner[t], f) in w.frames && w.sys.txs[t].req.input == SaveOf(f, schema, snapshot);
    assert FrameOk(w, l, w.owner[t], f);
  }

  lemma AckIsOk(w: World, l: Ledger, t: TxId, limit: nat)
    requires Consistent(w, l, limit) && t in w.owner && t in w.sys.txs && w.sys.txs[t].phase.Replied?
    ensures MessageOk(w, l, w.owner[t], DocAck(w.sys.txs[t].phase.version))
  {
    var v := w.sys.txs[t].phase.version;
    assert TxOk(w.sys, l, t, limit);
    OwnedWroteNext(w, l, t, limit);
    if w.sys.txs[t].phase.wrote == v {
      assert WroteIt(w, w.owner[t], l.history[v - 1], v);
    } else {
      assert RepliedLate(w.sys.txs[t], v);
    }
  }

  lemma AnswerKeeps(w: World, l: Ledger, t: TxId, hears: set<ClientId>, limit: nat)
    requires Consistent(w, l, limit) && Possible(w, Answer(t, hears))
    ensures Consistent(Moved(w, Answer(t, hears), limit), l, limit)
  {
    var doc, v := w.sys.txs[t].phase.doc, w.sys.txs[t].phase.version;
    var more := Replies(hears, w.owner[t], doc, v);
    assert TxOk(w.sys, l, t, limit);
    AckIsOk(w, l, t, limit);
    var w' := w.(inbox := w.inbox + more);
    forall c, m | (c, m) in more ensures MessageOk(w', l, c, m) {
      if m.DocAck? { MessageGrows(w, w', l, l, c, m); }
    }
    SendKeeps(w, l, more, limit);
  }

  lemma TellKeeps(w: World, l: Ledger, c: ClientId, m: Message, limit: nat)
    requires Consistent(w, l, limit) && !m.DocAck?
    requires m.doc == w.sys.store.project.doc && m.version == w.sys.store.project.version
    ensures Consistent(w.(inbox := w.inbox + {(c, m)}), l, limit)
  {
    SendKeeps(w, l, {(c, m)}, limit);
  }

  /** What one hook's reaction leaves in its refs and sends. */
  lemma ReactionSeen(w: World, l: Ledger, c: ClientId, h: H.Hook, e: H.Event)
    requires HookOk(w, l, c, h) && (IsLocal(e) || Saw(w, l, c, e.version))
    ensures HookOk(w, l, c, H.React(h, e).0)
    ensures H.React(h, e).1.Some? ==> FrameOk(w, l, c, H.React(h, e).1.value)
  {
  }

  lemma NotifyKeepsOwned(w: World, c: ClientId, e: H.Event, t: TxId)
    requires c in w.hooks && t in w.owner && OwnedOk(w, t)
    ensures OwnedOk(Notify(w, c, e), t)
  {
    var w' := Notify(w, c, e);
    var g, schema, snapshot :| (w.owner[t], g) in w.frames && w.sys.txs[t].req.input == SaveOf(g, schema, snapshot);
    assert (w'.owner[t], g) in w'.frames;
  }

  lemma NotifyKeeps(w: World, l: Ledger, c: ClientId, e: H.Event, limit: nat)
    requires Consistent(w, l, limit) && c in w.hooks
    requires IsLocal(e) || Saw(w, l, c, e.version)
    ensures Consistent(Notify(w, c, e), l, limit)
  {
    var w' := Notify(w, c, e);
    ConsistentGrows(w, w', l, l, limit);
    if !IsLocal(e) { SawGrows(w, w', l, l, c, e.version); }
    ReactionSeen(w', l, c, w.hooks[c], e);
    forall t | t in w'.owner ensures OwnedOk(w', t) { NotifyKeepsOwned(w, c, e, t); }
  }

  lemma HearingGrows(w: World, l: Ledger, c: ClientId, m: Message, limit: nat)
    requires Consistent(w, l, limit) && (c, m) in w.inbox
    ensures var w' := w.(heard := w.heard + {(c, m)}); Consistent(w', l, limit) && Saw(w', l, c, m.version)
  {
    var w' := w.(heard := w.heard + {(c, m)});
    ConsistentGrows(w, w', l, l, limit);
    forall t | t in w'.owner ensures OwnedOk(w', t) { assert OwnedOk(w, t); }
    assert MessageOk(w', l, c, m);
    if !m.DocAck? { assert Carries(m, l.history[m.version - 1], m.version); }
  }

  lemma MoveKeeps(w: World, l: Ledger, m: Move, limit: nat)
    requires Consistent(w, l, limit) && Possible(w, m)
    ensures Consistent(Moved(w, m, limit), LedgerOf(w, l, m, limit), limit)
  {
    match m
    case Serve(e) => ServeKeeps(w, l, e, limit);
    case Receive(_, _, _, _, _, _) => ReceiveKeeps(w, l, m, limit);
    case Greet(c) => TellKeeps(w, l, c, Hello(w.sys.store.project.doc, w.sys.store.project.version), limit);
    case Answer(t, hears) => AnswerKeeps(w, l, t, hears, limit);
    case TellConflict(t) =>
      TellKeeps(w, l, w.owner[t], DocConflict(w.sys.store.project.doc, w.sys.store.project.version), limit);
    case Deliver(c, msg) =>
      HearingGrows(w, l, c, msg, limit);
      NotifyKeeps(w.(heard := w.heard + {(c, msg)}), l, c, EventOf(msg), limit);
    case Local(c, e) => NotifyKeeps(w, l, c, e, limit);
  }

  lemma {:induction false} MovesKeep(w: World, l: Ledger, ms: seq<Move>, limit: nat) returns (l': Ledger)
    requires Consistent(w, l, limit) && ValidMoves(w, ms, limit)
    ensures Consistent(After(w, ms, limit), l', limit)
    decreases |ms|
  {
    l' := l;
    if ms != [] {
      MoveKeeps(w, l, ms[0], limit);
      l' := MovesKeep(Moved(w, ms[0], limit), LedgerOf(w, l, ms[0], limit), ms[1..], limit);
    }
  }

  /** Every hook fresh, nothing sent, nothing in flight. */
  function Opening(l: Ledger, clients: set<ClientId>): World {
    World(Start(l), map c | c in clients :: H.FRESH, {}, {}, {}, map[])
  }

  /** A save that came from a client is about to commit. */
  ghost predicate AboutToCommit(w: World, t: TxId) {
    t in w.owner && Enabled(w.sys, Finish(t))
  }

  /** The document about to be replaced is none the client was shown at that version or wrote. */
  ghost predicate Blind(w: World, c: ClientId) {
    var replaced := w.sys.store.project;
    !WasShown(w, c, replaced.doc, replaced.version) && !WroteIt(w, c, replaced.doc, replaced.version)
  }

  /** The main result, over every run. Whenever a save that came from client c commits, its base is the
      version it replaces, and the document it replaces was delivered to c at exactly that version, or was
      written by c, or its version was named to c by the acknowledgement of an earlier save of c's that
      was not based on the version before it. */
  lemma OverwritesWhatWasNamed(l: Ledger, clients: set<ClientId>, ms: seq<Move>, t: TxId, limit: nat)
    requires Inv(l, limit) && ValidMoves(Opening(l, clients), ms, limit)
    requires AboutToCommit(After(Opening(l, clients), ms, limit), t)
    ensures var w := After(Opening(l, clients), ms, limit);
            && w.sys.txs[t].req.SaveReq? && w.sys.txs[t].req.input.base == Some(w.sys.store.project.version)
            && (Blind(w, w.owner[t]) ==> LateAck(w, w.owner[t], w.sys.store.project.version))
  {
    var l' := MovesKeep(Opening(l, clients), l, ms, limit);
    var w := After(Opening(l, clients), ms, limit);
    assert OwnedOk(w, t) && TxOk(w.sys, l', t, limit);
    var f, schema, snapshot :| (w.owner[t], f) in w.frames && w.sys.txs[t].req.input == SaveOf(f, schema, snapshot);
    assert FrameOk(w, l', w.owner[t], f);
  }

  // ---- who is told what ----

  /** A message on its way to c that brings this document, and makes its hook react so. */
  ghost predicate Bears(w: World, c: ClientId, e: H.Event, doc: Doc) {
    exists m :: (c, m) in w.inbox && EventOf(m) == e && !m.DocAck? && m.doc == doc
  }

  /** An answered save is acknowledged to its sender under the version the refresh read, and that version's
      document goes to everyone who listens. */
  lemma AnswersReach(w: World, t: TxId, hears: set<ClientId>, d: ClientId, limit: nat)
    requires Possible(w, Answer(t, hears))
    ensures var w', p := Moved(w, Answer(t, hears), limit), w.sys.txs[t].phase;
            && (exists m :: (w.owner[t], m) in w'.inbox && EventOf(m) == H.Ack(p.version))
            && (d in hears ==> Bears(w', d, H.Updated(p.version), p.doc))
  {
    var w', p := Moved(w, Answer(t, hears), limit), w.sys.txs[t].phase;
    assert (w.owner[t], DocAck(p.version)) in w'.inbox;
    if d in hears { assert (d, DocUpdated(p.doc, p.version)) in w'.inbox; }
  }

  /** A refused save and a greeting bring the stored document under the stored version. */
  lemma RefusalsAndGreetingsTell(w: World, t: TxId, c: ClientId, limit: nat)
    ensures var p := w.sys.store.project;
            && (Possible(w, TellConflict(t)) ==>
                  Bears(Moved(w, TellConflict(t), limit), w.owner[t], H.Conflict(p.version), p.doc))
            && (Possible(w, Greet(c)) ==> Bears(Moved(w, Greet(c), limit), c, H.HelloVersion(p.version), p.doc))
  {
    var p := w.sys.store.project;
    if Possible(w, TellConflict(t)) {
      assert (w.owner[t], DocConflict(p.doc, p.version)) in Moved(w, TellConflict(t), limit).inbox;
    }
    if Possible(w, Greet(c)) { assert (c, Hello(p.doc, p.version)) in Moved(w, Greet(c), limit).inbox; }
  }

  /** The save a socket request makes is the frame its client's hook sent: its document, its base, no label. */
  lemma SocketSavesAreFrames(w: World, l: Ledger, t: TxId, limit: nat)
    requires Consistent(w, l, limit) && t in w.owner
    ensures t in w.sys.txs && w.sys.txs[t].req.SaveReq?
    ensures exists f :: (w.owner[t], f) in w.frames && f.base.Some?
                   && w.sys.txs[t].req.input.doc == f.doc && w.sys.txs[t].req.input.title.None?
                   && w.sys.txs[t].req.input.base.Some? && w.sys.txs[t].req.input.base.value == f.base.value
  {
    assert OwnedOk(w, t);
    var f, schema, snapshot :| (w.owner[t], f) in w.frames && w.sys.txs[t].req.input == SaveOf(f, schema, snapshot);
    assert FrameOk(w, l, w.owner[t], f);
  }

  // ---- when refreshes read what was committed ----

  /** The refresh that answers a client's own save reads the version that save made. */
  ghost predicate Faithful(w: World, m: Move)
    requires Possible(w, m)
  {
    m.Serve? && m.step.Refresh? && m.step.t in w.owner ==>
      w.sys.store.project.version == w.sys.txs[m.step.t].phase.version
  }

  ghost predicate FaithfulRun(w: World, ms: seq<Move>, limit: nat)
    requires ValidMoves(w, ms, limit)
    decreases |ms|
  {
    ms == [] || (Faithful(w, ms[0]) && FaithfulRun(Moved(w, ms[0], limit), ms[1..], limit))
  }

  ghost predicate Punctual(w: World) {
    forall t :: t in w.owner && t in w.sys.txs && w.sys.txs[t].phase.Replied? ==>
      w.sys.txs[t].phase.version == w.sys.txs[t].phase.wrote
  }

  lemma MoveKeepsPunctual(w: World, m: Move, limit: nat)
    requires Punctual(w) && Possible(w, m) && Faithful(w, m)
    requires forall t :: t in w.owner ==> t in w.sys.txs
    ensures var w' := Moved(w, m, limit); Punctual(w') && forall t :: t in w'.owner ==> t in w'.sys.txs
  {
    var w' := Moved(w, m, limit);
    if m.Serve? {
      forall t | t in w.sys.txs
        ensures t in w'.sys.txs && (w.sys.txs[t].phase.Replied? ==> w'.sys.txs[t].phase == w.sys.txs[t].phase)
      {
        StepKeepsRequest(w.sys, m.step, t, limit);
      }
    }
  }

  lemma {:induction false} MovesKeepPunctual(w: World, ms: seq<Move>, limit: nat)
    requires Punctual(w) && ValidMoves(w, ms, limit) && FaithfulRun(w, ms, limit)
    requires forall t :: t in w.owner ==> t in w.sys.txs
    ensures Punctual(After(w, ms, limit))
    decreases |ms|
  {
    if ms != [] {
      MoveKeepsPunctual(w, ms[0], limit);
      MovesKeepPunctual(Moved(w, ms[0], limit), ms[1..], limit);
    }
  }

  /** So, when the refreshes that answer clients read what was committed (those of saves over HTTP may read
      what they like), no accepted socket save overwrites a document its client never saw. */
  lemma NoBlindOverwrite(l: Ledger, clients: set<ClientId>, ms: seq<Move>, t: TxId, limit: nat)
    requires Inv(l, limit) && ValidMoves(Opening(l, clients), ms, limit) && FaithfulRun(Opening(l, clients), ms, limit)
    requires AboutToCommit(After(Opening(l, clients), ms, limit), t)
    ensures var w := After(Opening(l, clients), ms, limit);
            && w.sys.txs[t].req.SaveReq? && w.sys.txs[t].req.input.base == Some(w.sys.store.project.version)
            && !Blind(w, w.owner[t])
  {
    OverwritesWhatWasNamed(l, clients, ms, t, limit);
    MovesKeepPunctual(Opening(l, clients), ms, limit);
    var l' := MovesKeep(Opening(l, clients), l, ms, limit);
    var w := After(Opening(l, clients), ms, limit);
    NeverLate(w, l', w.owner[t], w.sys.store.project.version, limit);
  }

  lemma NeverLate(w: World, l: Ledger, c: ClientId, v: nat, limit: nat)
    requires Consistent(w, l, limit) && Punctual(w)
    ensures !LateReply(w, c, v)
  {
    forall t | t in w.owner && w.owner[t] == c && t in w.sys.txs ensures !RepliedLate(w.sys.txs[t], v) {
      if w.sys.txs[t].phase.Replied? { OwnedWroteNext(w, l, t, limit); }
    }
  }

  // ---- and when they do not ----

  /** One queued document on its way: sent at once, received, locked and staged. */
  function OneSave(t: TxId, c: ClientId, user: UserId, next: Doc, v: nat, stamp: Stamp): seq<Move> {
    [Local(c, H.QueueDoc(next, true, true)), Receive(t, c, user, H.Frame(next, Some(v)), None, false),
     Serve(Lock(t)), Serve(Write(t, stamp))]
  }

  lemma FourMoves(w: World, a: Move, b: Move, c: Move, d: Move, limit: nat)
    requires Possible(w, a) && Possible(Moved(w, a, limit), b) && Possible(Moved(Moved(w, a, limit), b, limit), c)
    requires Possible(Moved(Moved(Moved(w, a, limit), b, limit), c, limit), d)
    ensures ValidMoves(w, [a, b, c, d], limit)
    ensures After(w, [a, b, c, d], limit) == Moved(Moved(Moved(Moved(w, a, limit), b, limit), c, limit), d, limit)
  {
    var w1 := Moved(w, a, limit);
    var w2 := Moved(w1, b, limit);
    var w3 := Moved(w2, c, limit);
    var w4 := Moved(w3, d, limit);
    assert [a, b, c, d][1..] == [b, c, d] && [b, c, d][1..] == [c, d] && [c, d][1..] == [d] && [d][1..] == [];
    assert ValidMoves(w4, [], limit) && After(w4, [], limit) == w4;
    assert ValidMoves(w3, [d], limit) && After(w3, [d], limit) == w4;
    assert ValidMoves(w2, [c, d], limit) && After(w2, [c, d], limit) == w4;
    assert ValidMoves(w1, [b, c, d], limit) && After(w1, [b, c, d], limit) == w4;
  }

  /** What those four moves come to. */
  ghost predicate Sent(w: World, w': World, c: ClientId, t: TxId) {
    && AboutToCommit(w', t) && w'.owner == w.owner[t := c] && w'.sys.store == w.sys.store && w'.heard == w.heard
    && t in w'.sys.txs && w'.sys.txs == w.sys.txs[t := w'.sys.txs[t]] && Wrote(w'.sys.txs[t].phase).None?
  }

  lemma OneSaveGoesOut(w: World, c: ClientId, t: TxId, user: UserId, next: Doc, limit: nat)
    requires w.sys.holder.None? && t !in w.sys.txs && w.sys.store.project.version != 0
    requires c in w.hooks && w.hooks[c] == H.Hook(w.sys.store.project.version, None, None, true)
    ensures var v := w.sys.store.project.version;
            var queued := Local(c, H.QueueDoc(next, true, true));
            var received := Receive(t, c, user, H.Frame(next, Some(v)), None, false);
            && Possible(w, queued) && Possible(Moved(w, queued, limit), received)
            && var w' := Moved(Moved(w, queued, limit), received, limit);
               && w'.heard == w.heard && w'.owner == w.owner[t := c]
               && w'.sys == w.sys.(txs := w.sys.txs[t := w'.sys.txs[t]])
               && w'.sys.txs[t] == Tx(SaveReq(user, SaveOf(H.Frame(next, Some(v)), None, false)),
                                      Reading(w.sys.store.project))
  {
    var w1 := Moved(w, Local(c, H.QueueDoc(next, true, true)), limit);
    assert w1.sys == w.sys && (c, H.Frame(next, Some(w.sys.store.project.version))) in w1.frames;
  }

  lemma OneSaveIsStaged(w: World, t: TxId, stamp: Stamp, limit: nat)
    requires w.sys.holder.None? && t in w.sys.txs && w.sys.txs[t].phase.Reading? && w.sys.txs[t].req.SaveReq?
    requires w.sys.txs[t].req.input.base == Some(w.sys.store.project.version) && !TakesSnapshot(w.sys.txs[t].req.input)
    ensures Possible(w, Serve(Lock(t))) && Possible(Moved(w, Serve(Lock(t)), limit), Serve(Write(t, stamp)))
    ensures var w' := Moved(Moved(w, Serve(Lock(t)), limit), Serve(Write(t, stamp)), limit);
            && w'.heard == w.heard && w'.owner == w.owner && w'.sys.store == w.sys.store
            && w'.sys.txs == w.sys.txs[t := w'.sys.txs[t]] && w'.sys.txs[t].phase.Pending?
  {
  }

  lemma OneSaveSends(w: World, c: ClientId, t: TxId, user: UserId, next: Doc, stamp: Stamp, limit: nat)
    requires w.sys.holder.None? && t !in w.sys.txs && w.sys.store.project.version != 0
    requires c in w.hooks && w.hooks[c] == H.Hook(w.sys.store.project.version, None, None, true)
    ensures var ms := OneSave(t, c, user, next, w.sys.store.project.version, stamp);
            ValidMoves(w, ms, limit) && Sent(w, After(w, ms, limit), c, t)
  {
    var ms := OneSave(t, c, user, next, w.sys.store.project.version, stamp);
    OneSaveGoesOut(w, c, t, user, next, limit);
    var w2 := Moved(Moved(w, ms[0], limit), ms[1], limit);
    OneSaveIsStaged(w2, t, stamp, limit);
    FourMoves(w, ms[0], ms[1], ms[2], ms[3], limit);
  }

  lemma SentKeepsSight(w: World, w': World, c: ClientId, t: TxId)
    requires Sent(w, w', c, t) && t !in w.sys.txs && t !in w.owner
    ensures Blind(w', c) <==> Blind(w, c)
  {
    var p := w.sys.store.project;
    if WroteIt(w, c, p.doc, p.version) {
      var k :| (k in w.owner && w.owner[k] == c && k in w.sys.txs && Wrote(w.sys.txs[k].phase) == Some(p.version)
                && w.sys.txs[k].req.SaveReq? && w.sys.txs[k].req.input.doc == p.doc);
      assert k in w'.owner && w'.sys.txs[k] == w.sys.txs[k];
    }
  }

  /** A message that reached c brought the document of version v. */
  ghost predicate ShownVersion(w: World, c: ClientId, v: nat) {
    exists m :: (c, m) in w.heard && !m.DocAck? && m.version == v
  }

  /** A save of c's based on the version before v was accepted. */
  ghost predicate AcceptedOnto(w: World, c: ClientId, v: nat) {
    exists t :: t in w.owner && w.owner[t] == c && t in w.sys.txs && MadeFrom(w.sys.txs[t], v)
  }

  predicate MadeFrom(tx: Tx, v: nat) {
    Wrote(tx.phase).Some? && tx.req.SaveReq? && tx.req.input.base == Some(v - 1)
  }

  lemma ShownByNumber(w: World, l: Ledger, c: ClientId, v: nat)
    requires w.heard <= w.inbox && 1 <= v <= |l.history|
    requires forall d, m :: (d, m) in w.inbox ==> MessageOk(w, l, d, m)
    ensures ShownVersion(w, c, v) <==> WasShown(w, c, l.history[v - 1], v)
  {
    if ShownVersion(w, c, v) {
      var m :| (c, m) in w.heard && !m.DocAck? && m.version == v;
      assert MessageOk(w, l, c, m);
      assert Carries(m, l.history[v - 1], v);
    }
  }

  lemma AcceptedIsWritten(w: World, l: Ledger, c: ClientId, v: nat, limit: nat)
    requires Consistent(w, l, limit) && AcceptedOnto(w, c, v) && 1 <= v <= |l.history|
    ensures WroteIt(w, c, l.history[v - 1], v)
  {
    var t :| t in w.owner && w.owner[t] == c && t in w.sys.txs && MadeFrom(w.sys.txs[t], v);
    OwnedWroteNext(w, l, t, limit);
  }

  lemma WrittenIsAccepted(w: World, l: Ledger, c: ClientId, doc: Doc, v: nat, limit: nat)
    requires Consistent(w, l, limit) && WroteIt(w, c, doc, v)
    ensures AcceptedOnto(w, c, v)
  {
    var t :| t in w.owner && w.owner[t] == c && t in w.sys.txs && Wrote(w.sys.txs[t].phase) == Some(v)
             && w.sys.txs[t].req.SaveReq? && w.sys.txs[t].req.input.doc == doc;
    OwnedWroteNext(w, l, t, limit);
    assert MadeFrom(w.sys.txs[t], v);
  }

  /** What was shown and written can be told from version numbers alone. */
  lemma BlindByNumbers(w: World, l: Ledger, c: ClientId, limit: nat)
    requires Consistent(w, l, limit)
    ensures var v := w.sys.store.project.version;
            Blind(w, c) <==> !ShownVersion(w, c, v) && !AcceptedOnto(w, c, v)
  {
    var p := w.sys.store.project;
    assert HistoryOk(l) && p == l.store.project;
    ShownByNumber(w, l, c, p.version);
    if AcceptedOnto(w, c, p.version) { AcceptedIsWritten(w, l, c, p.version, limit); }
    if WroteIt(w, c, p.doc, p.version) { WrittenIsAccepted(w, l, c, p.doc, p.version, limit); }
  }

  /** The exact condition, in numbers the client has. A hook that is up, has nothing queued and stands at the
      stored version v can send its next document through to the commit; that overwrites blindly exactly if
      no message has brought it the document of v and no save of its own based on v - 1 was accepted. Then
      v is what an acknowledgement told it of a save with another base. */
  lemma NextSaveIsBlindExactly(w: World, l: Ledger, c: ClientId, t: TxId, user: UserId, next: Doc, stamp: Stamp,
                               limit: nat)
    requires Consistent(w, l, limit) && w.sys.holder.None? && t !in w.sys.txs && t !in w.owner
    requires c in w.hooks && w.hooks[c] == H.Hook(w.sys.store.project.version, None, None, true)
    ensures var v := w.sys.store.project.version;
            var ms := OneSave(t, c, user, next, v, stamp);
            && ValidMoves(w, ms, limit)
            && var w' := After(w, ms, limit);
               && AboutToCommit(w', t) && w'.owner[t] == c && w'.sys.store == w.sys.store
               && (Blind(w', c) <==> !ShownVersion(w, c, v) && !AcceptedOnto(w, c, v))
               && (Blind(w', c) ==> LateAck(w, c, v))
  {
    assert HookOk(w, l, c, w.hooks[c]);
    OneSaveSends(w, c, t, user, next, stamp, limit);
    SentKeepsSight(w, After(w, OneSave(t, c, user, next, w.sys.store.project.version, stamp), limit), c, t);
    BlindByNumbers(w, l, c, limit);
  }
}
