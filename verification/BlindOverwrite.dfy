/** That a late acknowledgement does occur: a run in which the refresh after a commit reads
    a later version, and the client then overwrites a document nobody ever showed it. */
module BlindOverwrite {
  import opened Wrappers
  import opened Projects
  import opened Ledger
  import opened SaveProtocol
  import opened EndToEnd
  import H = Hook

  function Page(n: nat): Doc {
    Doc(Items(n), Absent, [])
  }

  const STAMP := Stamp(0, 0, [], 0)

  lemma {:induction false} OneMore(w: World, ms: seq<Move>, m: Move, limit: nat)
    requires ValidMoves(w, ms, limit) && Possible(After(w, ms, limit), m)
    ensures ValidMoves(w, ms + [m], limit)
    ensures After(w, ms + [m], limit) == Moved(After(w, ms, limit), m, limit)
    decreases |ms|
  {
    if ms == [] {
      assert [m][1..] == [];
    } else {
      OneMore(Moved(w, ms[0], limit), ms[1..], m, limit);
      assert (ms + [m])[1..] == ms[1..] + [m];
    }
  }

  /** A request that has read the row locks it, stages a save and commits, as three moves. */
  lemma SaveThrough(w: World, ms: seq<Move>, t: TxId, limit: nat) returns (ms': seq<Move>)
    requires ValidMoves(w, ms, limit)
    requires var v := After(w, ms, limit);
             && t in v.sys.txs && v.sys.txs[t].phase.Reading? && v.sys.txs[t].req.SaveReq? && v.sys.holder.None?
             && !TakesSnapshot(v.sys.txs[t].req.input)
             && BaseAccepted(v.sys.txs[t].req.input.base, v.sys.store.project.version)
    ensures ValidMoves(w, ms', limit)
    ensures var v, v' := After(w, ms, limit), After(w, ms', limit);
            && v'.sys.store.project.doc == v.sys.txs[t].req.input.doc
            && v'.sys.store.project.version == v.sys.store.project.version + 1
            && v'.sys.holder.None?
            && v'.sys.txs == v.sys.txs[t := v.sys.txs[t].(phase := Committed(v.sys.store.project.version + 1))]
            && v'.hooks == v.hooks && v'.inbox == v.inbox && v'.heard == v.heard
            && v'.frames == v.frames && v'.owner == v.owner
  {
    OneMore(w, ms, Serve(Lock(t)), limit);
    var locked := ms + [Serve(Lock(t))];
    ms' := StageAndFinish(w, locked, t, limit);
  }

  lemma StageAndFinish(w: World, ms: seq<Move>, t: TxId, limit: nat) returns (ms': seq<Move>)
    requires ValidMoves(w, ms, limit)
    requires var v := After(w, ms, limit);
             && t in v.sys.txs && v.sys.txs[t].phase.Holding? && v.sys.txs[t].phase.local == v.sys.store.project
             && v.sys.txs[t].req.SaveReq? && v.sys.holder == Some(t)
             && !TakesSnapshot(v.sys.txs[t].req.input)
             && BaseAccepted(v.sys.txs[t].req.input.base, v.sys.store.project.version)
    ensures ValidMoves(w, ms', limit)
    ensures var v, v' := After(w, ms, limit), After(w, ms', limit);
            && v'.sys.store.project.doc == v.sys.txs[t].req.input.doc
            && v'.sys.store.project.version == v.sys.store.project.version + 1
            && v'.sys.holder.None?
            && v'.sys.txs == v.sys.txs[t := v.sys.txs[t].(phase := Committed(v.sys.store.project.version + 1))]
            && v'.hooks == v.hooks && v'.inbox == v.inbox && v'.heard == v.heard
            && v'.frames == v.frames && v'.owner == v.owner
  {
    OneMore(w, ms, Serve(Write(t, STAMP)), limit);
    var staged := ms + [Serve(Write(t, STAMP))];
    OneMore(w, staged, Serve(Finish(t)), limit);
    ms' := staged + [Serve(Finish(t))];
  }

  const CLIENT: ClientId := 0
  const NEWBORN := Born(Page(1), 1, 7, 0)

  ghost function Opened(): World {
    Opening(NEWBORN, {CLIENT})
  }

  /** The run `ms` is possible and leads to a world with these hooks, messages and requests. */
  ghost predicate LeadsTo(ms: seq<Move>, limit: nat, doc: Doc, version: nat, txs: map<TxId, Tx>,
                          hook: H.Hook, inbox: set<(ClientId, Message)>, owner: map<TxId, ClientId>) {
    && ValidMoves(Opened(), ms, limit)
    && (var v := After(Opened(), ms, limit);
        && v.sys.store.project.doc == doc && v.sys.store.project.version == version
        && v.sys.holder.None? && v.sys.txs == txs
        && v.hooks == map[CLIENT := hook] && v.inbox == inbox && v.heard == inbox && v.owner == owner)
  }

  lemma Greeted(limit: nat) returns (ms: seq<Move>)
    ensures LeadsTo(ms, limit, Page(1), 1, map[], H.Hook(1, None, None, true), {(CLIENT, Hello(Page(1), 1))}, map[])
    ensures After(Opened(), ms, limit).frames == {}
  {
    OneMore(Opened(), [], Local(CLIENT, H.SocketUp), limit);
    ms := [] + [Local(CLIENT, H.SocketUp)];
    OneMore(Opened(), ms, Greet(CLIENT), limit);
    ms := ms + [Greet(CLIENT)];
    OneMore(Opened(), ms, Deliver(CLIENT, Hello(Page(1), 1)), limit);
    ms := ms + [Deliver(CLIENT, Hello(Page(1), 1))];
  }

  /** The client's document goes out at once, based on the version on display, and reaches the service. */
  lemma SendAndReceive(ms: seq<Move>, t: TxId, next: Doc, doc: Doc, version: nat, txs: map<TxId, Tx>,
                       inbox: set<(ClientId, Message)>, owner: map<TxId, ClientId>, limit: nat)
      returns (ms': seq<Move>, tx: Tx)
    requires LeadsTo(ms, limit, doc, version, txs, H.Hook(version, None, None, true), inbox, owner)
    requires t !in txs && version != 0
    ensures tx.req == SaveReq(7, SaveOf(H.Frame(next, Some(version)), None, false)) && tx.phase.Reading?
    ensures LeadsTo(ms', limit, doc, version, txs[t := tx], H.Hook(version, None, None, true), inbox,
                    owner[t := CLIENT])
  {
    OneMore(Opened(), ms, Local(CLIENT, H.QueueDoc(next, true, true)), limit);
    ms' := ms + [Local(CLIENT, H.QueueDoc(next, true, true))];
    var frame := H.Frame(next, Some(version));
    OneMore(Opened(), ms', Receive(t, CLIENT, 7, frame, None, false), limit);
    tx := Tx(SaveReq(7, SaveOf(frame, None, false)), Reading(After(Opened(), ms, limit).sys.store.project));
    ms' := ms' + [Receive(t, CLIENT, 7, frame, None, false)];
  }

  /** The client greets and saves; before its refresh, a save over HTTP lands on top. */
  lemma AckNamesTheOtherSave(limit: nat) returns (ms: seq<Move>, mine: Tx, other: Tx)
    ensures mine.phase == Committed(2) && mine.req.SaveReq? && other.phase == Committed(3)
    ensures LeadsTo(ms, limit, Page(3), 3, map[0 := mine, 1 := other], H.Hook(1, None, None, true),
                    {(CLIENT, Hello(Page(1), 1))}, map[0 := CLIENT])
  {
    ms := Greeted(limit);
    ms, mine := SendAndReceive(ms, 0, Page(2), Page(1), 1, map[], {(CLIENT, Hello(Page(1), 1))}, map[], limit);
    ms := SaveThrough(Opened(), ms, 0, limit);
    mine := mine.(phase := Committed(2));
    var save := SaveReq(8, SaveInput(Page(3), None, None, None, false));
    other := Tx(save, Reading(After(Opened(), ms, limit).sys.store.project));
    OneMore(Opened(), ms, Serve(Begin(1, save)), limit);
    ms := ms + [Serve(Begin(1, save))];
    ms := SaveThrough(Opened(), ms, 1, limit);
    other := other.(phase := Committed(3));
  }

  /** The refresh reads version 3 for the request that wrote version 2. */
  lemma RefreshedTooLate(limit: nat) returns (ms: seq<Move>, mine: Tx, other: Tx)
    ensures mine.phase == Replied(Page(3), 3, 2) && other.phase == Committed(3)
    ensures LeadsTo(ms, limit, Page(3), 3, map[0 := mine, 1 := other], H.Hook(1, None, None, true),
                    {(CLIENT, Hello(Page(1), 1))}, map[0 := CLIENT])
  {
    ms, mine, other := AckNamesTheOtherSave(limit);
    OneMore(Opened(), ms, Serve(Refresh(0)), limit);
    ms := ms + [Serve(Refresh(0))];
    mine := mine.(phase := Replied(Page(3), 3, 2));
  }

  /** The acknowledgement carries version 3, and the client now bases its edits on it. */
  lemma AckAdopted(limit: nat) returns (ms: seq<Move>, mine: Tx, other: Tx)
    ensures mine.phase == Replied(Page(3), 3, 2) && other.phase == Committed(3)
    ensures LeadsTo(ms, limit, Page(3), 3, map[0 := mine, 1 := other], H.Hook(3, None, None, true),
                    {(CLIENT, Hello(Page(1), 1)), (CLIENT, DocAck(3))}, map[0 := CLIENT])
  {
    ms, mine, other := RefreshedTooLate(limit);
    OneMore(Opened(), ms, Answer(0, {}), limit);
    assert Replies({}, CLIENT, Page(3), 3) == {(CLIENT, DocAck(3))};
    ms := ms + [Answer(0, {})];
    OneMore(Opened(), ms, Deliver(CLIENT, DocAck(3)), limit);
    ms := ms + [Deliver(CLIENT, DocAck(3))];
  }

  lemma NextSaveReceived(limit: nat) returns (ms: seq<Move>, mine: Tx, other: Tx, tx: Tx)
    ensures mine.phase == Replied(Page(3), 3, 2) && other.phase == Committed(3)
    ensures tx.req == SaveReq(7, SaveOf(H.Frame(Page(4), Some(3)), None, false)) && tx.phase.Reading?
    ensures LeadsTo(ms, limit, Page(3), 3, map[0 := mine, 1 := other][2 := tx], H.Hook(3, None, None, true),
                    {(CLIENT, Hello(Page(1), 1)), (CLIENT, DocAck(3))}, map[0 := CLIENT][2 := CLIENT])
  {
    ms, mine, other := AckAdopted(limit);
    ms, tx := SendAndReceive(ms, 2, Page(4), Page(3), 3, map[0 := mine, 1 := other],
                             {(CLIENT, Hello(Page(1), 1)), (CLIENT, DocAck(3))}, map[0 := CLIENT], limit);
  }

  /** Its next save is accepted over a document that was never sent to it and that it did not write. */
  lemma UnfaithfulRefreshOverwritesBlindly(limit: nat) returns (ms: seq<Move>)
    ensures ValidMoves(Opened(), ms, limit)
    ensures var w := After(Opened(), ms, limit);
            var replaced := w.sys.store.project;
            && AboutToCommit(w, 2) && w.owner[2] == CLIENT
            && w.sys.txs[2].req.SaveReq? && w.sys.txs[2].req.input.base == Some(replaced.version)
            && Blind(w, CLIENT)
  {
    var mine, other, tx;
    ms, mine, other, tx := NextSaveReceived(limit);
    OneMore(Opened(), ms, Serve(Lock(2)), limit);
    ms := ms + [Serve(Lock(2))];
    OneMore(Opened(), ms, Serve(Write(2, STAMP)), limit);
    ms := ms + [Serve(Write(2, STAMP))];
  }
}
