/** Saves, restores and named snapshots as the service runs them: each request split at its awaits,
    any number in flight, and only the row lock between them. The main result is that every
    interleaving refines the atomic log of `Ledger`. */
module SaveProtocol {
  import opened Wrappers
  import opened Projects
  import opened Ledger
  import opened LedgerLaws

  type TxId = nat

  datatype Request =
    | SaveReq(user: UserId, input: SaveInput)
    | RestoreReq(user: UserId, id: VersionId)
    | KeepReq(user: UserId, title: string)

  /** How far a request has come, with what its session holds in memory. */
  datatype Phase =
    | Reading(seen: Project)                               // access resolved, row read without a lock
    | Loaded(picked: Version)                              // restore: the version row is in memory
    | Holding(local: Project, restoring: Option<Version>)  // row locked and reloaded
    | Pending(op: Op, change: Change)                      // rows staged, not yet committed
    | Committed(version: nat)                              // lock released, about to refresh
    | Replied(doc: Doc, version: nat, wrote: nat)          // what the refresh read
    | Refused(current: nat)
    | Kept
    | Failed

  datatype Tx = Tx(req: Request, phase: Phase)

  datatype Sys = Sys(store: Store, holder: Option<TxId>, txs: map<TxId, Tx>)

  datatype Step =
    | Begin(t: TxId, req: Request)
    | Load(t: TxId)
    | Lock(t: TxId)
    | Reject(t: TxId)
    | Write(t: TxId, stamp: Stamp)
    | Finish(t: TxId)
    | Refresh(t: TxId)
    | KeepNow(t: TxId, id: VersionId, at: Time)
    | RenameNow(user: UserId)
    | Abort(t: TxId)

  ghost predicate Enabled(s: Sys, e: Step) {
    match e
    case Begin(t, _) => t !in s.txs
    case Load(t) => t in s.txs && s.txs[t].phase.Reading? && s.txs[t].req.RestoreReq?
    case Lock(t) =>
      && t in s.txs && s.holder.None?
      && ((s.txs[t].phase.Reading? && s.txs[t].req.SaveReq?) || (s.txs[t].phase.Loaded? && s.txs[t].req.RestoreReq?))
    case Reject(t) =>
      && t in s.txs && s.txs[t].phase.Holding? && s.txs[t].req.SaveReq?
      && !BaseAccepted(s.txs[t].req.input.base, s.txs[t].phase.local.version)
    case Write(t, stamp) =>
      && t in s.txs && s.txs[t].phase.Holding? && !s.txs[t].req.KeepReq?
      && (var Tx(req, Holding(local, picked)) := s.txs[t];
          var view := s.store.(project := local);
          if req.SaveReq? then
            BaseAccepted(req.input.base, local.version) && SaveStampOk(view, req.user, req.input, stamp)
          else
            picked.Some? && RestoreStampOk(view, req.user, stamp))
    case Finish(t) => t in s.txs && s.txs[t].phase.Pending?
    case Refresh(t) => t in s.txs && s.txs[t].phase.Committed?
    case KeepNow(t, id, _) =>
      && t in s.txs && s.txs[t].phase.Reading? && s.txs[t].req.KeepReq?
      && id !in s.store.versions
      && (forall u :: u in s.txs && s.txs[u].phase.Pending? && WritesRow(s.txs[u].phase.op) ==>
          StampIdOf(s.txs[u].phase.op) != id)
    case RenameNow(_) => s.holder.None?
    case Abort(t) =>
      && t in s.txs
      && (var p := s.txs[t].phase; p.Reading? || p.Loaded? || p.Holding? || p.Pending?)
  }

  predicate WritesRow(op: Op) {
    op.Save? || op.Restore?
  }

  function StampIdOf(op: Op): VersionId
    requires WritesRow(op)
  {
    op.stamp.id
  }

  function OpFor(t: TxId, tx: Tx, stamp: Stamp): Op
    requires tx.phase.Holding? && !tx.req.KeepReq? && (tx.req.RestoreReq? ==> tx.phase.restoring.Some?)
  {
    match tx.req
    case SaveReq(user, input) => Save(t, user, input, stamp)
    case RestoreReq(user, _) => Restore(t, user, tx.phase.restoring.value, stamp)
  }

  function At(s: Sys, t: TxId, p: Phase): Sys
    requires t in s.txs
  {
    s.(txs := s.txs[t := s.txs[t].(phase := p)])
  }

  function Release(s: Sys, t: TxId): Sys {
    if s.holder == Some(t) then s.(holder := None) else s
  }

  function TitleOr(title: string): string {
    if title == "" then "Manual save" else title
  }

  ghost function Next(s: Sys, e: Step, limit: nat): Sys
    requires Enabled(s, e)
  {
    match e
    case Begin(t, req) => s.(txs := s.txs[t := Tx(req, Reading(s.store.project))])
    case Load(t) =>
      var id := s.txs[t].req.id;
      At(s, t, if id in s.store.versions then Loaded(s.store.versions[id]) else Failed)
    case Lock(t) =>
      var picked := if s.txs[t].phase.Loaded? then Some(s.txs[t].phase.picked) else None;
      At(s.(holder := Some(t)), t, Holding(s.store.project, picked))
    case Reject(t) => Release(At(s, t, Refused(s.txs[t].phase.local.version)), t)
    case Write(t, stamp) =>
      var op := OpFor(t, s.txs[t], stamp);
      At(s, t, Pending(op, ChangeOf(s.store.(project := s.txs[t].phase.local), op, limit)))
    case Finish(t) =>
      var Pending(op, change) := s.txs[t].phase;
      var after := At(s, t, Committed(change.project.version));
      Release(after.(store := Commit(s.store, change)), t)
    case Refresh(t) =>
      At(s, t, Replied(s.store.project.doc, s.store.project.version, s.txs[t].phase.version))
    case KeepNow(t, id, at) =>
      var Tx(req, Reading(seen)) := s.txs[t];
      if seen.doc.Empty() then At(s, t, Failed)
      else
        var row := SnapshotRow(seen, req.user, TitleOr(req.title), false, at);
        At(s.(store := s.store.(versions := s.store.versions[id := row])), t, Kept)
    case RenameNow(user) => s.(store := s.store.(project := s.store.project.(updatedBy := Some(user))))
    case Abort(t) => Release(At(s, t, Failed), t)
  }

  /** The operation of the atomic log that this step performs, if any. */
  ghost function Emits(s: Sys, e: Step): seq<Op>
    requires Enabled(s, e)
  {
    match e
    case Reject(t) => [Refuse(t, s.txs[t].req.input.base.value, s.txs[t].phase.local.version)]
    case Finish(t) => [s.txs[t].phase.op]
    case KeepNow(t, id, at) =>
      var Tx(req, Reading(seen)) := s.txs[t];
      if seen.doc.Empty() then [] else [Keep(t, req.user, TitleOr(req.title), seen, id, at)]
    case RenameNow(user) => [Rename(user)]
    case _ => []
  }

  ghost predicate ValidRun(s: Sys, es: seq<Step>, limit: nat)
    decreases |es|
  {
    es == [] || (Enabled(s, es[0]) && ValidRun(Next(s, es[0], limit), es[1..], limit))
  }

  ghost function Run(s: Sys, es: seq<Step>, limit: nat): Sys
    requires ValidRun(s, es, limit)
    decreases |es|
  {
    if es == [] then s else Run(Next(s, es[0], limit), es[1..], limit)
  }

  ghost function LogOf(s: Sys, es: seq<Step>, limit: nat): seq<Op>
    requires ValidRun(s, es, limit)
    decreases |es|
  {
    if es == [] then [] else Emits(s, es[0]) + LogOf(Next(s, es[0], limit), es[1..], limit)
  }

  // ---- the simulation ----

  /** What the atomic log knows about one request in flight. */
  ghost predicate TxOk(s: Sys, l: Ledger, t: TxId, limit: nat)
    requires t in s.txs
  {
    var Tx(req, phase) := s.txs[t];
    match phase
    case Reading(seen) => Exact(l.history, seen.doc, seen.version)
    case Loaded(picked) => Exact(l.history, picked.doc, picked.version)
    case Holding(local, picked) =>
      && s.holder == Some(t) && local == l.store.project && !req.KeepReq?
      && (req.RestoreReq? ==> picked.Some?)
      && (picked.Some? ==> Exact(l.history, picked.value.doc, picked.value.version))
    case Pending(op, change) =>
      && s.holder == Some(t) && WritesRow(op) && op.tx == t && Legal(l, op)
      && change == ChangeOf(l.store, op, limit)
      && (req.SaveReq? ==> op.Save? && op.input == req.input)
    case Committed(v) => WroteAt(l, req, v)
    case Replied(doc, v, wrote) => WroteAt(l, req, wrote) && Exact(l.history, doc, v)
    case Refused(current) => req.SaveReq? && req.input.base != Some(current)
    case Kept => true
    case Failed => true
  }

  /** The request's write made version v: the successor of its base, holding its own document. */
  ghost predicate WroteAt(l: Ledger, req: Request, v: nat) {
    && 1 <= v <= |l.history|
    && (req.SaveReq? ==> Exact(l.history, req.input.doc, v) && (req.input.base.Some? ==> v == req.input.base.value + 1))
  }

  /** The version an accepted write made, once it is committed. */
  function Wrote(p: Phase): Option<nat> {
    match p
    case Committed(v) => Some(v)
    case Replied(_, _, v) => Some(v)
    case _ => None
  }

  ghost predicate Sim(s: Sys, l: Ledger, limit: nat) {
    && s.store == l.store && Inv(l, limit)
    && (forall t :: t in s.txs ==> TxOk(s, l, t, limit))
    && DistinctWrites(s.txs)
  }

  ghost predicate DistinctWrites(txs: map<TxId, Tx>) {
    forall t, u :: t in txs && u in txs && t != u && Wrote(txs[t].phase).Some? ==>
        Wrote(txs[t].phase) != Wrote(txs[u].phase)
  }

  /** A request whose step does not change what it wrote keeps writes distinct. */
  lemma DistinctKept(txs: map<TxId, Tx>, t: TxId, tx: Tx)
    requires DistinctWrites(txs)
    requires if t in txs then Wrote(tx.phase) == Wrote(txs[t].phase) else Wrote(tx.phase).None?
    ensures DistinctWrites(txs[t := tx])
  {
    var txs' := txs[t := tx];
    forall a, b | a in txs' && b in txs' && a != b && Wrote(txs'[a].phase).Some?
      ensures Wrote(txs'[a].phase) != Wrote(txs'[b].phase)
    {
      if a in txs && b in txs {
        assert Wrote(txs[a].phase).Some? ==> Wrote(txs[a].phase) != Wrote(txs[b].phase);
      }
    }
  }

  /** A write that makes a version newer than all so far keeps writes distinct. */
  lemma DistinctExtended(s: Sys, l: Ledger, t: TxId, tx: Tx, limit: nat)
    requires Sim(s, l, limit) && t in s.txs && Wrote(tx.phase) == Some(|l.history| + 1)
    ensures DistinctWrites(s.txs[t := tx])
  {
    var txs' := s.txs[t := tx];
    forall a, b | a in txs' && b in txs' && a != b && Wrote(txs'[a].phase).Some?
      ensures Wrote(txs'[a].phase) != Wrote(txs'[b].phase)
    {
      assert TxOk(s, l, a, limit) && TxOk(s, l, b, limit);
      assert a != t && b != t ==> Wrote(s.txs[a].phase) != Wrote(s.txs[b].phase);
    }
  }

  /** A named row that appears beside a staged write does not disturb it. */
  lemma NamedRowKeepsStamp(s: Store, takes: bool, row: Version, stamp: Stamp, id: VersionId, named: Version)
    requires StampOk(s, takes, row, stamp) && id !in s.versions && id != stamp.id && !named.auto
    ensures StampOk(s.(versions := s.versions[id := named]), takes, row, stamp)
  {
    if takes && !s.project.doc.Empty() && row.auto {
      var staged := s.versions[stamp.id := row];
      var staged' := s.versions[id := named][stamp.id := row];
      forall k ensures IsAuto(staged', k) <==> IsAuto(staged, k) {}
      assert NewestFirst(staged', stamp.order);
    }
  }

  lemma LegalBesideNamed(l: Ledger, op: Op, id: VersionId, named: Version)
    requires Legal(l, op) && WritesRow(op) && op.stamp.id != id && id !in l.store.versions && !named.auto
    ensures Legal(l.(store := l.store.(versions := l.store.versions[id := named])), op)
  {
    match op
    case Save(_, user, input, stamp) =>
      NamedRowKeepsStamp(l.store, TakesSnapshot(input),
                         SnapshotRow(l.store.project, user, TitleOf(input), input.title.None?, stamp.at),
                         stamp, id, named);
    case Restore(_, user, _, stamp) =>
      NamedRowKeepsStamp(l.store, true, SnapshotRow(l.store.project, user, BEFORE_RESTORE, true, stamp.at),
                         stamp, id, named);
  }

  ghost function LedgerAfter(s: Sys, l: Ledger, e: Step, limit: nat): Ledger
    requires Enabled(s, e)
  {
    if Emits(s, e) == [] then l else Exec(l, Emits(s, e)[0], limit)
  }

  /** A request that holds nothing locked only cares that history grows. */
  lemma TxOkGrows(s: Sys, l: Ledger, s': Sys, l': Ledger, u: TxId, limit: nat)
    requires u in s.txs && u in s'.txs && s'.txs[u] == s.txs[u] && TxOk(s, l, u, limit)
    requires !s.txs[u].phase.Holding? && !s.txs[u].phase.Pending? && l.history <= l'.history
    ensures TxOk(s', l', u, limit)
  {
  }

  function DocOf(op: Op): Doc
    requires WritesRow(op)
  {
    if op.Save? then op.input.doc else op.picked.doc
  }

  lemma WriteExtends(l: Ledger, op: Op, limit: nat)
    requires WritesRow(op)
    ensures Exec(l, op, limit).history == l.history + [DocOf(op)]
  {
  }

  lemma FinishKeepsOwn(s: Sys, l: Ledger, t: TxId, l': Ledger, limit: nat)
    requires Sim(s, l, limit) && Enabled(s, Finish(t)) && WritesRow(s.txs[t].phase.op)
    requires l'.history == l.history + [DocOf(s.txs[t].phase.op)]
    ensures TxOk(Next(s, Finish(t), limit), l', t, limit)
    ensures Wrote(Next(s, Finish(t), limit).txs[t].phase) == Some(|l.history| + 1)
  {
    assert TxOk(s, l, t, limit);
  }

  lemma FinishKeepsTx(s: Sys, l: Ledger, t: TxId, u: TxId, limit: nat)
    requires Sim(s, l, limit) && Enabled(s, Finish(t)) && u in s.txs && WritesRow(s.txs[t].phase.op)
    ensures TxOk(Next(s, Finish(t), limit), Exec(l, s.txs[t].phase.op, limit), u, limit)
  {
    var l' := Exec(l, s.txs[t].phase.op, limit);
    WriteExtends(l, s.txs[t].phase.op, limit);
    if u == t {
      FinishKeepsOwn(s, l, t, l', limit);
    } else {
      assert TxOk(s, l, t, limit) && TxOk(s, l, u, limit);
      TxOkGrows(s, l, Next(s, Finish(t), limit), l', u, limit);
    }
  }

  lemma FinishSimulates(s: Sys, l: Ledger, t: TxId, limit: nat)
    requires Sim(s, l, limit) && Enabled(s, Finish(t))
    ensures Legal(l, s.txs[t].phase.op)
    ensures Sim(Next(s, Finish(t), limit), Exec(l, s.txs[t].phase.op, limit), limit)
  {
    assert TxOk(s, l, t, limit);
    var op := s.txs[t].phase.op;
    var s', l' := Next(s, Finish(t), limit), Exec(l, op, limit);
    forall u | u in s'.txs ensures TxOk(s', l', u, limit) {
      FinishKeepsTx(s, l, t, u, limit);
    }
    ExecKeeps(l, op, limit);
    WriteExtends(l, op, limit);
    FinishKeepsOwn(s, l, t, l', limit);
    DistinctExtended(s, l, t, s'.txs[t], limit);
  }

  lemma KeepSimulates(s: Sys, l: Ledger, t: TxId, id: VersionId, at: Time, limit: nat)
    requires Sim(s, l, limit) && Enabled(s, KeepNow(t, id, at)) && !s.txs[t].phase.seen.doc.Empty()
    ensures Legal(l, Emits(s, KeepNow(t, id, at))[0])
    ensures Sim(Next(s, KeepNow(t, id, at), limit), Exec(l, Emits(s, KeepNow(t, id, at))[0], limit), limit)
  {
    assert TxOk(s, l, t, limit);
    var op := Emits(s, KeepNow(t, id, at))[0];
    var s', l' := Next(s, KeepNow(t, id, at), limit), Exec(l, op, limit);
    DistinctKept(s.txs, t, s'.txs[t]);
    ExecKeeps(l, op, limit);
    forall u | u in s'.txs ensures TxOk(s', l', u, limit) {
      assert TxOk(s, l, u, limit);
      if u != t && s.txs[u].phase.Pending? {
        LegalBesideNamed(l, s.txs[u].phase.op, id, SnapshotRow(op.seen, op.user, op.title, false, op.at));
      }
    }
  }

  lemma QuietSimulates(s: Sys, l: Ledger, e: Step, limit: nat)
    requires Sim(s, l, limit) && Enabled(s, e) && Emits(s, e) == []
    ensures Sim(Next(s, e, limit), l, limit)
  {
    var s' := Next(s, e, limit);
    QuietDistinct(s, l, e, limit);
    assert e.t in s.txs ==> TxOk(s, l, e.t, limit);
    forall u | u in s'.txs ensures TxOk(s', l, u, limit) {
      assert u in s.txs ==> TxOk(s, l, u, limit);
      QuietTx(s, l, e, u, limit);
    }
  }

  lemma QuietTx(s: Sys, l: Ledger, e: Step, u: TxId, limit: nat)
    requires s.store == l.store && HistoryOk(l) && VersionsExact(l)
    requires Enabled(s, e) && Emits(s, e) == [] && u in Next(s, e, limit).txs
    requires u in s.txs ==> TxOk(s, l, u, limit)
    requires e.t in s.txs ==> TxOk(s, l, e.t, limit)
    ensures TxOk(Next(s, e, limit), l, u, limit)
  {
  }

  lemma QuietDistinct(s: Sys, l: Ledger, e: Step, limit: nat)
    requires Sim(s, l, limit) && Enabled(s, e) && Emits(s, e) == []
    ensures DistinctWrites(Next(s, e, limit).txs)
  {
    var s' := Next(s, e, limit);
    assert s'.txs == s.txs[e.t := s'.txs[e.t]];
    DistinctKept(s.txs, e.t, s'.txs[e.t]);
  }

  lemma StepSimulates(s: Sys, l: Ledger, e: Step, limit: nat)
    requires Sim(s, l, limit) && Enabled(s, e)
    ensures Emits(s, e) != [] ==> Legal(l, Emits(s, e)[0])
    ensures Sim(Next(s, e, limit), LedgerAfter(s, l, e, limit), limit)
  {
    if Emits(s, e) == [] {
      QuietSimulates(s, l, e, limit);
    } else {
      match e
      case Finish(t) => FinishSimulates(s, l, t, limit);
      case KeepNow(t, id, at) => KeepSimulates(s, l, t, id, at, limit);
      case Reject(t) =>
        assert TxOk(s, l, t, limit);
        var s' := Next(s, e, limit);
        DistinctKept(s.txs, t, s'.txs[t]);
        forall u | u in s'.txs ensures TxOk(s', l, u, limit) { assert TxOk(s, l, u, limit); }
      case RenameNow(user) =>
        var s', l' := Next(s, e, limit), Exec(l, Emits(s, e)[0], limit);
        ExecKeeps(l, Emits(s, e)[0], limit);
        forall u | u in s'.txs ensures TxOk(s', l', u, limit) { assert TxOk(s, l, u, limit); }
    }
  }

  /** Refinement: whatever the interleaving, the operations in the order they took effect form a
      legal atomic log, and replaying it gives the stored row, version rows and feed. */
  lemma {:induction false} Refines(s: Sys, l: Ledger, es: seq<Step>, limit: nat)
    requires Sim(s, l, limit) && ValidRun(s, es, limit)
    ensures LegalLog(l, LogOf(s, es, limit), limit)
    ensures Sim(Run(s, es, limit), Replay(l, LogOf(s, es, limit), limit), limit)
    decreases |es|
  {
    if es != [] {
      var e := es[0];
      StepSimulates(s, l, e, limit);
      Refines(Next(s, e, limit), LedgerAfter(s, l, e, limit), es[1..], limit);
      var rest := LogOf(Next(s, e, limit), es[1..], limit);
      if Emits(s, e) == [] {
        assert LogOf(s, es, limit) == rest;
      } else {
        assert LogOf(s, es, limit)[0] == Emits(s, e)[0] && LogOf(s, es, limit)[1..] == rest;
      }
    }
  }

  /** The service before any request: a newborn project and nothing in flight. */
  function Start(l: Ledger): Sys {
    Sys(l.store, None, map[])
  }

  /** In every reachable state, at most one of the saves that named a base was accepted, however
      many overlapped. */
  lemma AtMostOneSaveWins(l: Ledger, es: seq<Step>, t: TxId, u: TxId, limit: nat)
    requires Inv(l, limit) && ValidRun(Start(l), es, limit)
    requires t in Run(Start(l), es, limit).txs && u in Run(Start(l), es, limit).txs && t != u
    requires Run(Start(l), es, limit).txs[t].req.SaveReq? && Run(Start(l), es, limit).txs[u].req.SaveReq?
    requires Run(Start(l), es, limit).txs[t].req.input.base.Some?
    requires Run(Start(l), es, limit).txs[t].req.input.base == Run(Start(l), es, limit).txs[u].req.input.base
    ensures Wrote(Run(Start(l), es, limit).txs[t].phase).None? || Wrote(Run(Start(l), es, limit).txs[u].phase).None?
  {
    Refines(Start(l), l, es, limit);
    OneWriteABase(Run(Start(l), es, limit), Replay(l, LogOf(Start(l), es, limit), limit), t, u, limit);
  }

  lemma OneWriteABase(s: Sys, l: Ledger, t: TxId, u: TxId, limit: nat)
    requires t in s.txs && u in s.txs && t != u && DistinctWrites(s.txs) && TxOk(s, l, t, limit) && TxOk(s, l, u, limit)
    requires s.txs[t].req.SaveReq? && s.txs[u].req.SaveReq? && s.txs[t].req.input.base.Some?
    requires s.txs[t].req.input.base == s.txs[u].req.input.base
    ensures Wrote(s.txs[t].phase).None? || Wrote(s.txs[u].phase).None?
  {
  }

  /** In every reachable state the stored rows are those of a legal atomic log, so all that such logs
      keep holds of them: counts, the version cap, and that every version row (named ones taken without
      the lock included) is the document at the version it records; and the feed's shape, when the
      clock never went back. */
  lemma ReachableStoresAreLogged(l: Ledger, es: seq<Step>, limit: nat)
    requires Inv(l, limit) && ValidRun(Start(l), es, limit)
    ensures var log := LogOf(Start(l), es, limit);
            && LegalLog(l, log, limit)
            && Run(Start(l), es, limit).store == Replay(l, log, limit).store
            && Inv(Replay(l, log, limit), limit)
            && (FeedSound(l) && TimelyLog(l, log, limit) ==> FeedSound(Replay(l, log, limit)))
            && Run(Start(l), es, limit).store.project.version == l.store.project.version + Count(log, Writes)
  {
    Refines(Start(l), l, es, limit);
    VersionCountsWrites(l, LogOf(Start(l), es, limit), limit);
    if FeedSound(l) && TimelyLog(l, LogOf(Start(l), es, limit), limit) {
      ReplayKeepsFeed(l, LogOf(Start(l), es, limit), limit);
    }
  }

  // ---- the acknowledged version ----

  lemma StepKeepsRequest(s: Sys, e: Step, t: TxId, limit: nat)
    requires Enabled(s, e) && t in s.txs
    ensures t in Next(s, e, limit).txs && Next(s, e, limit).txs[t].req == s.txs[t].req
    ensures Wrote(s.txs[t].phase).Some? ==> Wrote(Next(s, e, limit).txs[t].phase) == Wrote(s.txs[t].phase)
    ensures s.txs[t].phase.Replied? ==> Next(s, e, limit).txs[t].phase == s.txs[t].phase
  {
  }

  /** A committed request keeps the version it wrote until and after it replies. */
  lemma {:induction false} WroteStays(s: Sys, es: seq<Step>, t: TxId, limit: nat)
    requires ValidRun(s, es, limit) && t in s.txs && Wrote(s.txs[t].phase).Some?
    ensures t in Run(s, es, limit).txs && Wrote(Run(s, es, limit).txs[t].phase) == Wrote(s.txs[t].phase)
    decreases |es|
  {
    if es != [] {
      StepKeepsRequest(s, es[0], t, limit);
      WroteStays(Next(s, es[0], limit), es[1..], t, limit);
    }
  }

  /** The refresh after the commit is a separate, unlocked read. The version it reports is the one
      this request wrote plus the writes committed in between, so it is the right one exactly when
      there were none. */
  lemma AckCountsLaterWrites(s: Sys, l: Ledger, t: TxId, es: seq<Step>, limit: nat)
    requires Sim(s, l, limit) && Enabled(s, Finish(t))
    requires ValidRun(Next(s, Finish(t), limit), es, limit)
    requires Enabled(Run(Next(s, Finish(t), limit), es, limit), Refresh(t))
    ensures var s1 := Next(s, Finish(t), limit);
            var reply := Next(Run(s1, es, limit), Refresh(t), limit).txs[t].phase;
            && reply.wrote == s.store.project.version + 1
            && reply.version == reply.wrote + Count(LogOf(s1, es, limit), Writes)
  {
    assert TxOk(s, l, t, limit);
    FinishSimulates(s, l, t, limit);
    var s1, l1 := Next(s, Finish(t), limit), Exec(l, s.txs[t].phase.op, limit);
    Refines(s1, l1, es, limit);
    VersionCountsWrites(l1, LogOf(s1, es, limit), limit);
    WroteStays(s1, es, t, limit);
  }
}
