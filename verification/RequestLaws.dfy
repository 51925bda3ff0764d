/** How the atomic log and the requests that made it belong together, over every interleaving. */
module RequestLaws {
  import opened Wrappers
  import opened Projects
  import opened Ledger
  import opened LedgerLaws
  import opened SaveProtocol

  lemma {:induction false} RunSplits(s: Sys, es: seq<Step>, fs: seq<Step>, limit: nat)
    requires ValidRun(s, es + fs, limit)
    ensures ValidRun(s, es, limit) && ValidRun(Run(s, es, limit), fs, limit)
    ensures Run(s, es + fs, limit) == Run(Run(s, es, limit), fs, limit)
    ensures LogOf(s, es + fs, limit) == LogOf(s, es, limit) + LogOf(Run(s, es, limit), fs, limit)
    decreases |es|
  {
    if es == [] {
      assert es + fs == fs;
    } else {
      assert (es + fs)[1..] == es[1..] + fs && (es + fs)[0] == es[0];
      RunSplits(Next(s, es[0], limit), es[1..], fs, limit);
    }
  }

  lemma RunOne(s: Sys, e: Step, limit: nat)
    requires ValidRun(s, [e], limit)
    ensures Enabled(s, e) && Run(s, [e], limit) == Next(s, e, limit) && LogOf(s, [e], limit) == Emits(s, e)
  {
    assert [e][1..] == [];
    assert Run(Next(s, e, limit), [], limit) == Next(s, e, limit) && LogOf(Next(s, e, limit), [], limit) == [];
  }

  lemma RunSnoc(s: Sys, es: seq<Step>, limit: nat)
    requires ValidRun(s, es, limit) && es != []
    ensures var k := |es| - 1;
            && ValidRun(s, es[..k], limit) && Enabled(Run(s, es[..k], limit), es[k])
            && Run(s, es, limit) == Next(Run(s, es[..k], limit), es[k], limit)
            && LogOf(s, es, limit) == LogOf(s, es[..k], limit) + Emits(Run(s, es[..k], limit), es[k])
  {
    assert es == es[..|es| - 1] + [es[|es| - 1]];
    RunThen(s, es[..|es| - 1], es[|es| - 1], limit);
  }

  lemma RunThen(s: Sys, pre: seq<Step>, e: Step, limit: nat)
    requires ValidRun(s, pre + [e], limit)
    ensures ValidRun(s, pre, limit) && Enabled(Run(s, pre, limit), e)
    ensures Run(s, pre + [e], limit) == Next(Run(s, pre, limit), e, limit)
    ensures LogOf(s, pre + [e], limit) == LogOf(s, pre, limit) + Emits(Run(s, pre, limit), e)
  {
    RunSplits(s, pre, [e], limit);
    RunOne(Run(s, pre, limit), e, limit);
  }

  /** An operation does what a request asked, in the name of whoever asked. */
  predicate Serves(op: Op, t: TxId, req: Request) {
    match op
    case Save(tx, user, input, _) => tx == t && req == SaveReq(user, input)
    case Restore(tx, user, _, _) => tx == t && req.RestoreReq? && req.user == user
    case Keep(tx, user, title, _, _, _) =>
      tx == t && req.KeepReq? && req.user == user && title == (if req.title == "" then "Manual save" else req.title)
    case Refuse(tx, base, _) => tx == t && req.SaveReq? && req.input.base == Some(base)
    case Rename(_) => false
  }

  ghost predicate Attributed(s: Sys) {
    forall t :: t in s.txs && s.txs[t].phase.Pending? ==>
      Serves(s.txs[t].phase.op, t, s.txs[t].req) && WritesRow(s.txs[t].phase.op)
  }

  lemma StepAttributes(s: Sys, e: Step, limit: nat)
    requires Attributed(s) && Enabled(s, e)
    ensures Attributed(Next(s, e, limit))
    ensures forall i :: 0 <= i < |Emits(s, e)| ==>
              Emits(s, e)[i].Rename? || (Emits(s, e)[i].tx in s.txs &&
                                         Serves(Emits(s, e)[i], Emits(s, e)[i].tx, s.txs[Emits(s, e)[i].tx].req))
  {
  }

  ghost predicate LogServes(s: Sys, log: seq<Op>) {
    forall i :: 0 <= i < |log| ==> log[i].Rename? || (log[i].tx in s.txs &&
                                                      Serves(log[i], log[i].tx, s.txs[log[i].tx].req))
  }

  /** Each operation of the log is what its request asked: the same document, base and label, and the same
      person, to whom the feed and the snapshots then credit it. */
  lemma {:induction false} LogServesRequests(s: Sys, es: seq<Step>, limit: nat)
    requires Attributed(s) && ValidRun(s, es, limit)
    ensures Attributed(Run(s, es, limit)) && LogServes(Run(s, es, limit), LogOf(s, es, limit))
    decreases |es|
  {
    if es != [] {
      var k := |es| - 1;
      RunSnoc(s, es, limit);
      LogServesRequests(s, es[..k], limit);
      var s1 := Run(s, es[..k], limit);
      StepAttributes(s1, es[k], limit);
      forall t | t in s1.txs
        ensures t in Next(s1, es[k], limit).txs && Next(s1, es[k], limit).txs[t].req == s1.txs[t].req
      {
        StepKeepsRequest(s1, es[k], t, limit);
      }
    }
  }

  /** How often the log writes for a request. */
  function WritesFor(log: seq<Op>, t: TxId): nat {
    if log == [] then 0 else (if WritesRow(log[0]) && log[0].tx == t then 1 else 0) + WritesFor(log[1..], t)
  }

  lemma {:induction false} WritesConcat(a: seq<Op>, b: seq<Op>, t: TxId)
    ensures WritesFor(a + b, t) == WritesFor(a, t) + WritesFor(b, t)
  {
    if a == [] {
      assert a + b == b;
    } else {
      assert (a + b)[1..] == a[1..] + b;
      WritesConcat(a[1..], b, t);
    }
  }

  ghost function HasWritten(s: Sys, t: TxId): nat {
    if t in s.txs && Wrote(s.txs[t].phase).Some? then 1 else 0
  }

  lemma StepWritesOnce(s: Sys, e: Step, t: TxId, limit: nat)
    requires Attributed(s) && Enabled(s, e)
    ensures HasWritten(Next(s, e, limit), t) == HasWritten(s, t) + WritesFor(Emits(s, e), t)
  {
    if Emits(s, e) != [] {
      assert Emits(s, e)[1..] == [];
      assert WritesFor(Emits(s, e)[1..], t) == 0;
    }
  }

  /** A request that says it committed is in the log, once; any other is not. */
  lemma {:induction false} CommittedExactlyOnce(s: Sys, es: seq<Step>, t: TxId, limit: nat)
    requires Attributed(s) && ValidRun(s, es, limit)
    ensures HasWritten(Run(s, es, limit), t) == HasWritten(s, t) + WritesFor(LogOf(s, es, limit), t)
    decreases |es|
  {
    if es != [] {
      StepAttributes(s, es[0], limit);
      StepWritesOnce(s, es[0], t, limit);
      CommittedExactlyOnce(Next(s, es[0], limit), es[1..], t, limit);
      WritesConcat(Emits(s, es[0]), LogOf(Next(s, es[0], limit), es[1..], limit), t);
    }
  }

  // ---- which row a restore writes ----

  /** At some point of the run the row `id` was there and was this one. */
  ghost predicate WasStored(s: Sys, es: seq<Step>, id: VersionId, row: Version, limit: nat)
    requires ValidRun(s, es, limit)
  {
    exists k :: (0 <= k <= |es| && ValidRun(s, es[..k], limit)
                 && id in Run(s, es[..k], limit).store.versions && Run(s, es[..k], limit).store.versions[id] == row)
  }

  /** What a restore under way has picked, if it has. */
  function Picked(p: Phase): Option<Version> {
    match p
    case Loaded(row) => Some(row)
    case Holding(_, picked) => picked
    case Pending(op, _) => if op.Restore? then Some(op.picked) else None
    case _ => None
  }

  lemma WasStoredLater(s: Sys, es: seq<Step>, id: VersionId, row: Version, limit: nat)
    requires ValidRun(s, es, limit) && es != [] && ValidRun(s, es[..|es| - 1], limit)
    requires WasStored(s, es[..|es| - 1], id, row, limit)
    ensures WasStored(s, es, id, row, limit)
  {
    var pre := es[..|es| - 1];
    var k :| (0 <= k <= |pre| && ValidRun(s, pre[..k], limit)
              && id in Run(s, pre[..k], limit).store.versions && Run(s, pre[..k], limit).store.versions[id] == row);
    assert pre[..k] == es[..k];
  }

  ghost predicate PicksStored(s: Sys, es: seq<Step>, t: TxId, limit: nat)
    requires ValidRun(s, es, limit)
  {
    var s' := Run(s, es, limit);
    t in s'.txs && Picked(s'.txs[t].phase).Some? ==>
      s'.txs[t].req.RestoreReq? && WasStored(s, es, s'.txs[t].req.id, Picked(s'.txs[t].phase).value, limit)
  }

  lemma StepPicks(s: Sys, e: Step, t: TxId, limit: nat)
    requires Enabled(s, e) && t in Next(s, e, limit).txs && Picked(Next(s, e, limit).txs[t].phase).Some?
    ensures t in s.txs && Next(s, e, limit).txs[t].req == s.txs[t].req
    ensures Picked(s.txs[t].phase) == Picked(Next(s, e, limit).txs[t].phase)
            || (s.txs[t].req.RestoreReq? && s.txs[t].req.id in s.store.versions
                && Picked(Next(s, e, limit).txs[t].phase) == Some(s.store.versions[s.txs[t].req.id]))
  {
  }

  lemma {:induction false} RestoresPick(s: Sys, es: seq<Step>, t: TxId, limit: nat)
    requires ValidRun(s, es, limit) && s.txs == map[]
    ensures PicksStored(s, es, t, limit)
    decreases |es|
  {
    if es != [] {
      var k := |es| - 1;
      RunSnoc(s, es, limit);
      RestoresPick(s, es[..k], t, limit);
      var s1, s' := Run(s, es[..k], limit), Run(s, es, limit);
      if t in s'.txs && Picked(s'.txs[t].phase).Some? {
        StepPicks(s1, es[k], t, limit);
        var row := Picked(s'.txs[t].phase).value;
        if Picked(s1.txs[t].phase) == Some(row) {
          WasStoredLater(s, es, s'.txs[t].req.id, row, limit);
        } else {
          assert WasStored(s, es, s'.txs[t].req.id, row, limit);
        }
      }
    }
  }

  /** A restore about to commit writes the document of the very row it was asked for, as that row stood at
      some point of the run (it may have been pruned since). */
  lemma RestoreWritesItsRow(l: Ledger, es: seq<Step>, t: TxId, limit: nat)
    requires ValidRun(Start(l), es, limit) && Enabled(Run(Start(l), es, limit), Finish(t))
    requires Run(Start(l), es, limit).txs[t].req.RestoreReq?
    ensures var s := Run(Start(l), es, limit);
            exists row :: WasStored(Start(l), es, s.txs[t].req.id, row, limit)
                     && Next(s, Finish(t), limit).store.project.doc == row.doc
  {
    LogServesRequests(Start(l), es, limit);
    RestoresPick(Start(l), es, t, limit);
    var s := Run(Start(l), es, limit);
    StagedIsPicked(l, es, t, limit);
    var row := Picked(s.txs[t].phase).value;
    assert WasStored(Start(l), es, s.txs[t].req.id, row, limit);
  }

  ghost predicate StagesPicked(s: Sys) {
    forall t :: t in s.txs && s.txs[t].phase.Pending? && s.txs[t].phase.op.Restore? ==>
      s.txs[t].phase.change.project.doc == s.txs[t].phase.op.picked.doc
  }

  lemma StepStages(s: Sys, e: Step, limit: nat)
    requires StagesPicked(s) && Enabled(s, e)
    ensures StagesPicked(Next(s, e, limit))
  {
  }

  lemma {:induction false} RunStages(s: Sys, es: seq<Step>, limit: nat)
    requires StagesPicked(s) && ValidRun(s, es, limit)
    ensures StagesPicked(Run(s, es, limit))
    decreases |es|
  {
    if es != [] {
      StepStages(s, es[0], limit);
      RunStages(Next(s, es[0], limit), es[1..], limit);
    }
  }

  lemma StagedIsPicked(l: Ledger, es: seq<Step>, t: TxId, limit: nat)
    requires ValidRun(Start(l), es, limit) && Enabled(Run(Start(l), es, limit), Finish(t))
    requires Run(Start(l), es, limit).txs[t].req.RestoreReq?
    ensures var s := Run(Start(l), es, limit);
            && Picked(s.txs[t].phase).Some?
            && Next(s, Finish(t), limit).store.project.doc == Picked(s.txs[t].phase).value.doc
  {
    LogServesRequests(Start(l), es, limit);
    RunStages(Start(l), es, limit);
  }

  // ---- the lock ----

  /** The row lock is held exactly by the request that is between its reload and its commit, refusal or abort. */
  ghost predicate LockTold(s: Sys) {
    forall t :: s.holder == Some(t) <==> t in s.txs && (s.txs[t].phase.Holding? || s.txs[t].phase.Pending?)
  }

  lemma StepTellsLock(s: Sys, e: Step, limit: nat)
    requires LockTold(s) && Enabled(s, e)
    ensures LockTold(Next(s, e, limit))
  {
    forall t ensures Next(s, e, limit).holder == Some(t) <==>
                     t in Next(s, e, limit).txs
                     && (Next(s, e, limit).txs[t].phase.Holding? || Next(s, e, limit).txs[t].phase.Pending?)
    {
      assert s.holder == Some(t) <==> t in s.txs && (s.txs[t].phase.Holding? || s.txs[t].phase.Pending?);
    }
  }

  /** So no two requests are ever between reload and commit at once, and a request that has ended, however it
      ended, holds nothing. */
  lemma {:induction false} LockIsHeldExactly(s: Sys, es: seq<Step>, limit: nat)
    requires LockTold(s) && ValidRun(s, es, limit)
    ensures LockTold(Run(s, es, limit))
    decreases |es|
  {
    if es != [] {
      StepTellsLock(s, es[0], limit);
      LockIsHeldExactly(Next(s, es[0], limit), es[1..], limit);
    }
  }
}
