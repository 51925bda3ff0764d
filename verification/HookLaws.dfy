/** When a frame goes out and when a queued document is given up, in terms of what happened to the hook. */
module HookLaws {
  import opened Wrappers
  import opened Projects
  import opened Hook

  /** The socket as the last of its events left it. */
  function UpAfter(es: seq<Event>): bool {
    if es == [] then false
    else match es[|es| - 1]
      case SocketUp => true
      case SocketDown => false
      case _ => UpAfter(es[..|es| - 1])
  }

  lemma {:induction false} SocketHolds(es: seq<Event>)
    ensures After(FRESH, es).up == UpAfter(es)
    decreases |es|
  {
    if es != [] { SocketHolds(es[..|es| - 1]); }
  }

  /** A batch is open before event i. */
  ghost predicate Queued(es: seq<Event>, i: nat) {
    i < |es| && exists from: nat :: from < i && Batch(es, from, i)
  }

  /** One is, and it knows no base, or this one. */
  ghost predicate QueuedOn(es: seq<Event>, i: nat, version: nat) {
    i < |es| && exists from: nat :: from < i && Batch(es, from, i) && FirstBase(es[..i], from) in {None, Some(version)}
  }

  /** One is, and its base is another. */
  ghost predicate QueuedElsewhere(es: seq<Event>, i: nat, version: nat) {
    i < |es| && exists from: nat :: from < i && Batch(es, from, i)
                          && FirstBase(es[..i], from).Some? && FirstBase(es[..i], from) != Some(version)
  }

  /** A batch of a prefix is one of the whole, told from the same events. */
  lemma BatchOfPrefix(es: seq<Event>, i: nat, from: nat)
    requires i <= |es| && from < i
    ensures Batch(es[..i], from, i) <==> Batch(es, from, i)
  {
    var pre := es[..i];
    assert forall m :: 0 <= m <= i ==> pre[..m] == es[..m];
    assert pre[from] == es[from];
    forall m | from <= m < i ensures Clears(pre, m) <==> Clears(es, m) {
      assert pre[..m + 1] == es[..m + 1];
    }
  }

  /** A batch open up to the end has something queued, and only one can be. */
  lemma OpenBatch(es: seq<Event>, from: nat)
    requires Batch(es, from, |es|)
    ensures After(FRESH, es).pendingDoc.Some?
  {
    assert !Clears(es, |es| - 1);
    assert es[..|es|] == es;
  }

  lemma OneBatch(es: seq<Event>, a: nat, b: nat)
    requires Batch(es, a, |es|) && Batch(es, b, |es|)
    ensures a == b
  {
    assert a > 0 ==> Clears(es, a - 1);
    assert b > 0 ==> Clears(es, b - 1);
  }

  /** What the refs hold before event i, told from the events. */
  lemma QueueTold(es: seq<Event>, i: nat, version: nat)
    requires i < |es|
    ensures var h := After(FRESH, es[..i]);
            && h.up == UpAfter(es[..i])
            && (h.pendingDoc.Some? <==> Queued(es, i))
            && (h.pendingDoc.Some? && (h.pendingBase.None? || h.pendingBase == Some(version)) <==>
                QueuedOn(es, i, version))
            && (h.pendingDoc.Some? && h.pendingBase.Some? && h.pendingBase != Some(version) <==>
                QueuedElsewhere(es, i, version))
  {
    var pre := es[..i];
    SocketHolds(pre);
    MeaningHolds(pre);
    var h := After(FRESH, pre);
    if h.pendingDoc.Some? {
      var from :| Batch(pre, from, |pre|) && h.pendingBase == FirstBase(pre, from);
      BatchOfPrefix(es, i, from);
      forall k: nat | k < i && Batch(es, k, i) ensures k == from {
        BatchOfPrefix(es, i, k);
        OneBatch(pre, k, from);
      }
    } else {
      forall k: nat | k < i ensures !Batch(es, k, i) {
        if Batch(pre, k, i) { OpenBatch(pre, k); }
        BatchOfPrefix(es, i, k);
      }
    }
  }

  /** Over any run, a frame goes out exactly if the socket is up and takes it and: a document is queued for
      immediate sending; or the timer fires on a queue; or a greeting arrives that names the version the
      queue is based on, or finds a queue without a base. */
  lemma FrameGoesOutExactly(es: seq<Event>, i: nat)
    requires i < |es|
    ensures EmittedAt(es, i).Some? <==>
            match es[i]
            case QueueDoc(_, immediate, sends) => immediate && sends && UpAfter(es[..i])
            case FlushTimer(sends) => sends && UpAfter(es[..i]) && Queued(es, i)
            case HelloSettles(v, sends) => sends && UpAfter(es[..i]) && QueuedOn(es, i, v)
            case _ => false
  {
    QueueTold(es, i, if es[i].HelloSettles? then es[i].version else 0);
  }

  /** A queued document is given up only to a frame that carries it, or to a greeting that names another
      version than its base; until then it stays queued. */
  lemma QueueEndsExactly(es: seq<Event>, i: nat)
    requires i < |es| && (Queued(es, i) || es[i].QueueDoc?)
    ensures Clears(es, i) <==>
            EmittedAt(es, i).Some? || (es[i].HelloSettles? && QueuedElsewhere(es, i, es[i].version))
  {
    QueueTold(es, i, if es[i].HelloSettles? then es[i].version else 0);
    assert es[..i + 1][..i] == es[..i] && es[..i + 1][i] == es[i];
  }

  /** Nothing is queued but by `sendDoc`. */
  lemma OnlyDocumentsAreQueued(es: seq<Event>, i: nat)
    requires i < |es| && !Queued(es, i) && !es[i].QueueDoc?
    ensures Clears(es, i)
  {
    QueueTold(es, i, 0);
    MeaningHolds(es[..i]);
    assert es[..i + 1][..i] == es[..i] && es[..i + 1][i] == es[i];
  }
}
