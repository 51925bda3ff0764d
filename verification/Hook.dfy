/** The collaboration client: three mutable refs and a socket that may be down. */
module Hook {
  import opened Wrappers
  import opened Projects

  /** A `doc.update` frame. A missing base would force the write. */
  datatype Frame = Frame(doc: Doc, base: Option<nat>)

  /** `docVersionRef` (0 before the first greeting), `pendingDocRef`, `pendingBaseRef`, and whether
      the socket is open. */
  datatype Hook = Hook(docVersion: nat, pendingDoc: Option<Doc>, pendingBase: Option<nat>, up: bool)

  const FRESH := Hook(0, None, None, false)

  /** What can happen to the hook. `sends` tells whether an open socket takes the frame. A greeting
      is two events, so that whatever the consumer's `onHello` does may come between its halves. */
  datatype Event =
    | QueueDoc(doc: Doc, immediate: bool, sends: bool)
    | FlushTimer(sends: bool)
    | HelloVersion(version: nat)
    | HelloSettles(version: nat, sends: bool)
    | Ack(version: nat)
    | Updated(version: nat)
    | Conflict(version: nat)
    | SocketUp
    | SocketDown

  function Flush(h: Hook, sends: bool): (Hook, Option<Frame>) {
    if h.pendingDoc.None? || !h.up || !sends then (h, None)
    else
      (h.(pendingDoc := None, pendingBase := None),
       Some(Frame(h.pendingDoc.value, if h.pendingBase.Some? then h.pendingBase else Some(h.docVersion))))
  }

  function Queue(h: Hook, doc: Doc): Hook {
    h.(pendingDoc := Some(doc),
       pendingBase := if h.pendingBase.Some? then h.pendingBase
                      else if h.docVersion != 0 then Some(h.docVersion) else None)
  }

  function React(h: Hook, e: Event): (Hook, Option<Frame>) {
    match e
    case QueueDoc(doc, immediate, sends) =>
      if immediate then Flush(Queue(h, doc), sends) else (Queue(h, doc), None)
    case FlushTimer(sends) => Flush(h, sends)
    case HelloVersion(v) => (h.(docVersion := v), None)
    case HelloSettles(v, sends) =>
      if h.pendingDoc.Some? && h.pendingBase.Some? && h.pendingBase.value != v
      then (h.(pendingDoc := None, pendingBase := None), None)
      else Flush(h, sends)
    case Ack(v) => (h.(docVersion := v), None)
    case Updated(v) => (h.(docVersion := v), None)
    case Conflict(v) => (h.(docVersion := v), None)
    case SocketUp => (h.(up := true), None)
    case SocketDown => (h.(up := false), None)
  }

  /** The refs as the code mutates them. `sent` is everything the socket took. */
  class Collaboration {
    var docVersionRef: nat
    var pendingDocRef: Option<Doc>
    var pendingBaseRef: Option<nat>
    var open: bool
    var sent: seq<Frame>

    ghost function State(): Hook
      reads this
    {
      Hook(docVersionRef, pendingDocRef, pendingBaseRef, open)
    }

    /** The frames one event adds to those already sent. */
    static ghost function Outgoing(f: Option<Frame>): seq<Frame> {
      if f.Some? then [f.value] else []
    }

    constructor ()
      ensures State() == FRESH && sent == []
    {
      docVersionRef, pendingDocRef, pendingBaseRef, open, sent := 0, None, None, false, [];
    }

    method SendRaw(f: Frame, sends: bool) returns (ok: bool)
      modifies this`sent
      ensures ok <==> open && sends
      ensures sent == old(sent) + if ok then [f] else []
    {
      ok := open && sends;
      if ok { sent := sent + [f]; }
    }

    method FlushDoc(sends: bool)
      modifies this`pendingDocRef, this`pendingBaseRef, this`sent
      ensures State() == Flush(old(State()), sends).0
      ensures sent == old(sent) + Outgoing(Flush(old(State()), sends).1)
    {
      if pendingDocRef.None? { return; }
      var b := if pendingBaseRef.Some? then pendingBaseRef else Some(docVersionRef);
      var ok := SendRaw(Frame(pendingDocRef.value, b), sends);
      if ok {
        pendingDocRef, pendingBaseRef := None, None;
      }
    }

    method SendDoc(doc: Doc, immediate: bool, sends: bool)
      modifies this`pendingDocRef, this`pendingBaseRef, this`sent
      ensures State() == React(old(State()), QueueDoc(doc, immediate, sends)).0
      ensures sent == old(sent) + Outgoing(React(old(State()), QueueDoc(doc, immediate, sends)).1)
    {
      pendingDocRef := Some(doc);
      if pendingBaseRef.None? && docVersionRef != 0 {
        pendingBaseRef := Some(docVersionRef);
      }
      if immediate {
        FlushDoc(sends);
      }
    }

    /** `hello`, its second half: drop a queued save the server has moved past, else flush it. */
    method SettleHello(version: nat, sends: bool)
      modifies this`pendingDocRef, this`pendingBaseRef, this`sent
      ensures State() == React(old(State()), HelloSettles(version, sends)).0
      ensures sent == old(sent) + Outgoing(React(old(State()), HelloSettles(version, sends)).1)
    {
      if pendingDocRef.Some? {
        if pendingBaseRef.Some? && pendingBaseRef.value != version {
          pendingDocRef, pendingBaseRef := None, None;
        } else {
          FlushDoc(sends);
        }
      }
    }

    /** `hello` (its first half), `doc.ack`, `doc.updated` and `doc.conflict` adopt the version. */
    method AdoptVersion(version: nat)
      modifies this`docVersionRef
      ensures State() == React(old(State()), Ack(version)).0
    {
      docVersionRef := version;
    }

    /** Whatever happens to the hook: it changes as the machine says and sends what the machine emits. */
    method Handle(e: Event)
      modifies this
      ensures State() == React(old(State()), e).0
      ensures sent == old(sent) + Outgoing(React(old(State()), e).1)
    {
      match e
      case QueueDoc(doc, immediate, sends) => SendDoc(doc, immediate, sends);
      case FlushTimer(sends) => FlushDoc(sends);
      case HelloVersion(v) => AdoptVersion(v);
      case HelloSettles(v, sends) => SettleHello(v, sends);
      case Ack(v) => AdoptVersion(v);
      case Updated(v) => AdoptVersion(v);
      case Conflict(v) => AdoptVersion(v);
      case SocketUp => open := true;
      case SocketDown => open := false;
    }
  }

  // ---- whole runs of the hook ----

  function After(h: Hook, es: seq<Event>): Hook {
    if es == [] then h else React(After(h, es[..|es| - 1]), es[|es| - 1]).0
  }

  /** The frame the `i`-th event of a run emits, if any. */
  function EmittedAt(es: seq<Event>, i: nat): Option<Frame>
    requires i < |es|
  {
    React(After(FRESH, es[..i]), es[i]).1
  }

  /** The last version a message named, or 0: what `docVersionRef` holds. */
  function VersionAfter(es: seq<Event>): nat {
    if es == [] then 0
    else match es[|es| - 1]
      case HelloVersion(v) => v
      case Ack(v) => v
      case Updated(v) => v
      case Conflict(v) => v
      case _ => VersionAfter(es[..|es| - 1])
  }

  /** The version on display at the first `sendDoc` from event `from` on that found one. */
  function FirstBase(es: seq<Event>, from: nat): (r: Option<nat>)
    requires from <= |es|
    ensures r.Some? <==> exists k :: from <= k < |es| && es[k].QueueDoc? && VersionAfter(es[..k]) != 0
    ensures r.Some? ==> exists k :: (from <= k < |es| && es[k].QueueDoc? && VersionAfter(es[..k]) == r.value != 0
                                     && forall m :: from <= m < k && es[m].QueueDoc? ==> VersionAfter(es[..m]) == 0)
    decreases |es| - from
  {
    if from == |es| then None
    else if es[from].QueueDoc? && VersionAfter(es[..from]) != 0 then Some(VersionAfter(es[..from]))
    else FirstBase(es, from + 1)
  }

  /** Event `i` leaves nothing queued: the queue was sent or dropped. */
  ghost predicate Clears(es: seq<Event>, i: nat)
    requires i < |es|
  {
    After(FRESH, es[..i + 1]).pendingDoc.None?
  }

  /** Events `from` to `upto` (exclusive) belong to one batch: it starts with a `sendDoc` onto an
      empty queue, and the queue was not cleared since. */
  ghost predicate Batch(es: seq<Event>, from: nat, upto: nat) {
    && from <= upto <= |es| && from < |es| && es[from].QueueDoc?
    && After(FRESH, es[..from]).pendingDoc.None?
    && (forall m :: from <= m < upto ==> !Clears(es, m))
  }

  /** `doc` is the latest document queued among the first `upto` events. */
  ghost predicate Latest(es: seq<Event>, upto: nat, doc: Doc) {
    exists j :: (0 <= j < upto <= |es| && es[j].QueueDoc? && es[j].doc == doc
                 && forall m :: j < m < upto ==> !es[m].QueueDoc?)
  }

  /** What the refs mean after a run. */
  ghost predicate Meaning(es: seq<Event>) {
    var h := After(FRESH, es);
    && h.docVersion == VersionAfter(es)
    && (h.pendingDoc.None? ==> h.pendingBase.None?)
    && (h.pendingDoc.Some? ==> Latest(es, |es|, h.pendingDoc.value))
    && (h.pendingDoc.Some? ==> exists from :: Batch(es, from, |es|) && h.pendingBase == FirstBase(es, from))
  }

  lemma {:induction false} FirstBaseSnoc(es: seq<Event>, e: Event, from: nat)
    requires from <= |es|
    ensures FirstBase(es + [e], from) ==
            if FirstBase(es, from).Some? then FirstBase(es, from)
            else if e.QueueDoc? && VersionAfter(es) != 0 then Some(VersionAfter(es)) else None
    decreases |es| - from
  {
    assert (es + [e])[..from] == es[..from];
    if from == |es| {
      assert (es + [e])[..|es|] == es;
      assert FirstBase(es + [e], from + 1) == None;
    } else {
      FirstBaseSnoc(es, e, from + 1);
    }
  }

  lemma BatchSnoc(es: seq<Event>, e: Event, from: nat)
    requires Batch(es, from, |es|)
    ensures Batch(es + [e], from, |es|)
    ensures After(FRESH, es + [e]).pendingDoc.Some? ==> Batch(es + [e], from, |es| + 1)
  {
    var all := es + [e];
    assert forall m :: 0 <= m <= |es| ==> all[..m] == es[..m];
    forall m | from <= m < |es| ensures !Clears(all, m) {
      assert !Clears(es, m);
    }
    assert all[..|all|] == all;
  }

  lemma LatestSnoc(es: seq<Event>, e: Event, doc: Doc)
    ensures e.QueueDoc? && e.doc == doc ==> Latest(es + [e], |es| + 1, doc)
    ensures !e.QueueDoc? && Latest(es, |es|, doc) ==> Latest(es + [e], |es| + 1, doc)
  {
    var all := es + [e];
    if e.QueueDoc? && e.doc == doc {
      assert all[|es|] == e;
    }
    if !e.QueueDoc? && Latest(es, |es|, doc) {
      var j :| (0 <= j < |es| && es[j].QueueDoc? && es[j].doc == doc && forall m :: j < m < |es| ==> !es[m].QueueDoc?);
      assert all[j] == es[j];
    }
  }

  /** A `sendDoc` after `es`: the batch it joins or opens, with the base that batch now has. */
  lemma QueueMeaning(es: seq<Event>, e: Event) returns (from: nat)
    requires Meaning(es) && e.QueueDoc?
    ensures Batch(es + [e], from, |es|)
    ensures Latest(es + [e], |es| + 1, e.doc)
    ensures Queue(After(FRESH, es), e.doc).pendingBase == FirstBase(es + [e], from)
  {
    var h, all := After(FRESH, es), es + [e];
    LatestSnoc(es, e, e.doc);
    if h.pendingDoc.Some? {
      from :| Batch(es, from, |es|) && h.pendingBase == FirstBase(es, from);
      BatchSnoc(es, e, from);
      FirstBaseSnoc(es, e, from);
    } else {
      from := |es|;
      assert all[..|es|] == es && all[from] == e;
      FirstBaseSnoc(es, e, from);
    }
  }

  /** The refs as an event finds them once its own `sendDoc`, if it is one, has been queued. */
  function Ready(h: Hook, e: Event): Hook {
    if e.QueueDoc? then Queue(h, e.doc) else h
  }

  /** Whatever an event leaves queued, or sends, is what was ready. */
  lemma ReactUsesReady(h: Hook, e: Event)
    requires h.pendingDoc.None? ==> h.pendingBase.None?
    ensures var (h', f) := React(h, e);
            && (h'.pendingDoc.Some? ==>
                  h'.pendingDoc == Ready(h, e).pendingDoc && h'.pendingBase == Ready(h, e).pendingBase)
            && (h'.pendingDoc.None? ==> h'.pendingBase.None?)
            && (f.Some? ==> Some(f.value.doc) == Ready(h, e).pendingDoc)
            && (f.Some? ==>
                  f.value.base ==
                  if Ready(h, e).pendingBase.Some? then Ready(h, e).pendingBase else Some(h.docVersion))
  {
  }

  lemma BatchOf(es: seq<Event>, e: Event) returns (from: nat)
    requires Meaning(es) && Ready(After(FRESH, es), e).pendingDoc.Some?
    ensures Batch(es + [e], from, |es|)
    ensures Latest(es + [e], |es| + 1, Ready(After(FRESH, es), e).pendingDoc.value)
    ensures Ready(After(FRESH, es), e).pendingBase == FirstBase(es + [e], from)
  {
    var h := After(FRESH, es);
    if e.QueueDoc? {
      from := QueueMeaning(es, e);
    } else {
      LatestSnoc(es, e, h.pendingDoc.value);
      from :| Batch(es, from, |es|) && h.pendingBase == FirstBase(es, from);
      BatchSnoc(es, e, from);
      FirstBaseSnoc(es, e, from);
    }
  }

  lemma MeaningSnoc(es: seq<Event>, e: Event)
    requires Meaning(es)
    ensures Meaning(es + [e])
  {
    var all := es + [e];
    assert all[..|es|] == es;
    ReactUsesReady(After(FRESH, es), e);
    if After(FRESH, all).pendingDoc.Some? { QueuedSnoc(es, e); }
  }

  lemma QueuedSnoc(es: seq<Event>, e: Event)
    requires Meaning(es) && After(FRESH, es + [e]).pendingDoc.Some?
    ensures var all := es + [e];
            var h := After(FRESH, all);
            && Latest(all, |all|, h.pendingDoc.value)
            && exists from :: Batch(all, from, |all|) && h.pendingBase == FirstBase(all, from)
  {
    var all := es + [e];
    assert all[..|es|] == es && all[..|all|] == all;
    ReactUsesReady(After(FRESH, es), e);
    var from := BatchOf(es, e);
    assert !Clears(all, |es|);
    assert Batch(all, from, |all|);
  }

  lemma {:induction false} MeaningHolds(es: seq<Event>)
    ensures Meaning(es)
    decreases |es|
  {
    if es != [] {
      MeaningHolds(es[..|es| - 1]);
      MeaningSnoc(es[..|es| - 1], es[|es| - 1]);
      assert es == es[..|es| - 1] + [es[|es| - 1]];
    }
  }

  /** The main result: over any run, a frame that goes out carries the latest queued document, and
      its base is the version on display at the batch's first `sendDoc` that found one, or, when none
      did, the version on display as the frame leaves. It is never missing, so the hook never forces
      a write. */
  lemma EmittedFrame(es: seq<Event>, i: nat)
    requires i < |es| && EmittedAt(es, i).Some?
    ensures var f := EmittedAt(es, i).value;
            && Latest(es, i + 1, f.doc)
            && f.base.Some?
            && (exists from :: Batch(es, from, i)
                  && f.base.value == (if FirstBase(es[..i + 1], from).Some? then FirstBase(es[..i + 1], from).value
                                      else VersionAfter(es[..i])))
  {
    MeaningHolds(es[..i]);
    ReactUsesReady(After(FRESH, es[..i]), es[i]);
    var from := BatchOf(es[..i], es[i]);
    assert es[..i + 1] == es[..i] + [es[i]];
    PrefixFacts(es, i, from, EmittedAt(es, i).value.doc);
  }

  lemma PrefixFacts(es: seq<Event>, i: nat, from: nat, doc: Doc)
    requires i < |es|
    ensures Batch(es[..i + 1], from, i) ==> Batch(es, from, i)
    ensures Latest(es[..i + 1], i + 1, doc) ==> Latest(es, i + 1, doc)
  {
    var pre := es[..i + 1];
    assert forall m :: 0 <= m <= i + 1 ==> pre[..m] == es[..m];
    if Batch(pre, from, i) {
      forall m | from <= m < i ensures !Clears(es, m) {
        assert !Clears(pre, m);
      }
    }
    if Latest(pre, i + 1, doc) {
      var j :| (0 <= j < i + 1 && pre[j].QueueDoc? && pre[j].doc == doc
                && forall m :: j < m < i + 1 ==> !pre[m].QueueDoc?);
      assert es[j] == pre[j];
      forall m | j < m < i + 1 ensures !es[m].QueueDoc? { assert es[m] == pre[m]; }
    }
  }
}
