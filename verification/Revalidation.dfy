/** The receive loop of one socket: it asks again whether the session stands once a deadline has passed,
    on a fixed beat that no traffic can put off. */
module Revalidation {
  import opened Wrappers

  type Time = nat
  type Frame = nat

  /** Microseconds. */
  const REVALIDATE := 30_000_000

  /** One turn of the loop: what came (nothing on a timeout), the clock when the wait ended, what
      `_still_authorised` would answer then, and the clock when it has answered. */
  datatype Turn = Turn(frame: Option<Frame>, at: Time, authorised: bool, answered: Time)

  /** Where the deadline stands before turn n, the loop having started at `start`. */
  function DeadlineAt(start: Time, turns: seq<Turn>, n: nat): Time
    requires n <= |turns|
  {
    if n == 0 then start + REVALIDATE
    else
      var d := DeadlineAt(start, turns, n - 1);
      if turns[n - 1].at >= d then turns[n - 1].answered + REVALIDATE else d
  }

  /** Turn i runs its check. */
  predicate Checks(start: Time, turns: seq<Turn>, i: nat)
    requires i < |turns|
  {
    turns[i].at >= DeadlineAt(start, turns, i)
  }

  /** The loop is still running after n turns: no check so far has failed. */
  predicate Open(start: Time, turns: seq<Turn>, n: nat)
    requires n <= |turns|
  {
    forall i :: 0 <= i < n && Checks(start, turns, i) ==> turns[i].authorised
  }

  function Dispatched(start: Time, turns: seq<Turn>, n: nat): seq<nat>
    requires n <= |turns|
  {
    if n == 0 then []
    else Dispatched(start, turns, n - 1) + if Open(start, turns, n) && turns[n - 1].frame.Some? then [n - 1] else []
  }

  /** The loop itself, over the turns the socket goes through; it ends when they do or when a check fails.
      Returns the turns whose frame was dispatched and whether it closed the socket. */
  method ReceiveLoop(start: Time, turns: seq<Turn>) returns (dispatched: seq<nat>, closed: bool)
    ensures dispatched == Dispatched(start, turns, |turns|)
    ensures closed <==> !Open(start, turns, |turns|)
  {
    dispatched := [];
    var deadline := start + REVALIDATE;
    var i := 0;
    while i < |turns|
      invariant 0 <= i <= |turns|
      invariant deadline == DeadlineAt(start, turns, i)
      invariant Open(start, turns, i)
      invariant dispatched == Dispatched(start, turns, i)
    {
      var turn := turns[i];
      if turn.at >= deadline {
        if !turn.authorised {
          assert Checks(start, turns, i);
          ClosedStaysClosed(start, turns, i);
          return dispatched, true;
        }
        deadline := turn.answered + REVALIDATE;
      }
      if turn.frame.Some? {
        dispatched := dispatched + [i];
      }
      i := i + 1;
    }
    closed := false;
  }

  lemma {:induction false} ClosedStaysClosedUpTo(start: Time, turns: seq<Turn>, i: nat, n: nat)
    requires i < n <= |turns| && Checks(start, turns, i) && !turns[i].authorised
    ensures Dispatched(start, turns, n) == Dispatched(start, turns, i)
  {
    if n - 1 > i { ClosedStaysClosedUpTo(start, turns, i, n - 1); }
  }

  lemma ClosedStaysClosed(start: Time, turns: seq<Turn>, i: nat)
    requires i < |turns| && Checks(start, turns, i) && !turns[i].authorised
    ensures !Open(start, turns, |turns|) && Dispatched(start, turns, |turns|) == Dispatched(start, turns, i)
  {
    ClosedStaysClosedUpTo(start, turns, i, |turns|);
  }

  lemma {:induction false} DispatchedTurn(start: Time, turns: seq<Turn>, n: nat, i: nat)
    requires n <= |turns|
    ensures i in Dispatched(start, turns, n) <==> i < n && turns[i].frame.Some? && Open(start, turns, i + 1)
  {
    if n > 0 { DispatchedTurn(start, turns, n - 1, i); }
  }

  /** When the deadline before turn n was armed: by the handshake, or by the last check before n. */
  lemma {:induction false} ArmedBy(start: Time, turns: seq<Turn>, n: nat) returns (armed: Option<nat>)
    requires n <= |turns|
    ensures armed.None? ==> DeadlineAt(start, turns, n) == start + REVALIDATE
    ensures armed.Some? ==>
              && armed.value < n && Checks(start, turns, armed.value)
              && DeadlineAt(start, turns, n) == turns[armed.value].answered + REVALIDATE
    ensures forall k :: (if armed.Some? then armed.value else -1) < k < n ==> !Checks(start, turns, k)
  {
    if n == 0 {
      armed := None;
    } else if Checks(start, turns, n - 1) {
      armed := Some(n - 1);
    } else {
      armed := ArmedBy(start, turns, n - 1);
    }
  }

  /** The session was found to stand recently enough for turn i: in that very turn, or within
      REVALIDATE of the turn by an earlier check or by the handshake. */
  ghost predicate Vouched(start: Time, turns: seq<Turn>, i: nat)
    requires i < |turns|
  {
    || (Checks(start, turns, i) && turns[i].authorised)
    || turns[i].at < start + REVALIDATE
    || (exists k :: 0 <= k < i && Checks(start, turns, k) && turns[k].authorised
                    && turns[i].at < turns[k].answered + REVALIDATE)
  }

  /** Whatever the timing, no frame is dispatched for a session that was not found to stand in the same
      turn or less than REVALIDATE before. */
  lemma NoStaleDispatch(start: Time, turns: seq<Turn>, i: nat)
    requires i in Dispatched(start, turns, |turns|)
    ensures i < |turns| && Vouched(start, turns, i)
  {
    DispatchedTurn(start, turns, |turns|, i);
    if !Checks(start, turns, i) {
      var armed := ArmedBy(start, turns, i);
      if armed.Some? { assert turns[armed.value].authorised; }
    }
  }

  /** And a session that has ended is noticed: from the first turn on or after the deadline at which it no
      longer stands, nothing is dispatched. */
  lemma RevokedIsNoticed(start: Time, turns: seq<Turn>, i: nat, k: nat)
    requires i < |turns| && Checks(start, turns, i) && !turns[i].authorised && k in Dispatched(start, turns, |turns|)
    ensures k < i
  {
    DispatchedTurn(start, turns, |turns|, k);
  }

  /** Traffic never moves the deadline: leaving out turns that end before it changes nothing. */
  lemma {:induction false} TrafficNeverMovesTheDeadline(start: Time, turns: seq<Turn>, i: nat, n: nat)
    requires i < n <= |turns| && !Checks(start, turns, i)
    ensures var fewer := turns[..i] + turns[i + 1..];
            DeadlineAt(start, fewer, n - 1) == DeadlineAt(start, turns, n)
  {
    var fewer := turns[..i] + turns[i + 1..];
    if n == i + 1 {
      SamePrefix(start, turns, fewer, i);
    } else {
      TrafficNeverMovesTheDeadline(start, turns, i, n - 1);
    }
  }

  lemma {:induction false} SamePrefix(start: Time, a: seq<Turn>, b: seq<Turn>, n: nat)
    requires n <= |a| && n <= |b| && a[..n] == b[..n]
    ensures DeadlineAt(start, a, n) == DeadlineAt(start, b, n)
  {
    if n > 0 {
      assert a[..n - 1] == a[..n][..n - 1] && b[..n - 1] == b[..n][..n - 1];
      assert a[n - 1] == a[..n][n - 1] && b[n - 1] == b[..n][n - 1];
      SamePrefix(start, a, b, n - 1);
    }
  }
}
