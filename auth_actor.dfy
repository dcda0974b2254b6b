/**
 * The authorization actor: a single-slot mailbox with one listener.  The
 * popup's callback `send`s the OAuth code; the statechart's root invocation
 * `listen`s, and each code handed to the listener becomes a `CODE` event.
 * A code that arrives before anyone listens is kept and replayed.
 */
module AuthActor {
  import opened Wrappers

  /** Listeners are callbacks; the model tells them apart by an id. */
  type ListenerId = nat

  /** One call of a listener with a code. */
  datatype Delivery = Delivery(listener: ListenerId, code: string)

  /** JavaScript truthiness of the buffered `code: string | null`. */
  predicate Replayable(code: Option<string>)
  {
    code.Some? && code.value != ""
  }

  /** The closure's two variables, and what `send` and `listen` do to them. */
  datatype Slot = Slot(listener: Option<ListenerId>, code: Option<string>) {

    /** `send(c)`: keep the code (even an empty one), and hand it to the listener if there is one. */
    function Send(c: string): (r: (Slot, seq<Delivery>))
      ensures r.0.listener == listener && r.0.code == Some(c)
      ensures |r.1| == (if listener.Some? then 1 else 0)
      ensures forall d | d in r.1 :: Some(d.listener) == listener && d.code == c
    {
      (this.(code := Some(c)), if listener.Some? then [Delivery(listener.value, c)] else [])
    }

    /** `listen(l)`: replace the listener, and replay a buffered non-empty code to it. */
    function Listen(l: ListenerId): (r: (Slot, seq<Delivery>))
      ensures r.0.listener == Some(l) && r.0.code == code
      ensures |r.1| == (if Replayable(code) then 1 else 0)
      ensures forall d | d in r.1 :: d.listener == l && Some(d.code) == code && d.code != ""
    {
      (this.(listener := Some(l)), if Replayable(code) then [Delivery(l, code.value)] else [])
    }
  }

  const Empty := Slot(None, None)

  /** The actor as the source has it: an object whose two variables `send` and `listen` overwrite. */
  class Mailbox {
    var listener: Option<ListenerId>
    var code: Option<string>
    /** Every call made to a listener so far, in order. */
    var delivered: seq<Delivery>

    function State(): Slot
      reads this
    {
      Slot(listener, code)
    }

    constructor ()
      ensures State() == Empty && delivered == []
    {
      listener := None;
      code := None;
      delivered := [];
    }

    method Send(c: string)
      modifies this
      ensures State() == old(State()).Send(c).0
      ensures delivered == old(delivered) + old(State()).Send(c).1
    {
      code := Some(c);
      if listener.Some? {
        delivered := delivered + [Delivery(listener.value, c)];
      }
    }

    method Listen(l: ListenerId)
      modifies this
      ensures State() == old(State()).Listen(l).0
      ensures delivered == old(delivered) + old(State()).Listen(l).1
    {
      listener := Some(l);
      if code.Some? && code.value != "" {
        delivered := delivered + [Delivery(l, code.value)];
      }
    }
  }

  // ------------------------------------------------------------ traces

  datatype Op = SendOp(sent: string) | ListenOp(to: ListenerId)

  function Apply(s: Slot, op: Op): (Slot, seq<Delivery>)
  {
    match op
    case SendOp(c) => s.Send(c)
    case ListenOp(l) => s.Listen(l)
  }

  /** Perform `ops` in order: the final slot and every listener call. */
  function Replay(s: Slot, ops: seq<Op>): (Slot, seq<Delivery>)
    decreases ops
  {
    if ops == [] then (s, [])
    else
      var (s1, d1) := Apply(s, ops[0]);
      var (s2, d2) := Replay(s1, ops[1..]);
      (s2, d1 + d2)
  }

  function Sends(codes: seq<string>): (ops: seq<Op>)
    ensures |ops| == |codes|
    ensures forall i :: 0 <= i < |ops| ==> ops[i] == SendOp(codes[i])
  {
    if codes == [] then [] else [SendOp(codes[0])] + Sends(codes[1..])
  }

  /** `l` called with each of `codes`, in order. */
  function DeliveriesTo(l: ListenerId, codes: seq<string>): (ds: seq<Delivery>)
    ensures |ds| == |codes|
    ensures forall i :: 0 <= i < |ds| ==> ds[i] == Delivery(l, codes[i])
  {
    if codes == [] then [] else [Delivery(l, codes[0])] + DeliveriesTo(l, codes[1..])
  }

  /** The last of `codes`, or `last` if there are none. */
  function LastOr(codes: seq<string>, last: Option<string>): Option<string>
  {
    if codes == [] then last else Some(codes[|codes| - 1])
  }

  /** Running two batches of operations is running one after the other. */
  lemma {:induction false} ReplayAppend(s: Slot, a: seq<Op>, b: seq<Op>)
    ensures var (s1, d1) := Replay(s, a);
      var (s2, d2) := Replay(s1, b);
      Replay(s, a + b) == (s2, d1 + d2)
    decreases a
  {
    if a == [] {
      assert a + b == b;
      var (s2, d2) := Replay(s, b);
      assert [] + d2 == d2;
    } else {
      assert (a + b)[0] == a[0];
      assert (a + b)[1..] == a[1..] + b;
      var (s0, d0) := Apply(s, a[0]);
      ReplayAppend(s0, a[1..], b);
      var (s1, d1) := Replay(s0, a[1..]);
      var (s2, d2) := Replay(s1, b);
      assert d0 + (d1 + d2) == (d0 + d1) + d2;
    }
  }

  /** With nobody listening, sends only overwrite the slot: the last code wins, nothing is delivered. */
  lemma {:induction false} SendsWithoutListener(code: Option<string>, codes: seq<string>)
    ensures Replay(Slot(None, code), Sends(codes)) == (Slot(None, LastOr(codes, code)), [])
    decreases codes
  {
    if codes != [] {
      var tail := codes[1..];
      assert Sends(codes)[1..] == Sends(tail);
      assert Sends(codes)[0] == SendOp(codes[0]);
      SendsWithoutListener(Some(codes[0]), tail);
      assert LastOr(tail, Some(codes[0])) == LastOr(codes, code);
      var none: seq<Delivery> := [];
      assert none + none == none;
    }
  }

  /** With listener `l` attached, every send reaches `l` immediately, in order. */
  lemma {:induction false} SendsWithListener(l: ListenerId, code: Option<string>, codes: seq<string>)
    ensures Replay(Slot(Some(l), code), Sends(codes)) == (Slot(Some(l), LastOr(codes, code)), DeliveriesTo(l, codes))
    decreases codes
  {
    if codes != [] {
      var tail := codes[1..];
      assert Sends(codes)[1..] == Sends(tail);
      SendsWithListener(l, Some(codes[0]), tail);
      assert LastOr(tail, Some(codes[0])) == LastOr(codes, code);
    }
  }

  /**
   * A single listener attached between two batches of codes is called with
   * the last code sent before it attached (unless that was empty), then with
   * every later code, in order; earlier codes are lost.
   */
  lemma {:induction false} SingleListener(before: seq<string>, l: ListenerId, after: seq<string>)
    ensures Replay(Empty, Sends(before) + [ListenOp(l)] + Sends(after)).1
         == (if Replayable(LastOr(before, None)) then [Delivery(l, before[|before| - 1])] else [])
            + DeliveriesTo(l, after)
  {
    var buffered := LastOr(before, None);
    SendsWithoutListener(None, before);
    ReplayAppend(Empty, Sends(before), [ListenOp(l)]);
    assert Replay(Slot(None, buffered), [ListenOp(l)]) == Slot(None, buffered).Listen(l) by {
      assert [ListenOp(l)][1..] == [];
      var d := Slot(None, buffered).Listen(l).1;
      assert d + [] == d;
    }
    var replay := if Replayable(buffered) then [Delivery(l, buffered.value)] else [];
    assert [] + replay == replay;
    assert Replay(Empty, Sends(before) + [ListenOp(l)]) == (Slot(Some(l), buffered), replay);
    ReplayAppend(Empty, Sends(before) + [ListenOp(l)], Sends(after));
    SendsWithListener(l, buffered, after);
  }

  /** The mailbox does not de-duplicate: listening again replays the buffered code again. */
  lemma ListenAgainReplays(s: Slot, l1: ListenerId, l2: ListenerId)
    requires Replayable(s.code)
    ensures Replay(s, [ListenOp(l1), ListenOp(l2)]).1 == [Delivery(l1, s.code.value), Delivery(l2, s.code.value)]
  {
    assert [ListenOp(l1), ListenOp(l2)][1..] == [ListenOp(l2)];
    assert [ListenOp(l2)][1..] == [];
    var s1 := s.(listener := Some(l1));
    assert Replay(s1, [ListenOp(l2)]) == (s1.(listener := Some(l2)), [Delivery(l2, s.code.value)] + []);
    assert [Delivery(l2, s.code.value)] + [] == [Delivery(l2, s.code.value)];
  }
}
