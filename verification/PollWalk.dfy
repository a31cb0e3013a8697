/** The walk of pollEvent over the messages of one received datagram. Its loop test compares an
    unsigned size; its remaining length is a signed int. */
module PollWalk {
  import opened Base
  import opened NlAttr
  import opened EventCodec
  import opened EventCode
  import opened EventRoundTrip

  const NLMSG_HDRLEN := 16

  /** static_cast<size_t>. */
  function AsSize(rem: int): int {
    if rem < 0 then rem + 0x1_0000_0000_0000_0000 else rem
  }

  /** The positions of the messages handled, and whether the loop test then reads a header that
      does not lie in the received bytes. */
  datatype Trace = Trace(msgs: seq<nat>, left: bool)

  /** NLMSG_OK at pos, for a header that lies in the received bytes. */
  predicate MsgOk(buf: seq<byte>, pos: nat)
    requires pos + NLMSG_HDRLEN <= |buf|
  {
    NLMSG_HDRLEN <= U32(buf, pos) <= AsSize(|buf| - pos)
  }

  /** The loop goes on to handle the message at pos. */
  predicate Goes(buf: seq<byte>, pos: nat) {
    AsSize(|buf| - pos) >= NLMSG_HDRLEN && pos + NLMSG_HDRLEN <= |buf| && MsgOk(buf, pos)
  }

  /** The loop test reads a header behind the received bytes. */
  predicate Leaves(buf: seq<byte>, pos: nat) {
    AsSize(|buf| - pos) >= NLMSG_HDRLEN && pos + NLMSG_HDRLEN > |buf|
  }

  function Walked(buf: seq<byte>, pos: nat): (t: Trace)
    decreases |buf| - pos + 4
  {
    if !Goes(buf, pos) then Trace([], Leaves(buf, pos))
    else
      var t := Walked(buf, pos + Align4(U32(buf, pos)));
      Trace([pos] + t.msgs, t.left)
  }

  /** Whatever the bytes, every message handled lies completely inside them, and the messages follow
      one another without overlap. */
  lemma {:induction false} MessagesInside(buf: seq<byte>, pos: nat)
    ensures forall i :: 0 <= i < |Walked(buf, pos).msgs| ==>
              var p := Walked(buf, pos).msgs[i];
              pos <= p && p + NLMSG_HDRLEN <= |buf| && p + NLMSG_HDRLEN <= p + U32(buf, p) <= |buf|
    ensures forall i, j :: 0 <= i < j < |Walked(buf, pos).msgs| ==>
              Walked(buf, pos).msgs[i] + U32(buf, Walked(buf, pos).msgs[i]) <= Walked(buf, pos).msgs[j]
    decreases |buf| - pos + 4
  {
    if Goes(buf, pos) {
      MessagesInside(buf, pos + Align4(U32(buf, pos)));
    }
  }

  // ----- When the walk leaves the received bytes.

  /** Where a walk over the first n bytes stops, when it takes only messages that end in them. */
  function Stop(buf: seq<byte>, n: nat, pos: nat): (p: nat)
    requires n <= |buf|
    ensures pos <= p
    decreases n - pos
  {
    if pos + NLMSG_HDRLEN <= n && NLMSG_HDRLEN <= U32(buf, pos) <= n - pos then
      Stop(buf, n, pos + Align4(U32(buf, pos)))
    else pos
  }

  /** The message at which the four-byte-aligned part of the datagram comes to an end itself ends in
      the one to three bytes behind it. */
  predicate Ragged(buf: seq<byte>) {
    RaggedFrom(buf, |buf| - |buf| % 4, 0)
  }

  predicate RaggedFrom(buf: seq<byte>, n: nat, pos: nat)
    requires n <= |buf|
  {
    var p := Stop(buf, n, pos);
    p + NLMSG_HDRLEN <= |buf| && NLMSG_HDRLEN <= U32(buf, p) && n < p + U32(buf, p) <= |buf|
  }

  lemma LeftLater(buf: seq<byte>, pos: nat, next: nat)
    requires Goes(buf, pos) && next == pos + Align4(U32(buf, pos))
    ensures Walked(buf, pos).left == Walked(buf, next).left
  {
  }

  lemma AlignFits(pos: nat, len: nat, n: nat, r: nat)
    requires pos % 4 == 0 && n % 4 == 0 && r < 4 && pos <= n
    ensures pos + Align4(len) <= n + r <==> len <= n - pos
    ensures (pos + Align4(len)) % 4 == 0 && (len <= n - pos ==> pos + Align4(len) <= n)
  {
  }

  /** At a message that is not taken, both walks end inside the received bytes. */
  lemma EndsInside(buf: seq<byte>, n: nat, pos: nat)
    requires n <= |buf| && pos <= n && !Goes(buf, pos)
    ensures !Walked(buf, pos).left && !RaggedFrom(buf, n, pos)
  {
    assert Stop(buf, n, pos) == pos;
  }

  /** A message that ends in the odd bytes is taken, and then the walk leaves. */
  lemma EndsRagged(buf: seq<byte>, n: nat, pos: nat, next: nat)
    requires n <= |buf| && Goes(buf, pos) && U32(buf, pos) > n - pos
    requires next == pos + Align4(U32(buf, pos)) && next > |buf|
    ensures Walked(buf, pos).left && RaggedFrom(buf, n, pos)
  {
    assert Stop(buf, n, pos) == pos;
    assert Walked(buf, next) == Trace([], true);
    LeftLater(buf, pos, next);
  }

  /** A message that ends in the aligned part is taken by both walks. */
  lemma BothGoOn(buf: seq<byte>, n: nat, pos: nat, next: nat)
    requires n <= |buf| && Goes(buf, pos) && U32(buf, pos) <= n - pos && next == pos + Align4(U32(buf, pos))
    ensures Walked(buf, pos).left == Walked(buf, next).left && RaggedFrom(buf, n, pos) == RaggedFrom(buf, n, next)
  {
    assert Stop(buf, n, pos) == Stop(buf, n, next);
    LeftLater(buf, pos, next);
  }

  lemma {:induction false} LeavesFrom(buf: seq<byte>, n: nat, r: nat, pos: nat)
    requires |buf| == n + r && n % 4 == 0 && r < 4 && pos % 4 == 0 && pos <= n
    ensures Walked(buf, pos).left <==> RaggedFrom(buf, n, pos)
    decreases n - pos
  {
    if !Goes(buf, pos) {
      EndsInside(buf, n, pos);
    } else {
      var len := U32(buf, pos);
      var next := pos + Align4(len);
      AlignFits(pos, len, n, r);
      if len <= n - pos {
        BothGoOn(buf, n, pos, next);
        LeavesFrom(buf, n, r, next);
      } else {
        EndsRagged(buf, n, pos, next);
      }
    }
  }

  /** The walk reads behind the received bytes exactly when the datagram ends raggedly. */
  lemma LeavesExactly(buf: seq<byte>)
    ensures Walked(buf, 0).left <==> Ragged(buf)
    ensures |buf| % 4 == 0 ==> !Walked(buf, 0).left
  {
    LeavesFrom(buf, |buf| - |buf| % 4, |buf| % 4, 0);
    if |buf| % 4 == 0 { StopsShort(buf, 0); }
  }

  lemma {:induction false} StopsShort(buf: seq<byte>, pos: nat)
    ensures var p := Stop(buf, |buf|, pos); !(p + NLMSG_HDRLEN <= |buf| && NLMSG_HDRLEN <= U32(buf, p) <= |buf| - p)
    decreases |buf| - pos
  {
    if pos + NLMSG_HDRLEN <= |buf| && NLMSG_HDRLEN <= U32(buf, pos) <= |buf| - pos {
      StopsShort(buf, pos + Align4(U32(buf, pos)));
    }
  }

  /** It does happen: one message of 17 bytes. */
  lemma OneOddMessageLeaves()
    ensures exists buf: seq<byte> :: |buf| == 17 && Walked(buf, 0).left
  {
    var buf := Le32(17) + Zeros(13);
    U32Le32(17);
    assert forall i :: 0 <= i < 4 ==> buf[i] == Le32(17)[i];
    assert U32(buf, 0) == U32(Le32(17), 0) == 17;
    assert Stop(buf, 16, 0) == 0;
    LeavesExactly(buf);
  }

  // ----- What is delivered.

  /** What a walk from pos collects: for each message handled, in order, what f gives for it. */
  function Collected(buf: seq<byte>, pos: nat, f: nat -> seq<Call>): seq<Call>
    decreases |buf| - pos + 4
  {
    if Goes(buf, pos) then f(pos) + Collected(buf, pos + Align4(U32(buf, pos)), f) else []
  }

  /** The calls made for the message at a position. */
  function CallsAt(buf: seq<byte>, family: nat): nat -> seq<Call> {
    (p: nat) => if Goes(buf, p) then Calls(buf, p, family) else []
  }

  /** The calls made in a walk from pos: those of each message handled, in order. */
  function Delivered(buf: seq<byte>, pos: nat, family: nat): seq<Call> {
    Collected(buf, pos, CallsAt(buf, family))
  }

  /** All messages before pos have been handled, and this was collected. */
  ghost predicate Done(buf: seq<byte>, pos: nat, f: nat -> seq<Call>, calls: seq<Call>) {
    Collected(buf, 0, f) == calls + Collected(buf, pos, f) && Walked(buf, 0).left == Walked(buf, pos).left
  }

  lemma DoneNext(buf: seq<byte>, pos: nat, f: nat -> seq<Call>, calls: seq<Call>, next: nat)
    requires Done(buf, pos, f, calls) && Goes(buf, pos) && next == pos + Align4(U32(buf, pos))
    ensures Done(buf, next, f, calls + f(pos))
  {
    LeftLater(buf, pos, next);
    assert calls + (f(pos) + Collected(buf, next, f)) == (calls + f(pos)) + Collected(buf, next, f);
  }

  lemma DoneAll(buf: seq<byte>, pos: nat, f: nat -> seq<Call>, calls: seq<Call>)
    requires Done(buf, pos, f, calls) && !Goes(buf, pos)
    ensures calls == Collected(buf, 0, f) && (Leaves(buf, pos) <==> Ragged(buf))
  {
    LeavesExactly(buf);
  }

  /** One turn of the loop. */
  method HandleNext(buf: seq<byte>, pos: nat, family: nat, calls: seq<Call>, ghost f: nat -> seq<Call>)
    returns (calls': seq<Call>, next: nat)
    requires Goes(buf, pos) && Done(buf, pos, f, calls) && f == CallsAt(buf, family)
    ensures pos < next <= |buf| + 3 && Done(buf, next, f, calls')
  {
    var more := HandleEvent(buf, pos, family);
    next := pos + Align4(U32(buf, pos));
    DoneNext(buf, pos, f, calls, next);
    calls' := calls + more;
  }

  /** The loop of pollEvent over one datagram, up to the point where it would leave it. */
  method HandleDatagram(buf: seq<byte>, family: nat) returns (calls: seq<Call>, left: bool)
    ensures calls == Delivered(buf, 0, family)
    ensures left <==> Ragged(buf)
  {
    calls := [];
    ghost var f := CallsAt(buf, family);
    var pos: nat := 0;
    while Goes(buf, pos)
      invariant pos <= |buf| + 3 && Done(buf, pos, f, calls)
      decreases |buf| + 3 - pos
    {
      calls, pos := HandleNext(buf, pos, family, calls, f);
    }
    left := Leaves(buf, pos);
    DoneAll(buf, pos, f, calls);
  }

  // ----- From events to calls.

  predicate AllSendable(es: seq<Event>) {
    forall i :: 0 <= i < |es| ==> EventOk(es[i]) && !es[i].Other?
  }

  /** Messages one after the other. */
  function Joined(ms: seq<seq<byte>>): seq<byte> {
    if ms == [] then [] else ms[0] + Joined(ms[1..])
  }

  function Messages(family: nat, es: seq<Event>): seq<seq<byte>>
    requires family < 0x1_0000 && AllSendable(es)
  {
    seq(|es|, i requires 0 <= i < |es| => Message(family, es[i]))
  }

  function Datagram(family: nat, es: seq<Event>): seq<byte>
    requires family < 0x1_0000 && AllSendable(es)
  {
    Joined(Messages(family, es))
  }

  function Heard(es: seq<Event>): seq<Call>
    requires AllSendable(es)
  {
    seq(|es|, i requires 0 <= i < |es| => Expected(es[i]))
  }

  /** Where message k begins. */
  function StartOf(ms: seq<seq<byte>>, k: nat): nat
    requires k <= |ms|
  {
    if k == 0 then 0 else |ms[0]| + StartOf(ms[1..], k - 1)
  }

  lemma AtBehind(first: seq<byte>, rest: seq<byte>, n: nat, m: seq<byte>)
    requires At(rest, n, m)
    ensures At(first + rest, |first| + n, m)
  {
    assert (first + rest)[|first| + n..|first| + n + |m|] == rest[n..n + |m|];
  }

  lemma {:induction false} JoinedAt(ms: seq<seq<byte>>, k: nat)
    requires k < |ms|
    ensures At(Joined(ms), StartOf(ms, k), ms[k]) && StartOf(ms, k + 1) == StartOf(ms, k) + |ms[k]|
  {
    if k > 0 {
      JoinedAt(ms[1..], k - 1);
      AtBehind(ms[0], Joined(ms[1..]), StartOf(ms[1..], k - 1), ms[k]);
    }
  }

  lemma {:induction false} JoinedEnd(ms: seq<seq<byte>>)
    ensures StartOf(ms, |ms|) == |Joined(ms)|
  {
    if ms != [] { JoinedEnd(ms[1..]); }
  }

  /** From pos on the walk collects exactly these, one for each message, and ends with the bytes. */
  predicate Trip(buf: seq<byte>, pos: nat, f: nat -> seq<Call>, calls: seq<Call>)
    decreases |calls|
  {
    if calls == [] then pos == |buf|
    else Goes(buf, pos) && f(pos) == [calls[0]] && Trip(buf, pos + Align4(U32(buf, pos)), f, calls[1..])
  }

  lemma {:induction false} TripCollects(buf: seq<byte>, pos: nat, f: nat -> seq<Call>, calls: seq<Call>)
    requires Trip(buf, pos, f, calls)
    ensures Collected(buf, pos, f) == calls
    decreases |calls|
  {
    if calls != [] {
      var next := pos + Align4(U32(buf, pos));
      TripCollects(buf, next, f, calls[1..]);
      assert Collected(buf, pos, f) == [calls[0]] + calls[1..];
    }
  }

  lemma {:induction false} TripEnds(buf: seq<byte>, pos: nat, f: nat -> seq<Call>, calls: seq<Call>)
    requires Trip(buf, pos, f, calls)
    ensures !Walked(buf, pos).left
    decreases |calls|
  {
    if calls != [] {
      TripEnds(buf, pos + Align4(U32(buf, pos)), f, calls[1..]);
      LeftLater(buf, pos, pos + Align4(U32(buf, pos)));
    }
  }

  /** Message k is handled with call k, and then message k + 1. */
  predicate Hops(buf: seq<byte>, f: nat -> seq<Call>, ms: seq<seq<byte>>, calls: seq<Call>, k: nat)
    requires k < |ms| == |calls|
  {
    var pos := StartOf(ms, k);
    Goes(buf, pos) && f(pos) == [calls[k]] && StartOf(ms, k + 1) == pos + Align4(U32(buf, pos))
  }

  lemma {:induction false} TripOf(buf: seq<byte>, f: nat -> seq<Call>, ms: seq<seq<byte>>, calls: seq<Call>, k: nat)
    requires k <= |ms| == |calls| && buf == Joined(ms)
    requires forall i :: 0 <= i < |ms| ==> Hops(buf, f, ms, calls, i)
    ensures Trip(buf, StartOf(ms, k), f, calls[k..])
    decreases |ms| - k
  {
    if k == |ms| {
      JoinedEnd(ms);
    } else {
      TripOf(buf, f, ms, calls, k + 1);
      assert Hops(buf, f, ms, calls, k) && calls[k..][1..] == calls[k + 1..];
    }
  }

  /** Wherever an encoded event stands, the walk handles it and goes on behind it. */
  lemma MessageHandled(buf: seq<byte>, pos: nat, family: nat, e: Event, next: nat, call: Call)
    requires GENL_MIN_ID <= family < 0x1_0000 && EventOk(e) && !e.Other? && At(buf, pos, Message(family, e))
    requires next == pos + |Message(family, e)| && call == Expected(e)
    ensures Goes(buf, pos) && next == pos + Align4(U32(buf, pos)) && Calls(buf, pos, family) == [call]
  {
    RoundTrip(buf, pos, family, e);
    Aligned(|Message(family, e)|);
  }

  lemma Heeds(buf: seq<byte>, family: nat, f: nat -> seq<Call>, ms: seq<seq<byte>>, calls: seq<Call>, k: nat, e: Event)
    requires GENL_MIN_ID <= family < 0x1_0000 && EventOk(e) && !e.Other? && k < |ms| == |calls| && buf == Joined(ms)
    requires ms[k] == Message(family, e) && calls[k] == Expected(e) && f == CallsAt(buf, family)
    ensures Hops(buf, f, ms, calls, k)
  {
    JoinedAt(ms, k);
    MessageHandled(buf, StartOf(ms, k), family, e, StartOf(ms, k + 1), calls[k]);
  }

  /** Every event of a datagram of encoded events is delivered exactly once, in order, with its values. */
  lemma EveryEventIsDelivered(family: nat, es: seq<Event>)
    requires GENL_MIN_ID <= family < 0x1_0000 && AllSendable(es)
    ensures Delivered(Datagram(family, es), 0, family) == Heard(es) && !Walked(Datagram(family, es), 0).left
  {
    var ms, calls, buf := Messages(family, es), Heard(es), Datagram(family, es);
    var f := CallsAt(buf, family);
    forall k | 0 <= k < |ms| ensures Hops(buf, f, ms, calls, k) == true {
      Heeds(buf, family, f, ms, calls, k, es[k]);
    }
    TripOf(buf, f, ms, calls, 0);
    TripCollects(buf, 0, f, calls);
    TripEnds(buf, 0, f, calls);
  }
}
