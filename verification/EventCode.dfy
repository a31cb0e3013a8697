/** The code on both sides of an event: rkx_send_message over a socket buffer, and the client's
    handle_event. */
module EventCode {
  import opened Base
  import opened NlAttr
  import opened EventCodec

  // ----- The kernel side.

  /** Patching the length of a nest that was started makes it a nested attribute around what follows. */
  lemma NestClosed(base: seq<byte>, typ: nat, inner: seq<byte>, whole: seq<byte>, closed: seq<byte>)
    requires typ < TYPE_MASK && |inner| % 4 == 0 && |inner| <= 1000
    requires whole == base + Encode(Put(typ + NESTED, [])) + inner
    requires closed == whole[..|base|] + Le16(|whole| - |base|) + whole[|base| + 2..]
    ensures closed == base + Nest(typ, inner)
  {
    assert Zeros(0) == [];
    assert Encode(Put(typ + NESTED, [])) == Le16(HDRLEN) + Le16(typ + NESTED);
    assert whole[..|base|] == base;
    assert whole[|base| + 2..] == Le16(typ + NESTED) + inner;
    assert Nest(typ, inner) == Le16(HDRLEN + |inner|) + (Le16(typ + NESTED) + inner);
  }

  /** base and then the first n of these attributes. */
  function Prefix(base: seq<byte>, puts: seq<Put>, n: nat): seq<byte>
    requires AllOk(puts) && n <= |puts|
  {
    if n == 0 then base else Prefix(base, puts, n - 1) + Encode(puts[n - 1])
  }

  lemma Associates(a: seq<byte>, b: seq<byte>, c: seq<byte>)
    ensures (a + b) + c == a + (b + c)
  {
  }

  lemma {:induction false} PrefixIs(base: seq<byte>, puts: seq<Put>, n: nat)
    requires AllOk(puts) && n <= |puts|
    ensures Prefix(base, puts, n) == base + EncodeAll(puts[..n])
  {
    if n == 0 {
      assert base + [] == base;
    } else {
      PrefixIs(base, puts, n - 1);
      EncodeAppend(puts[..n - 1], puts[n - 1]);
      assert puts[..n] == puts[..n - 1] + [puts[n - 1]];
      Associates(base, EncodeAll(puts[..n - 1]), Encode(puts[n - 1]));
    }
  }

  lemma PrefixAll(base: seq<byte>, puts: seq<Put>)
    requires AllOk(puts)
    ensures Prefix(base, puts, |puts|) == base + EncodeAll(puts)
  {
    PrefixIs(base, puts, |puts|);
    assert puts[..|puts|] == puts;
  }

  lemma {:induction false} PrefixGrows(base: seq<byte>, puts: seq<Put>, n: nat, m: nat)
    requires AllOk(puts) && n <= m <= |puts|
    ensures |Prefix(base, puts, n)| <= |Prefix(base, puts, m)|
  {
    if n < m { PrefixGrows(base, puts, n, m - 1); }
  }

  /** A socket buffer: the bytes put so far, and room for a fixed number. */
  class Skb {
    var data: seq<byte>
    const room: nat

    constructor (room: nat)
      ensures data == [] && this.room == room
    {
      this.room := room;
      data := [];
    }

    /** nla_put. */
    method NlaPut(typ: nat, payload: seq<byte>) returns (fail: bool)
      requires PutOk(Put(typ, payload))
      modifies this
      ensures fail <==> room < |old(data)| + Align4(HDRLEN + |payload|)
      ensures data == if fail then old(data) else old(data) + Encode(Put(typ, payload))
    {
      fail := room - |data| < Align4(HDRLEN + |payload|);
      if !fail { data := data + Encode(Put(typ, payload)); }
    }

    /** One more of the attributes: it fails only if not all of them fit. */
    method PutNext(p: Put, ghost base: seq<byte>, ghost puts: seq<Put>, ghost n: nat) returns (fail: bool)
      requires AllOk(puts) && n < |puts| && p == puts[n]
      requires data == Prefix(base, puts, n)
      modifies this
      ensures fail ==> room < |base| + |EncodeAll(puts)|
      ensures !fail ==> data == Prefix(base, puts, n + 1) && |data| <= room
    {
      PrefixGrows(base, puts, n + 1, |puts|);
      PrefixAll(base, puts);
      fail := NlaPut(p.typ, p.data);
    }

    /** nla_nest_start: an attribute without payload, whose position is kept. */
    method NestStart(typ: nat) returns (start: Option<nat>)
      requires typ < TYPE_MASK
      modifies this
      ensures start.Some? <==> |old(data)| + HDRLEN <= room
      ensures start.Some? ==> start.value == |old(data)| && data == old(data) + Encode(Put(typ + NESTED, []))
    {
      start := Some(|data|);
      var fail := NlaPut(typ + NESTED, []);
      if fail { start := None; }
    }

    /** nla_nest_end: the length of the attribute at start becomes the distance to the tail. */
    method NestEnd(start: nat)
      requires start + HDRLEN <= |data| && |data| - start < 0x1_0000
      modifies this
      ensures data == old(data)[..start] + Le16(|old(data)| - start) + old(data)[start + 2..]
    {
      data := data[..start] + Le16(|data| - start) + data[start + 2..];
    }

    method PutBinder(e: Event) returns (fail: bool)
      requires EventOk(e) && e.Binder? && |data| <= room
      modifies this
      ensures fail <==> room < |old(data)| + |EncodeAll(Fields(e))|
      ensures !fail ==> data == old(data) + EncodeAll(Fields(e))
    {
      ghost var base := data;
      PrefixAll(base, Fields(e));
      fail := PutCaller(e);
      if fail { return; }
      fail := PutTarget(e, base);
    }

    /** The first four attributes of a binder event. */
    method PutCaller(e: Event) returns (fail: bool)
      requires EventOk(e) && e.Binder?
      modifies this
      ensures fail ==> room < |old(data)| + |EncodeAll(Fields(e))|
      ensures !fail ==> data == Prefix(old(data), Fields(e), 4)
    {
      ghost var base, f := data, Fields(e);
      fail := PutNext(S32(11, e.binderType), base, f, 0);
      if fail { return; }
      fail := PutNext(S32(12, e.oneway), base, f, 1);
      if fail { return; }
      fail := PutNext(S32(13, e.fromPid), base, f, 2);
      if fail { return; }
      fail := PutNext(S32(14, e.fromUid), base, f, 3);
    }

    /** The other four. */
    method PutTarget(e: Event, ghost base: seq<byte>) returns (fail: bool)
      requires EventOk(e) && e.Binder? && data == Prefix(base, Fields(e), 4)
      modifies this
      ensures fail ==> room < |base| + |EncodeAll(Fields(e))|
      ensures !fail ==> data == Prefix(base, Fields(e), 8) && |data| <= room
    {
      ghost var f := Fields(e);
      fail := PutNext(S32(15, e.targetPid), base, f, 4);
      if fail { return; }
      fail := PutNext(S32(16, e.targetUid), base, f, 5);
      if fail { return; }
      fail := PutNext(S32(17, e.code), base, f, 6);
      if fail { return; }
      fail := PutNext(Put(18, e.name + [0]), base, f, 7);
    }

    method PutSignal(e: Event) returns (fail: bool)
      requires e.Signal? && |data| <= room
      modifies this
      ensures fail <==> room < |old(data)| + |EncodeAll(Fields(e))|
      ensures !fail ==> data == old(data) + EncodeAll(Fields(e))
    {
      ghost var base := data;
      ghost var f := Fields(e);
      PrefixAll(base, f);
      fail := PutNext(S32(21, e.signal), base, f, 0);
      if fail { return; }
      fail := PutNext(S32(22, e.killerPid), base, f, 1);
      if fail { return; }
      fail := PutNext(S32(23, e.killerUid), base, f, 2);
      if fail { return; }
      fail := PutNext(S32(24, e.dstPid), base, f, 3);
      if fail { return; }
      fail := PutNext(S32(25, e.dstUid), base, f, 4);
    }

    method PutNetwork(e: Event) returns (fail: bool)
      requires e.Network? && |data| <= room
      modifies this
      ensures fail <==> room < |old(data)| + |EncodeAll(Fields(e))|
      ensures !fail ==> data == old(data) + EncodeAll(Fields(e))
    {
      ghost var base := data;
      ghost var f := Fields(e);
      PrefixAll(base, f);
      fail := PutNext(S32(31, e.proto), base, f, 0);
      if fail { return; }
      fail := PutNext(S32(32, e.netUid), base, f, 1);
      if fail { return; }
      fail := PutNext(S32(33, e.dataLen), base, f, 2);
    }

    /** One case of the switch: the payload nest and its fields. */
    method PutPayload(e: Event) returns (fail: bool)
      requires EventOk(e) && !e.Other? && |data| <= room
      modifies this
      ensures fail <==> room < |old(data)| + HDRLEN + |EncodeAll(Fields(e))|
      ensures !fail ==> data == old(data) + Nest(Kind(e), EncodeAll(Fields(e)))
    {
      ghost var base := data;
      var payload := NestStart(Kind(e));
      if payload.None? { return true; }
      match e {
        case Binder(_, _, _, _, _, _, _, _) => fail := PutBinder(e);
        case Signal(_, _, _, _, _) => fail := PutSignal(e);
        case Network(_, _, _) => fail := PutNetwork(e);
      }
      if fail { return; }
      ghost var whole := data;
      NestEnd(payload.value);
      NestClosed(base, Kind(e), EncodeAll(Fields(e)), whole, data);
    }

    /** The event nest with one payload in it. */
    method PutEvent(e: Event) returns (fail: bool)
      requires EventOk(e) && |data| <= room
      modifies this
      ensures fail <==> e.Other? || room < |old(data)| + |Body(e)|
      ensures !fail ==> data == old(data) + Body(e)
    {
      ghost var base := data;
      var evt := NestStart(A_EVENT);
      if evt.None? || e.Other? { return true; }
      fail := PutPayload(e);
      if fail { return; }
      ghost var whole := data;
      NestEnd(evt.value);
      NestClosed(base, A_EVENT, Nest(Kind(e), EncodeAll(Fields(e))), whole, data);
    }

    /** rkx_send_message as far as the message itself, in an allocated buffer: exactly an event of a
        known kind whose message fits is sent, and then as Message says. */
    method Send(family: nat, e: Event) returns (sent: bool)
      requires family < 0x1_0000 && EventOk(e) && data == []
      modifies this
      ensures sent <==> !e.Other? && |Message(family, e)| <= room
      ensures sent ==> data == Message(family, e)
    {
      if room < MSG_HDRLEN { return false; }
      data := Header(0, family);
      var fail := PutEvent(e);
      if fail { return false; }
      HeaderPatched(family, Body(e));
      data := Le32(|data|) + data[4..];
      return true;
    }
  }

  /** genlmsg_end writes the length over the four bytes left open. */
  lemma HeaderPatched(family: nat, body: seq<byte>)
    requires family < 0x1_0000 && |body| <= 1000
    ensures Le32(MSG_HDRLEN + |body|) + (Header(0, family) + body)[4..] == Header(MSG_HDRLEN + |body|, family) + body
  {
    var rest := Le16(family) + Le16(0) + Le32(0) + Le32(0) + [C_EVENT, VERSION, 0, 0];
    assert Header(0, family) == Le32(0) + rest;
    assert Header(MSG_HDRLEN + |body|, family) == Le32(MSG_HDRLEN + |body|) + rest;
    assert (Le32(0) + rest + body)[4..] == rest + body;
  }

  /** rkx_send_message: with the buffer it reserves, every event of a known kind is sent, however
      long its name, unless there is no memory. */
  method SendMessage(family: nat, e: Event, memory: bool) returns (msg: Option<seq<byte>>)
    requires family < 0x1_0000 && EventOk(e)
    ensures msg == if memory && !e.Other? then Some(Message(family, e)) else None
  {
    if !memory { return None; }
    var skb := new Skb(SKB_SIZE);
    var sent := skb.Send(family, e);
    if !sent { return None; }
    return Some(skb.data);
  }

  // ----- The client side.

  /** rkx_nla_parse_nested. */
  method ParseNested(buf: seq<byte>, a: Attr) returns (tb: seq<Option<Attr>>)
    requires HDRLEN <= a.size && a.at + a.size <= |buf|
    ensures |tb| == A_MAX + 1
    ensures forall t :: 0 < t <= A_MAX ==> tb[t] == Sub(buf, a, t)
  {
    tb := Parse(buf, A_MAX, a.at + HDRLEN, a.size - HDRLEN);
  }

  method HandleBinder(buf: seq<byte>, a: Attr) returns (call: Call)
    requires HDRLEN <= a.size && a.at + a.size <= |buf|
    ensures call == BinderCall(buf, a)
  {
    var tb := ParseNested(buf, a);
    var binderType, oneway := GetS32(buf, tb[11]), GetS32(buf, tb[12]);
    var fromPid, fromUid := GetS32(buf, tb[13]), GetS32(buf, tb[14]);
    var targetPid, targetUid := GetS32(buf, tb[15]), GetS32(buf, tb[16]);
    var code := GetS32(buf, tb[17]);
    var name := GetName(buf, tb[18]);
    return OnBinder(binderType, oneway, fromUid, fromPid, targetUid, targetPid, name, code);
  }

  method HandleSignal(buf: seq<byte>, a: Attr) returns (call: Call)
    requires HDRLEN <= a.size && a.at + a.size <= |buf|
    ensures call == SignalCall(buf, a)
  {
    var tb := ParseNested(buf, a);
    var sig := GetS32(buf, tb[21]);
    var killerPid, killerUid := GetS32(buf, tb[22]), GetS32(buf, tb[23]);
    var dstPid, dstUid := GetS32(buf, tb[24]), GetS32(buf, tb[25]);
    return OnSignal(sig, killerUid, killerPid, dstUid, dstPid);
  }

  method HandleNetwork(buf: seq<byte>, a: Attr) returns (call: Call)
    requires HDRLEN <= a.size && a.at + a.size <= |buf|
    ensures call == NetworkCall(buf, a)
  {
    var tb := ParseNested(buf, a);
    return OnNetwork(GetS32(buf, tb[31]), GetS32(buf, tb[32]), GetS32(buf, tb[33]));
  }

  /** The part of handle_event that makes the calls. */
  method Dispatch(buf: seq<byte>, a: Attr) returns (calls: seq<Call>)
    requires HDRLEN <= a.size && a.at + a.size <= |buf|
    ensures calls == EventCalls(buf, a)
  {
    calls := [];
    var evt := ParseNested(buf, a);
    if evt[A_BINDER].Some? {
      var call := HandleBinder(buf, evt[A_BINDER].value);
      calls := calls + [call];
    }
    if evt[A_SIGNAL].Some? {
      var call := HandleSignal(buf, evt[A_SIGNAL].value);
      calls := calls + [call];
    }
    if evt[A_NETWORK].Some? {
      var call := HandleNetwork(buf, evt[A_NETWORK].value);
      calls := calls + [call];
    }
  }

  /** handle_event, for a message that lies in the received bytes. */
  method HandleEvent(buf: seq<byte>, at: nat, family: nat) returns (calls: seq<Call>)
    requires at + 16 <= |buf| && at + U32(buf, at) <= |buf|
    ensures calls == Calls(buf, at, family)
    ensures var typ, len := U16(buf, at + 4), U32(buf, at);
            typ == NLMSG_ERROR || typ == NLMSG_DONE || typ != family || len < MSG_HDRLEN || buf[at + 16] != C_EVENT ==>
              calls == []
  {
    calls := [];
    var typ, len := U16(buf, at + 4), U32(buf, at);
    if typ == NLMSG_ERROR || typ == NLMSG_DONE || typ != family || len < MSG_HDRLEN {
      return;
    }
    if buf[at + 16] != C_EVENT {
      return;
    }
    var tb := Parse(buf, A_MAX, at + MSG_HDRLEN, len - MSG_HDRLEN);
    if tb[A_EVENT].None? {
      return;
    }
    WalkInside(buf, at + MSG_HDRLEN, len - MSG_HDRLEN);
    calls := Dispatch(buf, tb[A_EVENT].value);
  }
}
