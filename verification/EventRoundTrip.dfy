/** What the kernel encodes, the client decodes to one call with the same values. */
module EventRoundTrip {
  import opened Base
  import opened NlAttr
  import opened EventCodec

  // ----- Fields.

  /** The attributes of each event are numbered consecutively. */
  predicate Distinct(puts: seq<Put>) {
    forall i :: 0 <= i < |puts| ==> puts[i].typ == puts[0].typ + i < TYPE_MASK
  }

  lemma {:induction false} LastPutAt(puts: seq<Put>, i: nat)
    requires Distinct(puts) && i < |puts|
    ensures LastPut(puts, puts[i].typ) == Some(puts[i].data)
  {
    if i < |puts| - 1 { LastPutAt(puts[..|puts| - 1], i); }
  }

  /** a holds exactly these attributes. */
  predicate Holds(buf: seq<byte>, a: Attr, puts: seq<Put>) {
    && AllOk(puts)
    && HDRLEN <= a.size && a.at + a.size <= |buf|
    && Payload(buf, a) == EncodeAll(puts)
  }

  lemma SubGets(buf: seq<byte>, a: Attr, puts: seq<Put>, i: nat)
    requires Holds(buf, a, puts) && Distinct(puts) && i < |puts|
    ensures var r := Sub(buf, a, puts[i].typ); r.Some? && Payload(buf, r.value) == puts[i].data
  {
    LastPutAt(puts, i);
    SubFinds(buf, a, puts, puts[i].typ);
  }

  lemma PayloadAt(buf: seq<byte>, a: Attr, s: seq<byte>)
    requires HDRLEN <= a.size && a.at + a.size <= |buf| && Payload(buf, a) == s
    ensures At(buf, a.at + HDRLEN, s) && a.size - HDRLEN == |s|
  {
  }

  lemma SubFinds(buf: seq<byte>, a: Attr, puts: seq<Put>, typ: nat)
    requires Holds(buf, a, puts)
    ensures Finds(buf, Sub(buf, a, typ), LastPut(puts, typ)) == true
  {
    PayloadAt(buf, a, EncodeAll(puts));
    ParseEncoded(buf, a.at + HDRLEN, a.size - HDRLEN, puts, typ);
  }

  lemma GetsS32(buf: seq<byte>, a: Attr, v: int)
    requires -0x8000_0000 <= v < 0x1_0000_0000
    requires HDRLEN <= a.size && a.at + a.size <= |buf| && Payload(buf, a) == Le32(Bits(v))
    ensures GetS32(buf, Some(a)) == AsS32(v)
  {
    var s := Le32(Bits(v));
    U32Le32(Bits(v));
    assert forall i :: 0 <= i < 4 ==> buf[a.at + HDRLEN + i] == Payload(buf, a)[i];
    assert U32(buf, a.at + HDRLEN) == U32(s, 0);
  }

  lemma FieldGets(buf: seq<byte>, a: Attr, puts: seq<Put>, i: nat, typ: nat, v: int)
    requires Holds(buf, a, puts) && Distinct(puts) && i < |puts|
    requires typ < 0x4000 && -0x8000_0000 <= v < 0x1_0000_0000 && puts[i] == S32(typ, v)
    ensures GetS32(buf, Sub(buf, a, typ)) == AsS32(v)
  {
    SubGets(buf, a, puts, i);
    GetsS32(buf, Sub(buf, a, typ).value, v);
  }

  lemma NameReads(buf: seq<byte>, a: Attr, name: Name)
    requires NameOk(name)
    requires HDRLEN <= a.size && a.at + a.size <= |buf| && Payload(buf, a) == name + [0]
    ensures GetName(buf, Some(a)) == name
  {
    CBytesOf(name);
  }

  lemma NameGets(buf: seq<byte>, a: Attr, puts: seq<Put>, i: nat, name: Name)
    requires Holds(buf, a, puts) && Distinct(puts) && i < |puts|
    requires NameOk(name) && puts[i] == Put(18, name + [0])
    ensures GetName(buf, Sub(buf, a, 18)) == name
  {
    SubGets(buf, a, puts, i);
    NameReads(buf, Sub(buf, a, 18).value, name);
  }

  /** A number in a payload of any attributes, also of some that the kernel never sends: it is that
      of the last attribute of its type, and -1 if there is none or it has less than four bytes; and
      the name is that of the last one of its type, or empty. */
  lemma FieldReads(buf: seq<byte>, a: Attr, puts: seq<Put>, typ: nat)
    requires Holds(buf, a, puts)
    ensures var p := LastPut(puts, typ);
            && GetS32(buf, Sub(buf, a, typ)) == (if p.None? || |p.value| < 4 then -1 else AsS32(U32(p.value, 0)))
            && GetName(buf, Sub(buf, a, typ)) ==
               (if p.None? then [] else CBytes(p.value[..Min(|p.value|, NAME_BUF)]))
  {
    SubFinds(buf, a, puts, typ);
    var r := Sub(buf, a, typ);
    if r.Some? { PayloadReads(buf, r.value, LastPut(puts, typ).value); }
  }

  lemma PayloadReads(buf: seq<byte>, a: Attr, s: seq<byte>)
    requires HDRLEN <= a.size && a.at + a.size <= |buf| && Payload(buf, a) == s
    ensures GetS32(buf, Some(a)) == if |s| < 4 then -1 else AsS32(U32(s, 0))
    ensures GetName(buf, Some(a)) == CBytes(s[..Min(|s|, NAME_BUF)])
  {
    var p, n := a.at + HDRLEN, Min(|s|, NAME_BUF);
    assert forall i :: 0 <= i < |s| ==> buf[p + i] == Payload(buf, a)[i];
    if |s| >= 4 { assert U32(buf, p) == U32(s, 0); }
    assert buf[p..p + n] == s[..n];
  }

  // ----- One lemma for each kind of event.

  lemma FieldsDistinct(e: Event)
    requires EventOk(e) && !e.Other?
    ensures Distinct(Fields(e))
  {
  }

  lemma BinderRound(buf: seq<byte>, a: Attr, e: Event)
    requires EventOk(e) && e.Binder? && Holds(buf, a, Fields(e))
    ensures BinderCall(buf, a) == Expected(e)
    ensures var c := BinderCall(buf, a);
            && c.OnBinder? && c.binderType == e.binderType && c.oneway == e.oneway
            && c.name == e.name && c.code == e.code
            && c.fromPid == e.fromPid && c.fromUid == AsS32(e.fromUid)
            && c.targetPid == e.targetPid && c.targetUid == AsS32(e.targetUid)
  {
    var puts := Fields(e);
    FieldsDistinct(e);
    FieldGets(buf, a, puts, 0, 11, e.binderType);
    FieldGets(buf, a, puts, 1, 12, e.oneway);
    FieldGets(buf, a, puts, 2, 13, e.fromPid);
    FieldGets(buf, a, puts, 3, 14, e.fromUid);
    FieldGets(buf, a, puts, 4, 15, e.targetPid);
    FieldGets(buf, a, puts, 5, 16, e.targetUid);
    FieldGets(buf, a, puts, 6, 17, e.code);
    NameGets(buf, a, puts, 7, e.name);
  }

  lemma SignalRound(buf: seq<byte>, a: Attr, e: Event)
    requires e.Signal? && Holds(buf, a, Fields(e))
    ensures SignalCall(buf, a) == Expected(e)
    ensures var c := SignalCall(buf, a);
            && c.OnSignal? && c.signal == e.signal && c.killerPid == e.killerPid && c.killerUid == AsS32(e.killerUid)
            && c.dstPid == e.dstPid && c.dstUid == AsS32(e.dstUid)
  {
    var puts := Fields(e);
    FieldsDistinct(e);
    FieldGets(buf, a, puts, 0, 21, e.signal);
    FieldGets(buf, a, puts, 1, 22, e.killerPid);
    FieldGets(buf, a, puts, 2, 23, e.killerUid);
    FieldGets(buf, a, puts, 3, 24, e.dstPid);
    FieldGets(buf, a, puts, 4, 25, e.dstUid);
  }

  lemma NetworkRound(buf: seq<byte>, a: Attr, e: Event)
    requires e.Network? && Holds(buf, a, Fields(e))
    ensures NetworkCall(buf, a) == Expected(e)
    ensures var c := NetworkCall(buf, a);
            c.OnNetwork? && c.proto == e.proto && c.targetUid == AsS32(e.netUid) && c.dataLen == e.dataLen
  {
    var puts := Fields(e);
    FieldsDistinct(e);
    FieldGets(buf, a, puts, 0, 31, e.proto);
    FieldGets(buf, a, puts, 1, 32, e.netUid);
    FieldGets(buf, a, puts, 2, 33, e.dataLen);
  }

  // ----- The nesting.

  /** A table over one nested attribute has that attribute and no other. */
  lemma NestTable(buf: seq<byte>, pos: nat, typ: nat, inner: seq<byte>, asked: nat)
    requires typ < TYPE_MASK && |inner| % 4 == 0 && |inner| <= 1000 && At(buf, pos, Nest(typ, inner))
    ensures var r := Table(buf, pos, HDRLEN + |inner|, asked);
            && (r.Some? <==> asked == typ)
            && (r.Some? ==>
                  HDRLEN <= r.value.size && r.value.at + r.value.size <= |buf| && Payload(buf, r.value) == inner)
  {
    var puts := [Put(typ + NESTED, inner)];
    assert puts[..0] == [];
    assert EncodeAll(puts) == Nest(typ, inner);
    ParseEncoded(buf, pos, HDRLEN + |inner|, puts, asked);
    assert LastPut(puts, asked) == if asked == typ then Some(inner) else LastPut([], asked);
  }

  /** Inside an attribute that holds one nest, only that nest is found. */
  lemma NestFound(buf: seq<byte>, a: Attr, kind: nat, inner: seq<byte>, asked: nat)
    requires kind < TYPE_MASK && |inner| % 4 == 0 && |inner| <= 1000
    requires HDRLEN <= a.size && a.at + a.size <= |buf| && Payload(buf, a) == Nest(kind, inner)
    ensures var r := Sub(buf, a, asked); if asked == kind then r.Some? && Payload(buf, r.value) == inner else r.None?
  {
    PayloadAt(buf, a, Nest(kind, inner));
    NestTable(buf, a.at + HDRLEN, kind, inner, asked);
  }

  lemma EventRound(buf: seq<byte>, a: Attr, e: Event)
    requires EventOk(e) && !e.Other? && HDRLEN <= a.size && a.at + a.size <= |buf|
    requires Payload(buf, a) == Nest(Kind(e), EncodeAll(Fields(e)))
    ensures EventCalls(buf, a) == [Expected(e)]
  {
    var inner := EncodeAll(Fields(e));
    NestFound(buf, a, Kind(e), inner, A_BINDER);
    NestFound(buf, a, Kind(e), inner, A_SIGNAL);
    NestFound(buf, a, Kind(e), inner, A_NETWORK);
    if e.Binder? {
      BinderRound(buf, Sub(buf, a, A_BINDER).value, e);
    } else if e.Signal? {
      SignalRound(buf, Sub(buf, a, A_SIGNAL).value, e);
    } else {
      NetworkRound(buf, Sub(buf, a, A_NETWORK).value, e);
    }
  }

  lemma HeaderReads(buf: seq<byte>, at: nat, len: nat, family: nat)
    requires len < 0x1_0000_0000 && family < 0x1_0000 && At(buf, at, Header(len, family))
    ensures U32(buf, at) == len && U16(buf, at + 4) == family && buf[at + 16] == C_EVENT
  {
    var h := Header(len, family);
    U32Le32(len);
    U16Le16(family);
    assert forall i :: 0 <= i < 20 ==> buf[at + i] == buf[at..at + 20][i] == h[i];
    assert forall i :: 0 <= i < 4 ==> h[i] == Le32(len)[i];
    assert U32(buf, at) == U32(Le32(len), 0);
    assert h[4] == Le16(family)[0] && h[5] == Le16(family)[1];
    assert h[16] == C_EVENT;
  }

  /** handle_event gets through the envelope to the event attribute. */
  lemma EnvelopeRead(buf: seq<byte>, at: nat, family: nat, p: seq<byte>) returns (evt: Attr)
    requires GENL_MIN_ID <= family < 0x1_0000 && |p| % 4 == 0 && |p| <= 1000
    requires At(buf, at, Header(MSG_HDRLEN + HDRLEN + |p|, family)) && At(buf, at + MSG_HDRLEN, Nest(A_EVENT, p))
    ensures U32(buf, at) == MSG_HDRLEN + HDRLEN + |p|
    ensures EventOf(buf, at, family) == Some(evt) && Payload(buf, evt) == p
  {
    HeaderReads(buf, at, MSG_HDRLEN + HDRLEN + |p|, family);
    NestTable(buf, at + MSG_HDRLEN, A_EVENT, p, A_EVENT);
    evt := Table(buf, at + MSG_HDRLEN, HDRLEN + |p|, A_EVENT).value;
  }

  /** The theorem: wherever an encoded event stands in the received bytes, and whatever stands
      around it, the client makes exactly one call, of the right kind and with the same values. */
  lemma RoundTrip(buf: seq<byte>, at: nat, family: nat, e: Event)
    requires GENL_MIN_ID <= family < 0x1_0000 && EventOk(e) && !e.Other?
    requires At(buf, at, Message(family, e))
    ensures U32(buf, at) == |Message(family, e)| && Calls(buf, at, family) == [Expected(e)]
  {
    AtSplit(buf, at, Header(MSG_HDRLEN + |Body(e)|, family), Body(e));
    var evt := EnvelopeRead(buf, at, family, Nest(Kind(e), EncodeAll(Fields(e))));
    EventRound(buf, evt, e);
  }

  /** A listener of another family hears nothing of it. */
  lemma OtherFamilyIsDeaf(buf: seq<byte>, at: nat, family: nat, e: Event, mine: nat)
    requires GENL_MIN_ID <= family < 0x1_0000 && EventOk(e) && !e.Other? && mine != family
    requires At(buf, at, Message(family, e))
    ensures U32(buf, at) == |Message(family, e)| && Calls(buf, at, mine) == []
  {
    AtSplit(buf, at, Header(MSG_HDRLEN + |Body(e)|, family), Body(e));
    HeaderReads(buf, at, MSG_HDRLEN + |Body(e)|, family);
  }
}
