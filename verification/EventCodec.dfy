/** Events on their way from the kernel to the client: rkx_send_message writes them into a socket
    buffer, handle_event reads them back. */
module EventCodec {
  import opened Base
  import opened NlAttr

  const A_EVENT := 1
  const A_BINDER := 10
  const A_SIGNAL := 20
  const A_NETWORK := 30
  const A_MAX := 49
  const C_EVENT := 1
  const VERSION := 1
  const NLMSG_ERROR := 2
  const NLMSG_DONE := 3
  const GENL_MIN_ID := 16
  const SKB_SIZE := 280        // what genlmsg_new(nla_total_size(256)) reserves

  type Name = seq<byte>

  datatype Event =
    | Binder(binderType: byte, oneway: byte, fromPid: s32, fromUid: u32, targetPid: s32, targetUid: u32, code: s32,
             name: Name)
    | Signal(signal: s32, killerPid: s32, killerUid: u32, dstPid: s32, dstUid: u32)
    | Network(proto: byte, netUid: u32, dataLen: s32)
    | Other(kind: byte)

  /** The Java callbacks, in their own order of arguments. */
  datatype Call =
    | OnBinder(binderType: int, oneway: int, fromUid: int, fromPid: int, targetUid: int, targetPid: int, name: Name,
               code: int)
    | OnSignal(signal: int, killerUid: int, killerPid: int, dstUid: int, dstPid: int)
    | OnNetwork(proto: int, targetUid: int, dataLen: int)

  predicate NoNul(name: Name) {
    forall i :: 0 <= i < |name| ==> name[i] != 0
  }

  /** rpc_name is a C string in an array of 140. */
  predicate NameOk(name: Name) {
    |name| < NAME_BUF && NoNul(name)
  }

  predicate EventOk(e: Event) {
    e.Binder? ==> NameOk(e.name)
  }

  /** What the client should hear: the same values, unsigned ones as the signed Java int. */
  function Expected(e: Event): Call
    requires !e.Other?
  {
    match e
    case Binder(ty, ow, fp, fu, tp, tu, code, name) => OnBinder(ty, ow, AsS32(fu), fp, AsS32(tu), tp, name, code)
    case Signal(sig, kp, ku, dp, du) => OnSignal(sig, AsS32(ku), kp, AsS32(du), dp)
    case Network(proto, uid, n) => OnNetwork(proto, AsS32(uid), n)
  }

  // ----- The message as bytes.

  function S32(typ: nat, v: int): (p: Put)
    requires typ < 0x4000 && -0x8000_0000 <= v < 0x1_0000_0000
    ensures PutOk(p)
  {
    Put(typ, Le32(Bits(v)))
  }

  function Fields(e: Event): (puts: seq<Put>)
    requires EventOk(e) && !e.Other?
    ensures AllOk(puts) && |EncodeAll(puts)| <= 200 && |EncodeAll(puts)| % 4 == 0
  {
    match e
    case Binder(ty, ow, fp, fu, tp, tu, code, name) =>
      var puts := [S32(11, ty), S32(12, ow), S32(13, fp), S32(14, fu), S32(15, tp), S32(16, tu), S32(17, code),
                   Put(18, name + [0])];
      SizeOf(puts);
      EncodedAligned(puts);
      puts
    case Signal(sig, kp, ku, dp, du) =>
      var puts := [S32(21, sig), S32(22, kp), S32(23, ku), S32(24, dp), S32(25, du)];
      SizeOf(puts);
      EncodedAligned(puts);
      puts
    case Network(proto, uid, n) =>
      var puts := [S32(31, proto), S32(32, uid), S32(33, n)];
      SizeOf(puts);
      EncodedAligned(puts);
      puts
  }

  lemma {:induction false} SizeOf(puts: seq<Put>)
    requires AllOk(puts) && forall i :: 0 <= i < |puts| - 1 ==> |puts[i].data| == 4
    ensures puts != [] ==> |EncodeAll(puts)| == 8 * (|puts| - 1) + Align4(HDRLEN + |puts[|puts| - 1].data|)
  {
    if |puts| > 1 { SizeOf(puts[1..]); }
    else if |puts| == 1 { assert EncodeAll(puts[1..]) == []; }
  }

  function Kind(e: Event): nat
    requires !e.Other?
  {
    match e
    case Binder(_, _, _, _, _, _, _, _) => A_BINDER
    case Signal(_, _, _, _, _) => A_SIGNAL
    case Network(_, _, _) => A_NETWORK
  }

  /** A nested attribute around complete attributes. */
  function Nest(typ: nat, inner: seq<byte>): (s: seq<byte>)
    requires typ < TYPE_MASK && |inner| % 4 == 0 && |inner| <= 1000
    ensures |s| == HDRLEN + |inner| && |s| % 4 == 0
    ensures EncodeAll([Put(typ + NESTED, inner)]) == s
  {
    assert [Put(typ + NESTED, inner)][1..] == [];
    Encode(Put(typ + NESTED, inner))
  }

  function Body(e: Event): (s: seq<byte>)
    requires EventOk(e) && !e.Other?
    ensures |s| % 4 == 0 && |s| <= 208
  {
    Nest(A_EVENT, Nest(Kind(e), EncodeAll(Fields(e))))
  }

  function Header(len: nat, family: nat): (s: seq<byte>)
    requires len < 0x1_0000_0000 && family < 0x1_0000
    ensures |s| == MSG_HDRLEN
  {
    Le32(len) + Le16(family) + Le16(0) + Le32(0) + Le32(0) + [C_EVENT, VERSION, 0, 0]
  }

  /** The whole message: at most 228 of the 280 bytes reserved. */
  function Message(family: nat, e: Event): (s: seq<byte>)
    requires family < 0x1_0000 && EventOk(e) && !e.Other?
    ensures |s| % 4 == 0 && MSG_HDRLEN <= |s| <= 228
  {
    Header(MSG_HDRLEN + |Body(e)|, family) + Body(e)
  }

  // ----- Reading: handle_event.

  /** rkx_nla_get into a variable that starts at -1. */
  function GetS32(buf: seq<byte>, a: Option<Attr>): int
    requires a.Some? ==> HDRLEN <= a.value.size && a.value.at + a.value.size <= |buf|
  {
    if a.None? || a.value.size - HDRLEN < 4 then -1 else AsS32(U32(buf, a.value.at + HDRLEN))
  }

  /** The C string that starts a byte array followed by a NUL. */
  function CBytes(s: seq<byte>): Name {
    if s == [] || s[0] == 0 then [] else [s[0]] + CBytes(s[1..])
  }

  lemma {:induction false} CBytesOf(name: Name)
    requires NoNul(name)
    ensures CBytes(name + [0]) == name
  {
    if name != [] {
      CBytesOf(name[1..]);
      assert (name + [0])[1..] == name[1..] + [0];
    }
  }

  /** rpc_name as copied into the zeroed array of 141. */
  function GetName(buf: seq<byte>, a: Option<Attr>): Name
    requires a.Some? ==> HDRLEN <= a.value.size && a.value.at + a.value.size <= |buf|
  {
    if a.None? then [] else CBytes(buf[a.value.at + HDRLEN..a.value.at + HDRLEN + Min(a.value.size - HDRLEN, NAME_BUF)])
  }

  /** A slot of the table of an attribute's payload. It lies inside buf when the attribute does. */
  function Sub(buf: seq<byte>, a: Attr, typ: nat): (r: Option<Attr>)
    requires HDRLEN <= a.size && a.at + a.size <= |buf|
    ensures r.Some? ==> HDRLEN <= r.value.size && r.value.at + r.value.size <= |buf|
  {
    WalkInside(buf, a.at + HDRLEN, a.size - HDRLEN);
    Table(buf, a.at + HDRLEN, a.size - HDRLEN, typ)
  }

  function BinderCall(buf: seq<byte>, a: Attr): Call
    requires HDRLEN <= a.size && a.at + a.size <= |buf|
  {
    OnBinder(GetS32(buf, Sub(buf, a, 11)), GetS32(buf, Sub(buf, a, 12)),
             GetS32(buf, Sub(buf, a, 14)), GetS32(buf, Sub(buf, a, 13)),
             GetS32(buf, Sub(buf, a, 16)), GetS32(buf, Sub(buf, a, 15)),
             GetName(buf, Sub(buf, a, 18)), GetS32(buf, Sub(buf, a, 17)))
  }

  function SignalCall(buf: seq<byte>, a: Attr): Call
    requires HDRLEN <= a.size && a.at + a.size <= |buf|
  {
    OnSignal(GetS32(buf, Sub(buf, a, 21)), GetS32(buf, Sub(buf, a, 23)), GetS32(buf, Sub(buf, a, 22)),
             GetS32(buf, Sub(buf, a, 25)), GetS32(buf, Sub(buf, a, 24)))
  }

  function NetworkCall(buf: seq<byte>, a: Attr): Call
    requires HDRLEN <= a.size && a.at + a.size <= |buf|
  {
    OnNetwork(GetS32(buf, Sub(buf, a, 31)), GetS32(buf, Sub(buf, a, 32)), GetS32(buf, Sub(buf, a, 33)))
  }

  /** The calls an event attribute leads to: one for each kind of payload in it. */
  function EventCalls(buf: seq<byte>, a: Attr): seq<Call>
    requires HDRLEN <= a.size && a.at + a.size <= |buf|
  {
    var b, s, n := Sub(buf, a, A_BINDER), Sub(buf, a, A_SIGNAL), Sub(buf, a, A_NETWORK);
    (if b.Some? then [BinderCall(buf, b.value)] else []) +
    (if s.Some? then [SignalCall(buf, s.value)] else []) +
    (if n.Some? then [NetworkCall(buf, n.value)] else [])
  }

  /** handle_event looks at this message at all. */
  predicate Relevant(buf: seq<byte>, at: nat, family: nat)
    requires at + 16 <= |buf| && at + U32(buf, at) <= |buf|
  {
    var typ := U16(buf, at + 4);
    typ != NLMSG_ERROR && typ != NLMSG_DONE && typ == family && U32(buf, at) >= MSG_HDRLEN && buf[at + 16] == C_EVENT
  }

  /** The event attribute of the message at a position, given the family in use. */
  function EventOf(buf: seq<byte>, at: nat, family: nat): (r: Option<Attr>)
    requires at + 16 <= |buf| && at + U32(buf, at) <= |buf|
    ensures r.Some? ==> HDRLEN <= r.value.size && r.value.at + r.value.size <= |buf|
  {
    if !Relevant(buf, at, family) then None
    else
      WalkInside(buf, at + MSG_HDRLEN, U32(buf, at) - MSG_HDRLEN);
      Table(buf, at + MSG_HDRLEN, U32(buf, at) - MSG_HDRLEN, A_EVENT)
  }

  /** The calls made for the message at a position. */
  function Calls(buf: seq<byte>, at: nat, family: nat): seq<Call>
    requires at + 16 <= |buf| && at + U32(buf, at) <= |buf|
  {
    var evt := EventOf(buf, at, family);
    if evt.None? then [] else EventCalls(buf, evt.value)
  }
}
