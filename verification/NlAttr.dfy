/** Netlink attributes as bytes: the header of length and type, padding to four, the client's
    table-driven parser and its message builder. Numbers are little-endian, as on AArch64. */
module NlAttr {
  import opened Base

  const HDRLEN := 4            // NLA_HDRLEN
  const TYPE_MASK := 0x4000    // types are taken modulo this: the two flag bits are masked off
  const NESTED := 0x8000       // NLA_F_NESTED
  const MSG_HDRLEN := 20       // NLMSG_HDRLEN + GENL_HDRLEN

  // ----- Numbers.

  function Le16(v: nat): (s: seq<byte>)
    requires v < 0x1_0000
    ensures |s| == 2
  {
    [v % 256, v / 256]
  }

  function U16(s: seq<byte>, i: nat): (v: nat)
    requires i + 2 <= |s|
    ensures v < 0x1_0000
  {
    var lo: int, hi: int := s[i], s[i + 1];
    lo + 256 * hi
  }

  function Le32(v: nat): (s: seq<byte>)
    requires v < 0x1_0000_0000
    ensures |s| == 4
  {
    Le16(v % 0x1_0000) + Le16(v / 0x1_0000)
  }

  function U32(s: seq<byte>, i: nat): (v: nat)
    requires i + 4 <= |s|
    ensures v < 0x1_0000_0000
  {
    U16(s, i) + 0x1_0000 * U16(s, i + 2)
  }

  lemma U16Le16(v: nat)
    requires v < 0x1_0000
    ensures U16(Le16(v), 0) == v
  {
  }

  lemma U32Le32(v: nat)
    requires v < 0x1_0000_0000
    ensures U32(Le32(v), 0) == v
  {
    var s := Le32(v);
    U16Le16(v % 0x1_0000);
    U16Le16(v / 0x1_0000);
    assert s[0..2] == Le16(v % 0x1_0000) && s[2..4] == Le16(v / 0x1_0000);
    assert s[0] == Le16(v % 0x1_0000)[0] && s[1] == Le16(v % 0x1_0000)[1];
    assert s[2] == Le16(v / 0x1_0000)[0] && s[3] == Le16(v / 0x1_0000)[1];
  }

  // ----- Reading: nla_for_each_attr.

  /** An attribute at a position: its masked type, and its length with the header. */
  datatype Attr = Attr(at: nat, typ: nat, size: nat)

  function AttrAt(buf: seq<byte>, pos: nat): Attr
    requires pos + HDRLEN <= |buf|
  {
    Attr(pos, U16(buf, pos + 2) % TYPE_MASK, U16(buf, pos))
  }

  /** nla_ok. The attribute is looked at only if its header lies in the range. */
  predicate AttrOk(buf: seq<byte>, pos: nat, rem: int)
    requires rem < 0 || pos + rem <= |buf|
  {
    rem >= HDRLEN && U16(buf, pos) >= HDRLEN && U16(buf, pos) <= rem
  }

  /** The attributes that a walk over [pos, pos + rem) meets. */
  function Walk(buf: seq<byte>, pos: nat, rem: int): seq<Attr>
    requires rem < 0 || pos + rem <= |buf|
    decreases if rem < 0 then 0 else rem
  {
    if AttrOk(buf, pos, rem) then
      [AttrAt(buf, pos)] + Walk(buf, pos + Align4(U16(buf, pos)), rem - Align4(U16(buf, pos)))
    else []
  }

  function Payload(buf: seq<byte>, a: Attr): seq<byte>
    requires HDRLEN <= a.size && a.at + a.size <= |buf|
  {
    buf[a.at + HDRLEN..a.at + a.size]
  }

  /** a lies completely inside [pos, pos + len). */
  predicate Inside(a: Attr, pos: nat, len: int) {
    pos <= a.at && HDRLEN <= a.size && a.at + a.size <= pos + len
  }

  /** On arbitrary bytes and any signed length, every attribute met lies in the range, one after the other. */
  lemma {:induction false} WalkInside(buf: seq<byte>, pos: nat, rem: int)
    requires rem < 0 || pos + rem <= |buf|
    ensures forall i :: 0 <= i < |Walk(buf, pos, rem)| ==> Inside(Walk(buf, pos, rem)[i], pos, rem)
    ensures forall i :: 0 <= i < |Walk(buf, pos, rem)| ==>
              && Walk(buf, pos, rem)[i].at + HDRLEN <= |buf|
              && Walk(buf, pos, rem)[i] == AttrAt(buf, Walk(buf, pos, rem)[i].at)
    ensures forall i, j :: 0 <= i < j < |Walk(buf, pos, rem)| ==>
              Walk(buf, pos, rem)[i].at + Walk(buf, pos, rem)[i].size <= Walk(buf, pos, rem)[j].at
    decreases if rem < 0 then 0 else rem
  {
    if AttrOk(buf, pos, rem) {
      var n := Align4(U16(buf, pos));
      WalkInside(buf, pos + n, rem - n);
    }
  }

  /** The last attribute of a type, as an index into the walk. */
  function LastOf(attrs: seq<Attr>, typ: nat): (r: Option<Attr>)
    ensures r.Some? ==> r.value in attrs && r.value.typ == typ
    ensures r.None? ==> forall i :: 0 <= i < |attrs| ==> attrs[i].typ != typ
  {
    if attrs == [] then None
    else if attrs[|attrs| - 1].typ == typ then Some(attrs[|attrs| - 1])
    else LastOf(attrs[..|attrs| - 1], typ)
  }

  /** tb holds, for each type up to maxtype, the last of these attributes of that type. */
  ghost predicate IsTable(tb: seq<Option<Attr>>, maxtype: nat, attrs: seq<Attr>) {
    && |tb| == maxtype + 1 && tb[0] == None
    && forall t :: 0 < t <= maxtype ==> tb[t] == LastOf(attrs, t)
  }

  lemma TableNext(tb: seq<Option<Attr>>, maxtype: nat, attrs: seq<Attr>, a: Attr)
    requires IsTable(tb, maxtype, attrs)
    ensures IsTable(if 0 < a.typ <= maxtype then tb[a.typ := Some(a)] else tb, maxtype, attrs + [a])
  {
    assert (attrs + [a])[..|attrs|] == attrs;
  }

  /** The walk is what has been met and then the walk from here. */
  ghost predicate Met(buf: seq<byte>, pos: nat, len: int, seen: seq<Attr>, at: nat, rem: int)
    requires len < 0 || pos + len <= |buf|
  {
    (rem < 0 || at + rem <= |buf|) && Walk(buf, pos, len) == seen + Walk(buf, at, rem)
  }

  lemma MetNext(buf: seq<byte>, pos: nat, len: int, seen: seq<Attr>, at: nat, rem: int)
    requires (len < 0 || pos + len <= |buf|) && Met(buf, pos, len, seen, at, rem) && AttrOk(buf, at, rem)
    ensures var n := Align4(U16(buf, at)); Met(buf, pos, len, seen + [AttrAt(buf, at)], at + n, rem - n)
  {
    var n := Align4(U16(buf, at));
    var a, rest := [AttrAt(buf, at)], Walk(buf, at + n, rem - n);
    assert seen + (a + rest) == seen + a + rest;
  }

  /** rkx_nla_parse: the table holds, for each type up to maxtype, the last complete attribute of
      that type. Slot 0 stays empty. */
  method Parse(buf: seq<byte>, maxtype: nat, pos: nat, len: int) returns (tb: seq<Option<Attr>>)
    requires len < 0 || pos + len <= |buf|
    ensures |tb| == maxtype + 1 && tb[0] == None
    ensures forall t :: 0 < t <= maxtype ==> tb[t] == LastOf(Walk(buf, pos, len), t)
  {
    tb := seq(maxtype + 1, _ => None);
    var at: nat, rem := pos, len;
    ghost var seen: seq<Attr> := [];
    assert [] + Walk(buf, at, rem) == Walk(buf, at, rem);
    while AttrOk(buf, at, rem)
      invariant Met(buf, pos, len, seen, at, rem) && IsTable(tb, maxtype, seen) == true
      decreases if rem < 0 then 0 else rem
    {
      var nla := AttrAt(buf, at);
      MetNext(buf, pos, len, seen, at, rem);
      TableNext(tb, maxtype, seen, nla);
      if 0 < nla.typ <= maxtype {
        tb := tb[nla.typ := Some(nla)];
      }
      seen := seen + [nla];
      var totlen := Align4(U16(buf, at));
      at, rem := at + totlen, rem - totlen;
    }
    assert seen + [] == seen;
  }

  /** The table as a function, for use in specifications. */
  function Table(buf: seq<byte>, pos: nat, len: int, typ: nat): Option<Attr>
    requires len < 0 || pos + len <= |buf|
  {
    LastOf(Walk(buf, pos, len), typ)
  }

  /** The attribute found by going down through nested attributes, one type at a time. */
  function Descend(buf: seq<byte>, pos: nat, len: int, path: seq<nat>): Option<Attr>
    requires path != [] && (len < 0 || pos + len <= |buf|)
    decreases |path|
  {
    WalkInside(buf, pos, len);
    var a := Table(buf, pos, len, path[0]);
    if a.None? || |path| == 1 then a else Descend(buf, a.value.at + HDRLEN, a.value.size - HDRLEN, path[1..])
  }

  /** On arbitrary bytes, what is found at any depth lies inside the payload of the attribute it was
      found in, and so inside the range given at the top. */
  lemma {:induction false} NestedInside(buf: seq<byte>, pos: nat, len: int, path: seq<nat>)
    requires path != [] && (len < 0 || pos + len <= |buf|) && Descend(buf, pos, len, path).Some?
    ensures var r, a := Descend(buf, pos, len, path).value, Table(buf, pos, len, path[0]);
            && Inside(r, pos, len)
            && a.Some? && Inside(a.value, pos, len)
            && (|path| > 1 ==> Inside(r, a.value.at + HDRLEN, a.value.size - HDRLEN))
    decreases |path|
  {
    WalkInside(buf, pos, len);
    if |path| > 1 {
      var a := Table(buf, pos, len, path[0]).value;
      NestedInside(buf, a.at + HDRLEN, a.size - HDRLEN, path[1..]);
    }
  }

  // ----- Writing.

  datatype Put = Put(typ: nat, data: seq<byte>)

  const MAX_PAYLOAD := 65528

  /** A payload whose length and padded length fit the 16-bit arithmetic of the writers. */
  predicate PutOk(p: Put) {
    p.typ < 0x1_0000 && |p.data| <= MAX_PAYLOAD
  }

  predicate AllOk(puts: seq<Put>) {
    forall i :: 0 <= i < |puts| ==> PutOk(puts[i])
  }

  function Zeros(n: nat): (s: seq<byte>)
    ensures |s| == n
  {
    seq(n, _ => 0)
  }

  /** One attribute: length, type, payload, padding. */
  function Encode(p: Put): (s: seq<byte>)
    requires PutOk(p)
    ensures |s| == Align4(HDRLEN + |p.data|)
  {
    var n := HDRLEN + |p.data|;
    Le16(n) + Le16(p.typ) + p.data + Zeros(Align4(n) - n)
  }

  function EncodeAll(puts: seq<Put>): seq<byte>
    requires AllOk(puts)
  {
    if puts == [] then [] else Encode(puts[0]) + EncodeAll(puts[1..])
  }

  lemma {:induction false} EncodedAligned(puts: seq<Put>)
    requires AllOk(puts)
    ensures |EncodeAll(puts)| % 4 == 0
  {
    if puts != [] {
      EncodedAligned(puts[1..]);
      Mod4Sum(|Encode(puts[0])|, |EncodeAll(puts[1..])|);
    }
  }

  /** The bytes s stand at position pos of buf. */
  predicate At(buf: seq<byte>, pos: nat, s: seq<byte>) {
    pos + |s| <= |buf| && buf[pos..pos + |s|] == s
  }

  lemma AtSplit(buf: seq<byte>, pos: nat, s: seq<byte>, t: seq<byte>)
    ensures At(buf, pos, s + t) <==> At(buf, pos, s) && At(buf, pos + |s|, t)
  {
    if At(buf, pos, s + t) {
      assert buf[pos..pos + |s|] == buf[pos..pos + |s + t|][..|s|];
      assert buf[pos + |s|..pos + |s| + |t|] == buf[pos..pos + |s + t|][|s|..];
    }
    if At(buf, pos, s) && At(buf, pos + |s|, t) {
      assert buf[pos..pos + |s + t|] == buf[pos..pos + |s|] + buf[pos + |s|..pos + |s| + |t|];
    }
  }

  lemma U16At(buf: seq<byte>, pos: nat, v: nat)
    requires v < 0x1_0000 && At(buf, pos, Le16(v))
    ensures U16(buf, pos) == v
  {
    U16Le16(v);
    assert buf[pos] == buf[pos..pos + 2][0] && buf[pos + 1] == buf[pos..pos + 2][1];
  }

  lemma HeaderAt(buf: seq<byte>, pos: nat, p: Put)
    requires PutOk(p) && At(buf, pos, Encode(p))
    ensures AttrAt(buf, pos) == Attr(pos, p.typ % TYPE_MASK, HDRLEN + |p.data|)
    ensures Payload(buf, AttrAt(buf, pos)) == p.data && At(buf, pos + HDRLEN, p.data)
  {
    var n := HDRLEN + |p.data|;
    var pad := Zeros(Align4(n) - n);
    AtSplit(buf, pos, Le16(n) + Le16(p.typ) + p.data, pad);
    AtSplit(buf, pos, Le16(n) + Le16(p.typ), p.data);
    AtSplit(buf, pos, Le16(n), Le16(p.typ));
    U16At(buf, pos, n);
    U16At(buf, pos + 2, p.typ);
  }

  /** What a walk over encoded attributes meets: each of them, in order, with its payload. */
  predicate Matches(buf: seq<byte>, attrs: seq<Attr>, puts: seq<Put>) {
    && |attrs| == |puts|
    && forall i :: 0 <= i < |puts| ==>
         && attrs[i].typ == puts[i].typ % TYPE_MASK && attrs[i].size == HDRLEN + |puts[i].data|
         && attrs[i].at + attrs[i].size <= |buf| && Payload(buf, attrs[i]) == puts[i].data
  }

  /** A walk over encoded attributes, and bytes behind them at which it ends. */
  lemma {:induction false} WalkEncoded(buf: seq<byte>, pos: nat, puts: seq<Put>, stop: nat, limit: nat)
    requires AllOk(puts) && At(buf, pos, EncodeAll(puts)) && stop == pos + |EncodeAll(puts)| <= limit <= |buf|
    requires !AttrOk(buf, stop, limit - stop)
    ensures Matches(buf, Walk(buf, pos, limit - pos), puts)
    decreases |puts|
  {
    if puts != [] {
      var next := pos + Align4(HDRLEN + |puts[0].data|);
      FirstEncoded(buf, pos, puts, next, stop);
      WalkEncoded(buf, next, puts[1..], stop, limit);
      WalkCons(buf, pos, limit, puts, next);
    }
  }

  lemma FirstEncoded(buf: seq<byte>, pos: nat, puts: seq<Put>, next: nat, stop: nat)
    requires AllOk(puts) && puts != [] && At(buf, pos, EncodeAll(puts)) && stop == pos + |EncodeAll(puts)|
    requires next == pos + Align4(HDRLEN + |puts[0].data|)
    ensures PutOk(puts[0]) && AllOk(puts[1..])
    ensures stop == next + |EncodeAll(puts[1..])| && At(buf, next, EncodeAll(puts[1..])) == true
    ensures AttrAt(buf, pos) == Attr(pos, puts[0].typ % TYPE_MASK, HDRLEN + |puts[0].data|)
    ensures Payload(buf, AttrAt(buf, pos)) == puts[0].data
  {
    FirstAt(buf, pos, puts[0], EncodeAll(puts), EncodeAll(puts[1..]));
  }

  lemma FirstAt(buf: seq<byte>, pos: nat, p: Put, whole: seq<byte>, rest: seq<byte>)
    requires PutOk(p) && whole == Encode(p) + rest && At(buf, pos, whole)
    ensures var n := Align4(HDRLEN + |p.data|); |whole| == n + |rest| && At(buf, pos + n, rest)
    ensures AttrAt(buf, pos) == Attr(pos, p.typ % TYPE_MASK, HDRLEN + |p.data|)
    ensures Payload(buf, AttrAt(buf, pos)) == p.data
  {
    AtParts(buf, pos, whole, Encode(p), rest);
    HeaderAt(buf, pos, p);
  }

  lemma AtParts(buf: seq<byte>, pos: nat, whole: seq<byte>, s: seq<byte>, t: seq<byte>)
    requires whole == s + t && At(buf, pos, whole)
    ensures |s| + |t| == |whole| && At(buf, pos, s) && At(buf, pos + |s|, t)
  {
    AtSplit(buf, pos, s, t);
  }

  lemma WalkFirst(buf: seq<byte>, pos: nat, limit: nat, next: nat)
    requires pos + HDRLEN <= limit <= |buf| && AttrAt(buf, pos).size >= HDRLEN
    requires next == pos + Align4(AttrAt(buf, pos).size) <= limit
    ensures Walk(buf, pos, limit - pos) == [AttrAt(buf, pos)] + Walk(buf, next, limit - next)
  {
  }

  lemma MatchesCons(buf: seq<byte>, a: Attr, attrs: seq<Attr>, puts: seq<Put>)
    requires puts != [] && a.typ == puts[0].typ % TYPE_MASK && HDRLEN <= a.size && a.at + a.size <= |buf|
    requires Payload(buf, a) == puts[0].data && Matches(buf, attrs, puts[1..])
    ensures Matches(buf, [a] + attrs, puts)
  {
  }

  lemma WalkCons(buf: seq<byte>, pos: nat, limit: nat, puts: seq<Put>, next: nat)
    requires puts != [] && PutOk(puts[0]) && next == pos + Align4(HDRLEN + |puts[0].data|) <= limit <= |buf|
    requires AttrAt(buf, pos) == Attr(pos, puts[0].typ % TYPE_MASK, HDRLEN + |puts[0].data|)
    requires Payload(buf, AttrAt(buf, pos)) == puts[0].data
    requires Matches(buf, Walk(buf, next, limit - next), puts[1..])
    ensures Matches(buf, Walk(buf, pos, limit - pos), puts)
  {
    WalkFirst(buf, pos, limit, next);
    MatchesCons(buf, AttrAt(buf, pos), Walk(buf, next, limit - next), puts);
  }

  /** The last payload put under a type. */
  function LastPut(puts: seq<Put>, typ: nat): Option<seq<byte>> {
    if puts == [] then None
    else if puts[|puts| - 1].typ % TYPE_MASK == typ then Some(puts[|puts| - 1].data)
    else LastPut(puts[..|puts| - 1], typ)
  }

  lemma {:induction false} LastMatches(buf: seq<byte>, attrs: seq<Attr>, puts: seq<Put>, typ: nat)
    requires Matches(buf, attrs, puts)
    ensures LastOf(attrs, typ).Some? <==> LastPut(puts, typ).Some?
    ensures LastOf(attrs, typ).Some? ==>
              var a := LastOf(attrs, typ).value;
              HDRLEN <= a.size && a.at + a.size <= |buf| && Payload(buf, a) == LastPut(puts, typ).value
  {
    if puts != [] { LastMatches(buf, attrs[..|attrs| - 1], puts[..|puts| - 1], typ); }
  }

  /** The attribute found has the payload expected, or neither is there. */
  ghost predicate Finds(buf: seq<byte>, a: Option<Attr>, p: Option<seq<byte>>) {
    && (a.Some? <==> p.Some?)
    && (a.Some? ==> HDRLEN <= a.value.size && a.value.at + a.value.size <= |buf| && Payload(buf, a.value) == p.value)
  }

  /** Parsing what was encoded gives, for every type, the last payload put under it. */
  lemma ParseEncoded(buf: seq<byte>, pos: nat, len: nat, puts: seq<Put>, typ: nat)
    requires AllOk(puts) && At(buf, pos, EncodeAll(puts)) && len == |EncodeAll(puts)|
    ensures Finds(buf, Table(buf, pos, len, typ), LastPut(puts, typ))
  {
    WalkEncoded(buf, pos, puts, pos + len, pos + len);
    LastMatches(buf, Walk(buf, pos, len), puts, typ);
  }

  lemma {:induction false} EncodeAppend(puts: seq<Put>, p: Put)
    requires AllOk(puts) && PutOk(p)
    ensures AllOk(puts + [p]) && EncodeAll(puts + [p]) == EncodeAll(puts) + Encode(p)
  {
    if puts == [] {
      assert [p][1..] == [];
    } else {
      EncodeAppend(puts[1..], p);
      assert (puts + [p])[1..] == puts[1..] + [p];
    }
  }

  // ----- The lengths of NlaBuilder::put, which are 16-bit numbers.

  function AttrLen16(datalen: nat): nat {
    (HDRLEN + datalen) % 0x1_0000
  }

  function Aligned16(datalen: nat): nat {
    Align4(AttrLen16(datalen)) % 0x1_0000
  }

  /** What becomes of a put: the attribute is stored, the buffer is too full for it and it is refused,
      or put takes it although its bytes do not end in the buffer. */
  datatype Outcome = Stored | Full | Outside

  function PutOutcome(len: nat, cap: nat, datalen: nat): Outcome {
    if len + Aligned16(datalen) > cap then Full
    else if len + HDRLEN + datalen > cap then Outside
    else Stored
  }

  lemma Aligned16Is(datalen: nat)
    requires datalen < 0x1_0000
    ensures Aligned16(datalen) ==
            if datalen <= MAX_PAYLOAD then Align4(HDRLEN + datalen) else if datalen <= 65532 then 0 else 4
    ensures Aligned16(datalen) % 4 == 0
  {
    if datalen <= MAX_PAYLOAD {
      assert AttrLen16(datalen) == HDRLEN + datalen;
      assert Align4(HDRLEN + datalen) < 0x1_0000;
    } else if datalen < 65532 {
      assert AttrLen16(datalen) == HDRLEN + datalen && Align4(HDRLEN + datalen) == 0x1_0000;
    } else {
      assert AttrLen16(datalen) == HDRLEN + datalen - 0x1_0000;
    }
  }

  /** The exact condition: put takes an attribute that does not end in the buffer if and only if its
      payload has more than 65528 bytes, so that the length it tests has wrapped to 0 or 4, and the
      buffer has room for that and not for the payload. */
  lemma PutOutsideExactly(len: nat, cap: nat, datalen: nat)
    requires datalen < 0x1_0000
    ensures PutOutcome(len, cap, datalen) == Outside <==>
            datalen > MAX_PAYLOAD && len + (if datalen <= 65532 then 0 else 4) <= cap < len + HDRLEN + datalen
    ensures datalen <= MAX_PAYLOAD ==>
              (PutOutcome(len, cap, datalen) == Stored <==> len + Align4(HDRLEN + datalen) <= cap)
  {
    Aligned16Is(datalen);
  }

  /** It does happen: 65529 bytes put first into a buffer of 256. */
  lemma PutOutsideAt()
    ensures PutOutcome(MSG_HDRLEN, 256, 65529) == Outside
    ensures MSG_HDRLEN + HDRLEN + 65529 > 256
  {
    PutOutsideExactly(MSG_HDRLEN, 256, 65529);
  }

  /** s with the bytes e written at a position. */
  function Splice(s: seq<byte>, at: nat, e: seq<byte>): (r: seq<byte>)
    requires at + |e| <= |s|
    ensures |r| == |s|
  {
    s[..at] + e + s[at + |e|..]
  }

  lemma SpliceOn(s: seq<byte>, at: nat, e: seq<byte>, f: seq<byte>)
    requires at + |e| + |f| <= |s|
    ensures Splice(Splice(s, at, e), at + |e|, f) == Splice(s, at, e + f)
  {
  }

  /** The buffer after the header of put is written. */
  function HeadWrites(s: seq<byte>, len: nat, attrLen: nat, typ: nat): (r: seq<byte>)
    requires typ < 0x1_0000 && attrLen < 0x1_0000 && len + HDRLEN <= |s|
    ensures |r| == |s|
  {
    Splice(Splice(s, len, Le16(attrLen)), len + 2, Le16(typ))
  }

  /** The buffer after an attribute is padded. */
  function Padded(s: seq<byte>, len: nat, attrLen: nat, aligned: nat): (r: seq<byte>)
    requires len + aligned <= |s|
    ensures |r| == |s|
  {
    if aligned > attrLen then Splice(s, len + attrLen, Zeros(aligned - attrLen)) else s
  }

  /** The buffer after all the writes of put, in their order. */
  function Writes(s: seq<byte>, len: nat, attrLen: nat, aligned: nat, typ: nat, data: seq<byte>): (r: seq<byte>)
    requires typ < 0x1_0000 && attrLen < 0x1_0000 && len + HDRLEN + |data| <= |s| && len + aligned <= |s|
    ensures |r| == |s|
  {
    Padded(Splice(HeadWrites(s, len, attrLen, typ), len + HDRLEN, data), len, attrLen, aligned)
  }

  function Written(s: seq<byte>, len: nat, typ: nat, data: seq<byte>): (r: seq<byte>)
    requires typ < 0x1_0000 && len + HDRLEN + |data| <= |s| && len + Aligned16(|data|) <= |s|
    ensures |r| == |s|
  {
    Writes(s, len, AttrLen16(|data|), Aligned16(|data|), typ, data)
  }

  lemma WrittenBehind(s: seq<byte>, len: nat, typ: nat, data: seq<byte>)
    requires typ < 0x1_0000 && len + HDRLEN + |data| <= |s| && len + Aligned16(|data|) <= |s|
    ensures Written(s, len, typ, data)[..len] == s[..len]
  {
    var attrLen, aligned := AttrLen16(|data|), Aligned16(|data|);
    var s1 := Splice(s, len, Le16(attrLen));
    var s2 := Splice(s1, len + 2, Le16(typ));
    SpliceBehind(s, len, Le16(attrLen), len);
    SpliceBehind(s1, len + 2, Le16(typ), len);
    SpliceBehind(s2, len + HDRLEN, data, len);
    if aligned > attrLen { SpliceBehind(Splice(s2, len + HDRLEN, data), len + attrLen, Zeros(aligned - attrLen), len); }
  }

  /** Up to 65528 bytes of payload, what put writes is the encoded attribute. */
  lemma WrittenIs(s: seq<byte>, len: nat, p: Put)
    requires PutOk(p) && len + |Encode(p)| <= |s|
    ensures len + Aligned16(|p.data|) <= |s| && Written(s, len, p.typ, p.data) == Splice(s, len, Encode(p))
  {
    Aligned16Is(|p.data|);
    var n := HDRLEN + |p.data|;
    assert AttrLen16(|p.data|) == n;
    SpliceOn(s, len, Le16(n), Le16(p.typ));
    SpliceOn(s, len, Le16(n) + Le16(p.typ), p.data);
    SpliceOn(s, len, Le16(n) + Le16(p.typ) + p.data, Zeros(Align4(n) - n));
    if Align4(n) == n { assert Encode(p) == Le16(n) + Le16(p.typ) + p.data; }
  }

  lemma SpliceBehind(s: seq<byte>, at: nat, e: seq<byte>, n: nat)
    requires at + |e| <= |s| && n <= at
    ensures Splice(s, at, e)[..n] == s[..n]
  {
  }

  /** The header of a request: NLM_F_REQUEST is set, and the port is left to the kernel. */
  function RequestHeader(len: nat, family: nat, seqno: nat, cmd: byte, version: byte): (s: seq<byte>)
    requires len < 0x1_0000_0000 && family < 0x1_0000 && seqno < 0x1_0000_0000
    ensures |s| == MSG_HDRLEN
  {
    Le32(len) + Le16(family) + Le16(1) + Le32(seqno) + Le32(0) + [cmd, version, 0, 0]
  }

  lemma U32At(buf: seq<byte>, pos: nat, v: nat)
    requires v < 0x1_0000_0000 && At(buf, pos, Le32(v))
    ensures U32(buf, pos) == v
  {
    AtSplit(buf, pos, Le16(v % 0x1_0000), Le16(v / 0x1_0000));
    U16At(buf, pos, v % 0x1_0000);
    U16At(buf, pos + 2, v / 0x1_0000);
  }

  /** What a receiver reads in the header, field by field: length, type, flags (NLM_F_REQUEST is 1),
      sequence number and port of struct nlmsghdr, command and version of struct genlmsghdr. */
  lemma HeaderReads(s: seq<byte>, len: nat, family: nat, seqno: nat, cmd: byte, version: byte)
    requires len < 0x1_0000_0000 && family < 0x1_0000 && seqno < 0x1_0000_0000 && MSG_HDRLEN <= |s|
    requires s[..MSG_HDRLEN] == RequestHeader(len, family, seqno, cmd, version)
    ensures U32(s, 0) == len && U16(s, 4) == family && U16(s, 6) == 1 && U32(s, 8) == seqno && U32(s, 12) == 0
    ensures s[16] == cmd && s[17] == version && U16(s, 18) == 0
  {
    var h := RequestHeader(len, family, seqno, cmd, version);
    assert s[0..4] == h[0..4] == Le32(len);
    U32At(s, 0, len);
    assert s[4..6] == h[4..6] == Le16(family);
    U16At(s, 4, family);
    assert s[6..8] == h[6..8] == Le16(1);
    U16At(s, 6, 1);
    assert s[8..12] == h[8..12] == Le32(seqno);
    U32At(s, 8, seqno);
    assert s[12..16] == h[12..16] == Le32(0);
    U32At(s, 12, 0);
    assert s[16..20] == h[16..20] == [cmd, version, 0, 0];
    assert s[18] == 0 && s[19] == 0;
  }

  /** The first len bytes are a message header and exactly these attributes. */
  ghost predicate HoldsAt(s: seq<byte>, len: nat, puts: seq<Put>) {
    MSG_HDRLEN <= len <= |s| && AllOk(puts) && s[MSG_HDRLEN..len] == EncodeAll(puts)
  }

  /** A parser of the first len bytes meets exactly these attributes. */
  ghost predicate ReadsAt(s: seq<byte>, len: nat, puts: seq<Put>) {
    MSG_HDRLEN <= len <= |s| && Matches(s, Walk(s, MSG_HDRLEN, len - MSG_HDRLEN), puts)
  }

  /** class NlaBuilder: a message under construction in a caller's buffer. */
  class NlaBuilder {
    const buf: array<byte>
    var len: nat

    ghost predicate Valid()
      reads this
    {
      MSG_HDRLEN <= len <= buf.Length && len % 4 == 0
    }

    /** The message has exactly these attributes. */
    ghost predicate Holds(puts: seq<Put>)
      reads this, buf
    {
      Valid() && HoldsAt(buf[..], len, puts)
    }

    /** A parser of the message meets exactly these attributes. */
    ghost predicate Reads(puts: seq<Put>)
      reads this, buf
    {
      Valid() && ReadsAt(buf[..], len, puts)
    }

    constructor (buf: array<byte>)
      requires MSG_HDRLEN <= buf.Length
      modifies buf
      ensures Holds([]) && this.buf == buf && len == MSG_HDRLEN
    {
      this.buf := buf;
      len := MSG_HDRLEN;
      forall i | 0 <= i < MSG_HDRLEN { buf[i] := 0; }
    }

    /** put, for every payload that its 16-bit length can have; `puts` are the attributes before. An
        attribute that does not fit is refused and nothing changes. One that is stored comes after
        the others if it has at most 65528 bytes. Above that a parser finds only the others: the
        message does not grow by it or, from 65533 bytes on, grows by a header at which every parser
        ends. Where put would write behind the buffer the model stops. */
    method PutAttr(typ: nat, data: seq<byte>, ghost puts: seq<Put>) returns (r: Outcome)
      requires Valid() && typ < 0x1_0000 && |data| < 0x1_0000
      modifies this, buf
      ensures Valid() && r == PutOutcome(old(len), buf.Length, |data|)
      ensures r.Stored? ==> len == old(len) + Aligned16(|data|) && buf[..old(len)] == old(buf[..len])
      ensures r.Stored? && old(Holds(puts)) && |data| <= MAX_PAYLOAD ==> Holds(puts + [Put(typ, data)])
      ensures r.Stored? && old(Holds(puts)) && MAX_PAYLOAD < |data| <= 65532 ==> Holds(puts)
      ensures r.Stored? && old(Holds(puts)) && MAX_PAYLOAD < |data| ==> Reads(puts)
      ensures r.Stored? && 65532 < |data| ==> U16(buf[..], old(len)) < HDRLEN
      ensures r.Full? ==> len == old(len) && buf[..] == old(buf[..])
    {
      var attrLen, aligned := AttrLen16(|data|), Aligned16(|data|);
      if len + aligned > buf.Length {
        return Full;
      }
      if len + HDRLEN + |data| > buf.Length {
        return Outside;
      }
      ghost var was := buf[..];
      Store(typ, data, attrLen, aligned);
      Stores(was, buf[..], len, puts, typ, data);
      len := len + aligned;
      return Stored;
    }

    /** The writes of put: length, type, payload and padding. */
    method Store(typ: nat, data: seq<byte>, attrLen: nat, aligned: nat)
      requires typ < 0x1_0000 && attrLen < 0x1_0000
      requires len + HDRLEN + |data| <= buf.Length && len + aligned <= buf.Length
      modifies buf
      ensures buf[..] == Writes(old(buf[..]), len, attrLen, aligned, typ, data)
    {
      StoreHead(typ, attrLen);
      Write(len + HDRLEN, data);
      Pad(attrLen, aligned);
    }

    method Pad(attrLen: nat, aligned: nat)
      requires len + aligned <= buf.Length
      modifies buf
      ensures buf[..] == Padded(old(buf[..]), len, attrLen, aligned)
    {
      if aligned > attrLen {
        Write(len + attrLen, Zeros(aligned - attrLen));
      }
    }

    method StoreHead(typ: nat, attrLen: nat)
      requires typ < 0x1_0000 && attrLen < 0x1_0000 && len + HDRLEN <= buf.Length
      modifies buf
      ensures buf[..] == HeadWrites(old(buf[..]), len, attrLen, typ)
    {
      Write(len, Le16(attrLen));
      Write(len + 2, Le16(typ));
    }

    /** putGenlHeader: the length stays open until finish. */
    method PutGenlHeader(family: nat, seqno: nat, cmd: byte, version: byte)
      requires Valid() && family < 0x1_0000 && seqno < 0x1_0000_0000
      modifies buf
      ensures buf[..MSG_HDRLEN] == RequestHeader(0, family, seqno, cmd, version)
      ensures U32(buf[..], 0) == 0 && U16(buf[..], 4) == family && U16(buf[..], 6) == 1
      ensures U32(buf[..], 8) == seqno && U32(buf[..], 12) == 0 && buf[16] == cmd && buf[17] == version
      ensures buf[MSG_HDRLEN..] == old(buf[MSG_HDRLEN..])
    {
      var h := RequestHeader(0, family, seqno, cmd, version);
      forall i | 0 <= i < MSG_HDRLEN { buf[i] := h[i]; }
      HeaderReads(buf[..], 0, family, seqno, cmd, version);
    }

    /** finish. */
    method Finish() returns (size: nat)
      requires Valid() && len < 0x1_0000_0000
      modifies buf
      ensures size == len
      ensures buf[..] == Le32(len) + old(buf[..])[4..]
    {
      var h := Le32(len);
      forall i | 0 <= i < 4 { buf[i] := h[i]; }
      size := len;
    }

    method Write(at: nat, e: seq<byte>)
      requires at + |e| <= buf.Length
      modifies buf
      ensures buf[..] == Splice(old(buf[..]), at, e)
    {
      forall i | 0 <= i < |e| { buf[at + i] := e[i]; }
    }
  }

  /** The attributes in the buffer before and after the writes of put. */
  lemma Stores(was: seq<byte>, now: seq<byte>, len: nat, puts: seq<Put>, typ: nat, data: seq<byte>)
    requires typ < 0x1_0000 && |data| < 0x1_0000 && MSG_HDRLEN <= len && len % 4 == 0
    requires len + HDRLEN + |data| <= |was| && len + Aligned16(|data|) <= |was| && now == Written(was, len, typ, data)
    ensures (len + Aligned16(|data|)) % 4 == 0 && now[..len] == was[..len]
    ensures HoldsAt(was, len, puts) && |data| <= MAX_PAYLOAD ==>
              HoldsAt(now, len + Aligned16(|data|), puts + [Put(typ, data)])
    ensures HoldsAt(was, len, puts) && MAX_PAYLOAD < |data| ==>
              && ReadsAt(now, len + Aligned16(|data|), puts)
              && (|data| <= 65532 ==> HoldsAt(now, len + Aligned16(|data|), puts))
    ensures 65532 < |data| ==> U16(now, len) < HDRLEN
  {
    WrittenBehind(was, len, typ, data);
    AlignedSum(len, |data|);
    if |data| <= MAX_PAYLOAD {
      if HoldsAt(was, len, puts) { Extended(was, len, puts, Put(typ, data)); }
    } else {
      StoresShort(was, len, typ, data);
      if HoldsAt(was, len, puts) { Lost(was, now, len, puts, Aligned16(|data|)); }
    }
  }

  lemma AlignedSum(len: nat, datalen: nat)
    requires len % 4 == 0 && datalen < 0x1_0000
    ensures (len + Aligned16(datalen)) % 4 == 0
    ensures datalen <= MAX_PAYLOAD ==> Aligned16(datalen) == Align4(HDRLEN + datalen)
  {
    Aligned16Is(datalen);
    Mod4Sum(len, Aligned16(datalen));
  }

  lemma StoresShort(s: seq<byte>, len: nat, typ: nat, data: seq<byte>)
    requires typ < 0x1_0000 && MAX_PAYLOAD < |data| < 0x1_0000
    requires len + HDRLEN + |data| <= |s| && len + Aligned16(|data|) <= |s|
    ensures if |data| <= 65532 then Aligned16(|data|) == 0
            else Aligned16(|data|) == HDRLEN && U16(Written(s, len, typ, data), len) < HDRLEN
  {
    Aligned16Is(|data|);
    if 65532 < |data| { ShortHeader(s, len, typ, data); }
  }

  /** Behind the attributes comes nothing, or a header at which a parser ends. */
  lemma Lost(was: seq<byte>, now: seq<byte>, len: nat, puts: seq<Put>, aligned: nat)
    requires HoldsAt(was, len, puts) && len + aligned <= |now| && now[..len] == was[..len]
    requires aligned == 0 || (aligned == HDRLEN && U16(now, len) < HDRLEN)
    ensures HoldsAt(now, len, puts) && ReadsAt(now, len + aligned, puts)
  {
    assert now[MSG_HDRLEN..len] == now[..len][MSG_HDRLEN..] && was[MSG_HDRLEN..len] == was[..len][MSG_HDRLEN..];
    WalkEncoded(now, MSG_HDRLEN, puts, len, len + aligned);
  }

  /** From 65533 bytes on the length in the header has wrapped to 1, 2 or 3. */
  lemma ShortHeader(s: seq<byte>, len: nat, typ: nat, data: seq<byte>)
    requires typ < 0x1_0000 && 65532 < |data| < 0x1_0000
    requires len + HDRLEN + |data| <= |s| && len + Aligned16(|data|) <= |s|
    ensures U16(Written(s, len, typ, data), len) == |data| - 65532
  {
    Aligned16Is(|data|);
    var attrLen := AttrLen16(|data|);
    assert attrLen == |data| - 65532 && Le16(attrLen) == [attrLen, 0];
    var s1 := Splice(s, len, Le16(attrLen));
    assert s1[len] == attrLen && s1[len + 1] == 0;
    var s2 := Splice(s1, len + 2, Le16(typ));
    assert s2[len] == attrLen && s2[len + 1] == 0;
    var s3 := Splice(s2, len + HDRLEN, data);
    assert s3[len] == attrLen && s3[len + 1] == 0;
    var s4 := Splice(s3, len + attrLen, Zeros(4 - attrLen));
    assert s4[len] == attrLen && s4[len + 1] == 0;
  }

  lemma Extended(was: seq<byte>, len: nat, puts: seq<Put>, p: Put)
    requires HoldsAt(was, len, puts) && PutOk(p) && len + |Encode(p)| <= |was|
    ensures len + Aligned16(|p.data|) <= |was|
    ensures HoldsAt(Written(was, len, p.typ, p.data), len + Aligned16(|p.data|), puts + [p])
  {
    Aligned16Is(|p.data|);
    WrittenIs(was, len, p);
    EncodeAppend(puts, p);
    Spliced(was, len, Encode(p));
  }

  lemma Spliced(was: seq<byte>, len: nat, e: seq<byte>)
    requires MSG_HDRLEN <= len && len + |e| <= |was|
    ensures Splice(was, len, e)[MSG_HDRLEN..len + |e|] == was[MSG_HDRLEN..len] + e
  {
  }

  /** Parsing what was built: under every type the last payload put successfully, and nothing under
      a type that was not put. */
  lemma BuiltParses(b: NlaBuilder, puts: seq<Put>, typ: nat)
    requires b.Holds(puts)
    ensures ParsesTo(b.buf[..], b.len, puts, typ)
  {
    HeldParses(b.buf[..], b.len, puts, typ);
  }

  /** What a parser of the first len bytes finds under a type is the last payload put under it. */
  ghost predicate ParsesTo(s: seq<byte>, len: nat, puts: seq<Put>, typ: nat)
    requires MSG_HDRLEN <= len <= |s|
  {
    var a, p := Table(s, MSG_HDRLEN, len - MSG_HDRLEN, typ), LastPut(puts, typ);
    && (a.Some? <==> p.Some?)
    && (a.Some? ==> && HDRLEN <= a.value.size && a.value.at + a.value.size <= len && Payload(s, a.value) == p.value)
  }

  lemma HeldParses(s: seq<byte>, len: nat, puts: seq<Put>, typ: nat)
    requires HoldsAt(s, len, puts)
    ensures ParsesTo(s, len, puts, typ)
  {
    ParseEncoded(s, MSG_HDRLEN, len - MSG_HDRLEN, puts, typ);
    WalkInside(s, MSG_HDRLEN, len - MSG_HDRLEN);
  }
}
