/** A rule on its way from the client's addFreeAsync and delFreeAsync through a request message to
    the kernel's rule table. */
module RuleRequest {
  import opened Base
  import opened NlAttr
  import R = RuleTable
  import C = EventCodec

  const A_STRATEGY := 41
  const A_NAME := 42
  const A_CODE := 43
  const NLM_F_REQUEST := 1
  const C_ADD := 4
  const C_DEL := 5
  const REQUEST_BUF := 256

  /** The bytes of a name as the characters the rule table compares. */
  function Text(name: seq<byte>): (s: string)
    ensures |s| == |name|
  {
    seq(|name|, i requires 0 <= i < |name| => name[i] as char)
  }

  /** The length that putString passes on: that of the name with its NUL, as a 16-bit number. */
  function NameLen(name: seq<byte>): nat {
    (|name| + 1) % 0x1_0000
  }

  /** The bytes of the name that are put: all of them with the NUL, unless the length has wrapped. */
  function Cut(name: seq<byte>): (s: seq<byte>)
    ensures |s| == NameLen(name)
  {
    (name + [0])[..NameLen(name)]
  }

  function NamePut(name: seq<byte>): Put {
    Put(A_NAME, Cut(name))
  }

  function CodePut(code: s32): Put {
    Put(A_CODE, Le32(Bits(code)))
  }

  function StrategyPut(strategy: s32): Put {
    Put(A_STRATEGY, [strategy % 256])
  }

  /** The attributes of a request. Only one to add a rule has a strategy. */
  function RulePuts(name: seq<byte>, code: s32, strategy: Option<s32>): seq<Put> {
    if strategy.None? then [NamePut(name), CodePut(code)]
    else [NamePut(name), CodePut(code), StrategyPut(strategy.value)]
  }

  // ----- The client.

  /** A request of these attributes. */
  ghost predicate IsRequest(msg: seq<byte>, family: nat, seqno: nat, cmd: byte, puts: seq<Put>)
    requires family < 0x1_0000 && seqno < 0x1_0000_0000
  {
    && AllOk(puts) && |msg| < 0x1_0000_0000
    && msg == RequestHeader(|msg|, family, seqno, cmd, C.VERSION) + EncodeAll(puts)
  }

  /** The client's own conditions for asking at all. */
  predicate Askable(connected: bool, family: nat, name: seq<byte>, code: s32) {
    family != 0 && connected && code >= -1 && name != []
  }

  /** What becomes of a call of the client up to the send: a request is ready, the call returns
      false, or the put of the name has left the request buffer. */
  datatype Attempt = Ready(msg: seq<byte>) | Declined | Overrun

  lemma FinishedHeader(len: nat, family: nat, seqno: nat, cmd: byte)
    requires len < 0x1_0000_0000 && family < 0x1_0000 && seqno < 0x1_0000_0000
    ensures Le32(len) + RequestHeader(0, family, seqno, cmd, C.VERSION)[4..]
            == RequestHeader(len, family, seqno, cmd, C.VERSION)
  {
    var rest := Le16(family) + Le16(1) + Le32(seqno) + Le32(0) + [cmd, C.VERSION, 0, 0];
    assert RequestHeader(0, family, seqno, cmd, C.VERSION) == Le32(0) + rest;
    assert RequestHeader(len, family, seqno, cmd, C.VERSION) == Le32(len) + rest;
  }

  /** The end of both calls: the finished bytes. */
  method Finished(b: NlaBuilder, family: nat, seqno: nat, cmd: byte, ghost puts: seq<Put>) returns (msg: seq<byte>)
    requires b.Holds(puts) && family < 0x1_0000 && seqno < 0x1_0000_0000 && b.buf.Length == REQUEST_BUF
    requires b.buf[..MSG_HDRLEN] == RequestHeader(0, family, seqno, cmd, C.VERSION)
    modifies b.buf
    ensures IsRequest(msg, family, seqno, cmd, puts)
  {
    ghost var was := b.buf[..];
    var n := b.Finish();
    msg := b.buf[..n];
    FinishedHeader(n, family, seqno, cmd);
    assert msg == Le32(n) + was[..MSG_HDRLEN][4..] + was[MSG_HDRLEN..n];
  }

  /** The put of the name, for every name: it leaves the request buffer if and only if the 16-bit
      length of the name is above 65528. */
  lemma NameOutsideExactly(name: seq<byte>)
    ensures PutOutcome(MSG_HDRLEN, REQUEST_BUF, NameLen(name)) == Outside <==> NameLen(name) > MAX_PAYLOAD
    ensures PutOutcome(MSG_HDRLEN, REQUEST_BUF, NameLen(name)) == Stored <==> NameLen(name) <= 232
  {
    PutOutsideExactly(MSG_HDRLEN, REQUEST_BUF, NameLen(name));
    Aligned16Is(NameLen(name));
  }

  /** Both ways a long name goes wrong: one of 65528 bytes leaves the buffer, and of one of 65539
      bytes the first four are put. */
  lemma LongNames(name: seq<byte>)
    ensures |name| == 65528 ==> PutOutcome(MSG_HDRLEN, REQUEST_BUF, NameLen(name)) == Outside
    ensures |name| == 65539 ==>
              PutOutcome(MSG_HDRLEN, REQUEST_BUF, NameLen(name)) == Stored && Cut(name) == name[..4]
  {
    NameOutsideExactly(name);
    if |name| == 65539 { assert NameLen(name) == 4 && (name + [0])[..4] == name[..4]; }
  }

  /** What both calls put first: header, name and code. */
  method Begun(family: nat, seqno: nat, cmd: byte, name: seq<byte>, code: s32) returns (b: NlaBuilder, r: Outcome)
    requires family < 0x1_0000 && seqno < 0x1_0000_0000
    ensures fresh(b) && fresh(b.buf) && b.buf.Length == REQUEST_BUF
    ensures r == Outside <==> NameLen(name) > MAX_PAYLOAD
    ensures r == Stored <==> NameLen(name) <= 224
    ensures r == Stored ==>
              b.Holds(RulePuts(name, code, None)) && b.len == MSG_HDRLEN + Align4(HDRLEN + NameLen(name)) + 8
    ensures r == Stored ==> b.buf[..MSG_HDRLEN] == RequestHeader(0, family, seqno, cmd, C.VERSION)
  {
    b := Headed(family, seqno, cmd);
    r := PutName(b, name);
    if r == Stored {
      r := PutSmall(b, CodePut(code), [NamePut(name)]);
      assert [NamePut(name)] + [CodePut(code)] == RulePuts(name, code, None);
    }
  }

  /** An empty request. */
  method Headed(family: nat, seqno: nat, cmd: byte) returns (b: NlaBuilder)
    requires family < 0x1_0000 && seqno < 0x1_0000_0000
    ensures fresh(b) && fresh(b.buf) && b.buf.Length == REQUEST_BUF && b.Holds([]) && b.len == MSG_HDRLEN
    ensures b.buf[..MSG_HDRLEN] == RequestHeader(0, family, seqno, cmd, C.VERSION)
  {
    var buf := new byte[REQUEST_BUF](_ => 0);
    b := new NlaBuilder(buf);
    b.PutGenlHeader(family, seqno, cmd, C.VERSION);
  }

  /** The put of the name into an empty request. */
  method PutName(b: NlaBuilder, name: seq<byte>) returns (r: Outcome)
    requires b.Holds([]) && b.len == MSG_HDRLEN && b.buf.Length == REQUEST_BUF
    modifies b, b.buf
    ensures r == Outside <==> NameLen(name) > MAX_PAYLOAD
    ensures r == Stored <==> NameLen(name) <= 232
    ensures r == Stored ==> b.Holds([NamePut(name)]) && b.len == MSG_HDRLEN + Align4(HDRLEN + NameLen(name))
    ensures r == Stored ==> b.buf[..MSG_HDRLEN] == old(b.buf[..MSG_HDRLEN])
  {
    NameOutsideExactly(name);
    r := b.PutAttr(A_NAME, Cut(name), []);
    if r == Stored {
      Aligned16Is(NameLen(name));
      assert [] + [NamePut(name)] == [NamePut(name)];
    }
  }

  /** The put of a number: it fits or is refused. */
  method PutSmall(b: NlaBuilder, p: Put, ghost puts: seq<Put>) returns (r: Outcome)
    requires b.Holds(puts) && p.typ < 0x1_0000 && |p.data| <= 4
    modifies b, b.buf
    ensures r == if old(b.len) + Align4(HDRLEN + |p.data|) <= b.buf.Length then Stored else Full
    ensures r == Stored ==> b.Holds(puts + [p]) && b.len == old(b.len) + Align4(HDRLEN + |p.data|)
    ensures r == Stored ==> b.buf[..MSG_HDRLEN] == old(b.buf[..MSG_HDRLEN])
  {
    ghost var was, n := b.buf[..], b.len;
    PutOutsideExactly(b.len, b.buf.Length, |p.data|);
    Aligned16Is(|p.data|);
    r := b.PutAttr(p.typ, p.data, puts);
    if r == Stored {
      assert b.buf[..MSG_HDRLEN] == b.buf[..n][..MSG_HDRLEN] && was[..MSG_HDRLEN] == was[..n][..MSG_HDRLEN];
    }
  }

  /** addFreeAsync up to the send, for every name. */
  method AddRequest(connected: bool, family: nat, seqno: nat, name: seq<byte>, code: s32, strategy: s32)
    returns (r: Attempt)
    requires family < 0x1_0000 && seqno < 0x1_0000_0000
    ensures r.Overrun? <==> Askable(connected, family, name, code) && NameLen(name) > MAX_PAYLOAD
    ensures r.Ready? <==> Askable(connected, family, name, code) && NameLen(name) <= 216
    ensures r.Ready? ==> IsRequest(r.msg, family, seqno, C_ADD, RulePuts(name, code, Some(strategy)))
  {
    if family == 0 || !connected || code < -1 || name == [] {
      return Declined;
    }
    var b, put := Begun(family, seqno, C_ADD, name, code);
    if put == Outside {
      return Overrun;
    }
    if put == Stored {
      put := PutSmall(b, StrategyPut(strategy), RulePuts(name, code, None));
    }
    if put != Stored {
      return Declined;
    }
    assert RulePuts(name, code, None) + [StrategyPut(strategy)] == RulePuts(name, code, Some(strategy));
    var m := Finished(b, family, seqno, C_ADD, RulePuts(name, code, Some(strategy)));
    return Ready(m);
  }

  /** delFreeAsync up to the send, for every name. */
  method DelRequest(connected: bool, family: nat, seqno: nat, name: seq<byte>, code: s32) returns (r: Attempt)
    requires family < 0x1_0000 && seqno < 0x1_0000_0000
    ensures r.Overrun? <==> Askable(connected, family, name, code) && NameLen(name) > MAX_PAYLOAD
    ensures r.Ready? <==> Askable(connected, family, name, code) && NameLen(name) <= 224
    ensures r.Ready? ==> IsRequest(r.msg, family, seqno, C_DEL, RulePuts(name, code, None))
  {
    if family == 0 || !connected || code < -1 || name == [] {
      return Declined;
    }
    var b, put := Begun(family, seqno, C_DEL, name, code);
    if put == Outside {
      return Overrun;
    }
    if put != Stored {
      return Declined;
    }
    var m := Finished(b, family, seqno, C_DEL, RulePuts(name, code, None));
    return Ready(m);
  }

  // ----- The kernel.

  /** The policy of the name: a NUL-terminated string of at most 139 characters. */
  predicate NamePolicy(p: seq<byte>) {
    && p != [] && (exists i :: 0 <= i < Min(|p|, NAME_BUF) && p[i] == 0)
    && (if p[|p| - 1] == 0 then |p| - 1 else |p|) < NAME_BUF
  }

  datatype Rule = Rule(name: string, code: int, strategy: Option<int>)

  /** An attribute's payload, when the request has it. */
  function Arg(msg: seq<byte>, typ: nat): (r: Option<seq<byte>>)
    requires MSG_HDRLEN <= |msg|
  {
    WalkInside(msg, MSG_HDRLEN, |msg| - MSG_HDRLEN);
    var a := Table(msg, MSG_HDRLEN, |msg| - MSG_HDRLEN, typ);
    if a.None? then None else Some(Payload(msg, a.value))
  }

  /** What the handlers take from a request that the policy lets through. */
  function RuleOf(msg: seq<byte>): Option<Rule>
    requires MSG_HDRLEN <= |msg|
  {
    var name, code, strategy := Arg(msg, A_NAME), Arg(msg, A_CODE), Arg(msg, A_STRATEGY);
    if name.None? || !NamePolicy(name.value) || code.None? || |code.value| != 4 then None
    else if strategy.Some? && |strategy.value| != 1 then None
    else
      var number := if strategy.None? then None else Some(strategy.value[0]);
      Some(Rule(Text(C.CBytes(name.value)), AsS32(U32(code.value, 0)), number))
  }

  /** Adding the rule of a request: done exactly when it has one that is valid and memory is found. */
  predicate Adds(r: Option<Rule>, allocOk: bool, was: R.Rules, now: R.Rules, err: R.Error) {
    && (err == R.Ok <==>
          && r.Some? && r.value.strategy.Some?
          && 0 < |r.value.name| < NAME_BUF && r.value.code >= -1 && r.value.strategy.value in {SKIP, BY_CODE, BY_DATA}
          && (R.Key(r.value.name, r.value.code) in was || allocOk))
    && now == if err == R.Ok then was[R.Key(r.value.name, r.value.code) := r.value.strategy.value] else was
  }

  /** Deleting the rule of a request. */
  predicate Deletes(r: Option<Rule>, was: R.Rules, now: R.Rules, err: R.Error) {
    && (err == R.Ok <==> r.Some? && r.value.name != "" && r.value.code >= -1)
    && now == if err == R.Ok then was - {R.Key(r.value.name, r.value.code)} else was
  }

  /** rkx_genl_add_free_async behind the policy. */
  method GenlAdd(table: R.FreeAsyncTable, msg: seq<byte>, allocOk: bool) returns (err: R.Error)
    requires table.Valid() && MSG_HDRLEN <= |msg|
    modifies table, table.buckets
    ensures table.Valid() && Adds(RuleOf(msg), allocOk, old(table.Contents()), table.Contents(), err)
  {
    var r := RuleOf(msg);
    if r.None? || r.value.strategy.None? {
      return R.Einval;
    }
    err := table.Add(Some(r.value.name), r.value.code, r.value.strategy.value, allocOk);
  }

  /** rkx_genl_del_free_async behind the policy. */
  method GenlDel(table: R.FreeAsyncTable, msg: seq<byte>) returns (err: R.Error)
    requires table.Valid() && MSG_HDRLEN <= |msg|
    modifies table, table.buckets
    ensures table.Valid() && Deletes(RuleOf(msg), old(table.Contents()), table.Contents(), err)
  {
    var r := RuleOf(msg);
    if r.None? {
      return R.Einval;
    }
    err := table.Del(Some(r.value.name), r.value.code);
  }

  /** A whole request to this family lies in the received bytes. */
  predicate Addressed(msg: seq<byte>, family: nat) {
    && MSG_HDRLEN <= |msg| && MSG_HDRLEN <= U32(msg, 0) <= |msg|
    && U16(msg, 6) % 2 == NLM_F_REQUEST && U16(msg, 4) == family && C.GENL_MIN_ID <= family
  }

  /** The generic netlink core with the module's table of operations: a request is handed to the
      handler of its command, and a message to another family, without the request flag, or with
      another command touches no rule. */
  method Dispatch(table: R.FreeAsyncTable, family: nat, msg: seq<byte>, allocOk: bool) returns (err: Option<R.Error>)
    requires table.Valid()
    modifies table, table.buckets
    ensures table.Valid()
    ensures err.Some? <==> Addressed(msg, family) && (msg[16] == C_ADD || msg[16] == C_DEL)
    ensures err.Some? && msg[16] == C_ADD ==>
              Adds(RuleOf(msg[..U32(msg, 0)]), allocOk, old(table.Contents()), table.Contents(), err.value)
    ensures err.Some? && msg[16] == C_DEL ==>
              Deletes(RuleOf(msg[..U32(msg, 0)]), old(table.Contents()), table.Contents(), err.value)
    ensures err.None? ==> table.Contents() == old(table.Contents())
  {
    if |msg| < MSG_HDRLEN || U32(msg, 0) < MSG_HDRLEN || U32(msg, 0) > |msg| {
      return None;
    }
    if U16(msg, 6) % 2 != NLM_F_REQUEST || U16(msg, 4) < C.GENL_MIN_ID || U16(msg, 4) != family {
      return None;
    }
    var request := msg[..U32(msg, 0)];
    if msg[16] == C_ADD {
      var e := GenlAdd(table, request, allocOk);
      return Some(e);
    }
    if msg[16] == C_DEL {
      var e := GenlDel(table, request);
      return Some(e);
    }
    return None;
  }

  /** What the kernel reads in the header of the client's request: its own length, the family, the
      request flag, the sequence number and the command. */
  lemma RequestReads(msg: seq<byte>, family: nat, seqno: nat, cmd: byte, puts: seq<Put>)
    requires family < 0x1_0000 && seqno < 0x1_0000_0000 && IsRequest(msg, family, seqno, cmd, puts)
    ensures U32(msg, 0) == |msg| && U16(msg, 4) == family && U16(msg, 6) == NLM_F_REQUEST && U32(msg, 8) == seqno
    ensures msg[16] == cmd && msg[17] == C.VERSION && msg[..U32(msg, 0)] == msg
    ensures Addressed(msg, family) <==> C.GENL_MIN_ID <= family
  {
    HeaderReads(msg, |msg|, family, seqno, cmd, C.VERSION);
  }

  // ----- From one to the other.

  /** The policy lets through what was put of a name exactly when a rule can hold the name: what is
      left of a name whose length has wrapped has no NUL. */
  lemma PolicyIsTheBound(name: seq<byte>)
    requires C.NoNul(name)
    ensures NamePolicy(Cut(name)) <==> |name| < NAME_BUF
    ensures |name| < NAME_BUF ==> Cut(name) == name + [0]
  {
    var p := Cut(name);
    if |name| < NAME_BUF {
      assert p == name + [0] && p[|name|] == 0;
    } else if |name| < 0xFFFF {
      assert p == name + [0];
    } else {
      assert forall i :: 0 <= i < |p| ==> p[i] == name[i];
    }
  }

  lemma ArgOf(msg: seq<byte>, family: nat, seqno: nat, cmd: byte, puts: seq<Put>, typ: nat)
    requires family < 0x1_0000 && seqno < 0x1_0000_0000 && IsRequest(msg, family, seqno, cmd, puts)
    ensures Arg(msg, typ) == LastPut(puts, typ)
  {
    assert msg[MSG_HDRLEN..MSG_HDRLEN + |EncodeAll(puts)|] == EncodeAll(puts);
    ParseEncoded(msg, MSG_HDRLEN, |msg| - MSG_HDRLEN, puts, typ);
  }

  /** What the client put is what the handler takes, if the name fits; else the request is refused,
      also when only a part of the name was put. */
  lemma RequestMeans(msg: seq<byte>, family: nat, seqno: nat, cmd: byte, name: seq<byte>, code: s32,
                     strategy: Option<s32>)
    requires family < 0x1_0000 && seqno < 0x1_0000_0000 && C.NoNul(name)
    requires IsRequest(msg, family, seqno, cmd, RulePuts(name, code, strategy))
    ensures RuleOf(msg) ==
            if |name| >= NAME_BUF then None
            else Some(Rule(Text(name), code, if strategy.None? then None else Some(strategy.value % 256)))
  {
    var puts := RulePuts(name, code, strategy);
    ArgOf(msg, family, seqno, cmd, puts, A_NAME);
    ArgOf(msg, family, seqno, cmd, puts, A_CODE);
    ArgOf(msg, family, seqno, cmd, puts, A_STRATEGY);
    Looked(name, code, strategy, A_NAME);
    Looked(name, code, strategy, A_CODE);
    Looked(name, code, strategy, A_STRATEGY);
    PolicyIsTheBound(name);
    if |name| < NAME_BUF { C.CBytesOf(name); }
    U32Le32(Bits(code));
  }

  lemma LastAppend(puts: seq<Put>, p: Put, typ: nat)
    ensures LastPut(puts + [p], typ) == if p.typ % TYPE_MASK == typ then Some(p.data) else LastPut(puts, typ)
  {
    assert (puts + [p])[..|puts|] == puts;
  }

  lemma Looked(name: seq<byte>, code: s32, strategy: Option<s32>, typ: nat)
    ensures LastPut(RulePuts(name, code, strategy), typ) ==
            if typ == A_STRATEGY && strategy.Some? then Some([strategy.value % 256])
            else if typ == A_CODE then Some(Le32(Bits(code)))
            else if typ == A_NAME then Some(Cut(name)) else None
  {
    LastAppend([], NamePut(name), typ);
    LastAppend([NamePut(name)], CodePut(code), typ);
    assert [] + [NamePut(name)] == [NamePut(name)];
    assert [NamePut(name)] + [CodePut(code)] == RulePuts(name, code, None);
    if strategy.Some? {
      LastAppend(RulePuts(name, code, None), StrategyPut(strategy.value), typ);
      assert RulePuts(name, code, None) + [StrategyPut(strategy.value)] == RulePuts(name, code, strategy);
    }
  }

  /** addFreeAsync with a kernel whose module is registered under some family, for every name: the
      rule is in the table afterwards exactly when the client asked that family, the name fits, the
      strategy is one of the three modulo 256 and memory was found; a part of a longer name never
      gets there. */
  method AddFreeAsync(table: R.FreeAsyncTable, connected: bool, family: nat, seqno: nat, name: seq<byte>, code: s32,
                      strategy: s32, registered: nat, allocOk: bool)
    returns (r: Attempt)
    requires table.Valid() && family < 0x1_0000 && seqno < 0x1_0000_0000 && C.NoNul(name)
    modifies table, table.buckets
    ensures var asks := family != 0 && connected && code >= -1 && name != [];
            && (r.Overrun? <==> asks && NameLen(name) > MAX_PAYLOAD) && (r.Ready? <==> asks && NameLen(name) <= 216)
    ensures table.Valid()
    ensures r.Declined? ==> table.Contents() == old(table.Contents())
    ensures var k := R.Key(Text(name), code);
            var fits := |name| < NAME_BUF && strategy % 256 in {SKIP, BY_CODE, BY_DATA};
            var reached := family == registered && registered >= C.GENL_MIN_ID;
            var added := reached && fits && (k in old(table.Contents()) || allocOk);
            && (r.Ready? && added ==> table.Contents() == old(table.Contents())[k := strategy % 256])
            && (r.Ready? && !added ==> table.Contents() == old(table.Contents()))
  {
    r := AddRequest(connected, family, seqno, name, code, strategy);
    if r.Ready? {
      RequestMeans(r.msg, family, seqno, C_ADD, name, code, Some(strategy));
      RequestReads(r.msg, family, seqno, C_ADD, RulePuts(name, code, Some(strategy)));
      var err := Dispatch(table, registered, r.msg, allocOk);
    }
  }

  /** delFreeAsync, for every name: afterwards the rule is not in the table, if the client asked the
      module's family and the name could be one of a rule at all, and no other rule is touched. */
  method DelFreeAsync(table: R.FreeAsyncTable, connected: bool, family: nat, seqno: nat, name: seq<byte>, code: s32,
                      registered: nat)
    returns (r: Attempt)
    requires table.Valid() && family < 0x1_0000 && seqno < 0x1_0000_0000 && C.NoNul(name)
    modifies table, table.buckets
    ensures var asks := family != 0 && connected && code >= -1 && name != [];
            && (r.Overrun? <==> asks && NameLen(name) > MAX_PAYLOAD) && (r.Ready? <==> asks && NameLen(name) <= 224)
    ensures table.Valid()
    ensures r.Declined? ==> table.Contents() == old(table.Contents())
    ensures var deleted := family == registered && registered >= C.GENL_MIN_ID && |name| < NAME_BUF;
            && (r.Ready? && deleted ==> table.Contents() == old(table.Contents()) - {R.Key(Text(name), code)})
            && (r.Ready? && !deleted ==> table.Contents() == old(table.Contents()))
  {
    r := DelRequest(connected, family, seqno, name, code);
    if r.Ready? {
      RequestMeans(r.msg, family, seqno, C_DEL, name, code, None);
      RequestReads(r.msg, family, seqno, C_DEL, RulePuts(name, code, None));
      var err := Dispatch(table, registered, r.msg, true);
    }
  }
}
