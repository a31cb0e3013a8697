/** Reading the interface name out of a parcel: the probe's parser and the trace hook's. */
module InterfaceToken {
  import opened Base
  import opened RuleTable
  import opened BinderAlloc

  const PARCEL_OFFSET := 16
  const MAX_TOKEN := 62

  /** A character array up to its first NUL. */
  function CString(s: seq<char>): string {
    if s == [] || s[0] == '\0' then [] else [s[0]] + CString(s[1..])
  }

  /** There is a whole 16-bit unit number k of the name, and its low byte is not NUL. */
  predicate HasUnit(hdr: seq<byte>, k: nat) {
    PARCEL_OFFSET + 1 + 2 * k < |hdr| && hdr[PARCEL_OFFSET + 2 * k] != 0
  }

  function Unit(hdr: seq<byte>, k: nat): char
    requires HasUnit(hdr, k)
  {
    hdr[PARCEL_OFFSET + 2 * k] as char
  }

  /** The name in the copied head of a parcel: every second byte from offset 16 on, up to a NUL or
      to the last whole 16-bit unit. */
  function Token(hdr: seq<byte>, i: nat): string
    decreases |hdr| - 2 * i
  {
    if HasUnit(hdr, i) then [Unit(hdr, i)] + Token(hdr, i + 1) else []
  }

  /** Token(hdr, i) has exactly n characters, and which. */
  lemma {:induction false} TokenIs(hdr: seq<byte>, i: nat, n: nat)
    requires (forall k :: i <= k < i + n ==> HasUnit(hdr, k)) && !HasUnit(hdr, i + n)
    ensures |Token(hdr, i)| == n && forall k :: i <= k < i + n ==> Token(hdr, i)[k - i] == Unit(hdr, k)
    decreases n
  {
    if n > 0 {
      assert HasUnit(hdr, i);
      TokenIs(hdr, i + 1, n - 1);
      forall k | i <= k < i + n ensures Token(hdr, i)[k - i] == Unit(hdr, k) {
        if k > i { assert Token(hdr, i)[k - i] == Token(hdr, i + 1)[k - (i + 1)]; }
      }
    }
  }

  lemma {:induction false} TokenBound(hdr: seq<byte>, i: nat)
    requires |hdr| <= NAME_BUF
    ensures |Token(hdr, i)| <= Max(0, MAX_TOKEN - i)
    ensures forall k :: 0 <= k < |Token(hdr, i)| ==> Token(hdr, i)[k] != '\0'
    decreases |hdr| - 2 * i
  {
    if HasUnit(hdr, i) {
      UnitLimit(hdr, i);
      TokenBound(hdr, i + 1);
      var t, rest := Token(hdr, i), Token(hdr, i + 1);
      forall k | 0 <= k < |t| ensures t[k] != '\0' {
        assert t[k] == if k == 0 then Unit(hdr, i) else rest[k - 1];
      }
    }
  }

  /** Of 140 bytes, no more than 62 units are copied whole. */
  lemma UnitLimit(hdr: seq<byte>, k: nat)
    requires |hdr| <= NAME_BUF && HasUnit(hdr, k)
    ensures k < MAX_TOKEN && Unit(hdr, k) != '\0'
  {
    assert Unit(hdr, k) as int == hdr[PARCEL_OFFSET + 2 * k];
  }

  lemma {:induction false} CStringOf(s: seq<char>, name: string)
    requires |name| < |s| && s[..|name|] == name && s[|name|] == '\0' && forall k :: 0 <= k < |name| ==> name[k] != '\0'
    ensures CString(s) == name
  {
    if name != [] {
      CStringOf(s[1..], name[1..]);
      assert name == [name[0]] + name[1..];
    }
  }

  /** The head of the parcel in buffer i that the probe copies. */
  function Head(a: Alloc, i: nat): (s: seq<byte>)
    requires Valid(a) && i < |a.buffers| && Min(a.buffers[i].dataSize, NAME_BUF) <= BufferSize(a, i)
    ensures |s| <= NAME_BUF
  {
    BufferBytes(a, i, 0, Min(a.buffers[i].dataSize, NAME_BUF))
  }

  /** The name the probe sees in buffer i, "" when there is none. */
  function TokenOf(a: Alloc, i: nat): string
    requires Valid(a) && i < |a.buffers|
  {
    var n := Min(a.buffers[i].dataSize, NAME_BUF);
    if a.buffers[i].dataSize > PARCEL_OFFSET && Accepts(a, i, 0, n) then Token(Head(a, i), 0) else ""
  }

  /** rkx_parse_interface_token into a name buffer of the size the probe uses. */
  method ParseInterfaceToken(a: Alloc, i: nat, rpcName: array<char>) returns (ok: bool)
    requires Valid(a) && i < |a.buffers| && rpcName.Length == NAME_BUF
    modifies rpcName
    ensures CString(rpcName[..]) == TokenOf(a, i)
    ensures ok <==> TokenOf(a, i) != ""
  {
    rpcName[0] := '\0';
    if a.buffers[i].dataSize <= PARCEL_OFFSET {
      return false;
    }
    var copySize := Min(a.buffers[i].dataSize, NAME_BUF);
    var hdr := new byte[NAME_BUF](_ => 0);
    var copied := CopyFromBuffer(a, hdr, i, 0, copySize);
    if !copied {
      return false;
    }
    ok := ScanToken(hdr[..copySize], rpcName);
  }

  /** The loop of rkx_parse_interface_token over the bytes it copied. */
  method ScanToken(head: seq<byte>, rpcName: array<char>) returns (ok: bool)
    requires |head| <= NAME_BUF && rpcName.Length == NAME_BUF
    modifies rpcName
    ensures CString(rpcName[..]) == Token(head, 0)
    ensures ok <==> Token(head, 0) != ""
  {
    var n: nat, j, p := 0, PARCEL_OFFSET + 1, PARCEL_OFFSET;
    while n + 1 < NAME_BUF && j < |head| && head[p] != 0
      invariant n < NAME_BUF && j == PARCEL_OFFSET + 1 + 2 * n && p == PARCEL_OFFSET + 2 * n
      invariant ReadTo(head, rpcName[..], n)
    {
      assert HasUnit(head, n);
      rpcName[n] := head[p] as char;
      n := n + 1;
      j := j + 2;
      p := p + 2;
    }
    TokenBound(head, 0);
    ReadFits(head, rpcName[..], n);
    rpcName[n] := '\0';
    TokenRead(head, rpcName[..], n);
    return n > 0;
  }

  /** The first n units have been read into the name buffer. */
  ghost predicate ReadTo(head: seq<byte>, name: seq<char>, n: nat) {
    n <= |name| && forall k :: 0 <= k < n ==> HasUnit(head, k) && name[k] == Unit(head, k)
  }

  /** No more than 62 units can be read, so the name buffer is never full. */
  lemma ReadFits(head: seq<byte>, name: seq<char>, n: nat)
    requires |head| <= NAME_BUF && ReadTo(head, name, n)
    ensures n <= MAX_TOKEN
  {
    if n > 0 { UnitLimit(head, n - 1); }
  }

  /** A terminated name buffer that holds all units holds the token. */
  lemma TokenRead(head: seq<byte>, name: seq<char>, n: nat)
    requires |head| <= NAME_BUF && n < |name| && name[n] == '\0' && ReadTo(head, name, n) && !HasUnit(head, n)
    ensures CString(name) == Token(head, 0) && |Token(head, 0)| == n
  {
    TokenIs(head, 0, n);
    TokenBound(head, 0);
    assert name[..n] == Token(head, 0) by {
      forall k | 0 <= k < n ensures name[k] == Token(head, 0)[k] {
        assert Token(head, 0)[k] == Unit(head, k);
      }
    }
    CStringOf(name, Token(head, 0));
  }

  /** The loop of rkx_binder_trans_vh over the bytes it copied from user space, into a name
      buffer that starts zeroed. */
  method TransName(buf: seq<byte>, rpcName: array<char>)
    requires |buf| <= NAME_BUF && rpcName.Length == NAME_BUF && forall k :: 0 <= k < NAME_BUF ==> rpcName[k] == '\0'
    modifies rpcName
    ensures CString(rpcName[..]) == if |buf| > PARCEL_OFFSET then Token(buf, 0) else ""
  {
    if |buf| > PARCEL_OFFSET {
      var n: nat, j, p := 0, PARCEL_OFFSET + 1, PARCEL_OFFSET;
      while n < NAME_BUF && j < |buf| && buf[p] != 0
        invariant n <= NAME_BUF && j == PARCEL_OFFSET + 1 + 2 * n && p == PARCEL_OFFSET + 2 * n
        invariant ReadTo(buf, rpcName[..], n)
        invariant forall k :: n <= k < NAME_BUF ==> rpcName[k] == '\0'
      {
        assert HasUnit(buf, n);
        rpcName[n] := buf[p] as char;
        n := n + 1;
        j := j + 2;
        p := p + 2;
      }
      ReadFits(buf, rpcName[..], n);
      assert n < NAME_BUF;  // the guard for a full name buffer never fires
      TokenRead(buf, rpcName[..], n);
    }
  }

  // ----- What writeInterfaceToken puts there comes out again, up to 62 characters.

  /** A name of ASCII characters without NUL, as UTF-16LE. */
  function Utf16(name: string): (s: seq<byte>)
    requires forall k :: 0 <= k < |name| ==> 0 < name[k] as int < 128
    ensures |s| == 2 * |name|
    ensures forall k :: 0 <= k < |name| ==> s[2 * k] == name[k] as int
  {
    if name == "" then [] else [name[0] as int, 0] + Utf16(name[1..])
  }

  lemma TokenRoundTrip(header: seq<byte>, name: string, rest: seq<byte>)
    requires |header| == PARCEL_OFFSET && forall k :: 0 <= k < |name| ==> 0 < name[k] as int < 128
    ensures var parcel := header + Utf16(name) + [0, 0] + rest;
            Token(parcel[..Min(|parcel|, NAME_BUF)], 0) == name[..Min(|name|, MAX_TOKEN)]
  {
    var parcel := header + Utf16(name) + [0, 0] + rest;
    var hdr, n := parcel[..Min(|parcel|, NAME_BUF)], Min(|name|, MAX_TOKEN);
    forall k: nat | 0 <= k < n ensures HasUnit(hdr, k) && Unit(hdr, k) == name[k] {
      assert hdr[PARCEL_OFFSET + 2 * k] == parcel[PARCEL_OFFSET + 2 * k] == Utf16(name)[2 * k] == name[k] as int;
    }
    if |name| <= MAX_TOKEN { EndsHere(header, name, rest); }
    assert !HasUnit(hdr, n);
    TokenIs(hdr, 0, n);
    forall k | 0 <= k < n ensures Token(hdr, 0)[k] == name[k] {
      assert Token(hdr, 0)[k] == Unit(hdr, k);
    }
  }

  lemma EndsHere(header: seq<byte>, name: string, rest: seq<byte>)
    requires |header| == PARCEL_OFFSET && forall k :: 0 <= k < |name| ==> 0 < name[k] as int < 128
    ensures (header + Utf16(name) + [0, 0] + rest)[PARCEL_OFFSET + 2 * |name|] == 0
  {
  }

  /** Buffer i is live, holds all of its data, and the data is a parcel that begins with this name. */
  predicate HoldsParcel(a: Alloc, i: nat, header: seq<byte>, name: string, rest: seq<byte>)
    requires Valid(a) && i < |a.buffers|
  {
    && (forall k :: 0 <= k < |name| ==> 0 < name[k] as int < 128)
    && |header| == PARCEL_OFFSET && Live(a.buffers[i]) && a.buffers[i].dataSize <= BufferSize(a, i)
    && Data(a, i) == header + Utf16(name) + [0, 0] + rest
  }

  lemma HeadOfData(a: Alloc, i: nat)
    requires Valid(a) && i < |a.buffers| && a.buffers[i].dataSize <= BufferSize(a, i)
    ensures Head(a, i) == Data(a, i)[..Min(|Data(a, i)|, NAME_BUF)]
  {
  }

  /** The probe sees no name exactly when the buffer is not live or has not even the bytes to be
      copied, or when the data ends before the first whole character or that one is a NUL. */
  lemma NamelessExactly(a: Alloc, i: nat)
    requires Valid(a) && i < |a.buffers|
    ensures var n := Min(a.buffers[i].dataSize, NAME_BUF);
            TokenOf(a, i) == "" <==>
              || a.buffers[i].dataSize < PARCEL_OFFSET + 2 || n > BufferSize(a, i)
              || a.buffers[i].free || (a.buffers[i].allowUserFree && a.buffers[i].transaction)
              || BufferBytes(a, i, 0, n)[PARCEL_OFFSET] == 0
  {
  }

  /** In every buffer that holds a parcel, of whatever length, the probe sees the first 62 characters
      of its interface name. */
  lemma TokenOfParcel(a: Alloc, i: nat, header: seq<byte>, name: string, rest: seq<byte>)
    requires Valid(a) && i < |a.buffers| && HoldsParcel(a, i, header, name, rest)
    ensures TokenOf(a, i) == name[..Min(|name|, MAX_TOKEN)]
  {
    HeadOfData(a, i);
    TokenRoundTrip(header, name, rest);
  }

  /** A rule whose name is longer than 62 characters is selected by no transaction. */
  lemma LongNamesAreNeverSelected(rules: Rules, a: Alloc, i: nat, code: int)
    requires Valid(a) && i < |a.buffers|
    ensures var short := map k | k in rules && |k.name| <= MAX_TOKEN :: rules[k];
            Select(rules, TokenOf(a, i), code) == Select(short, TokenOf(a, i), code)
  {
    if a.buffers[i].dataSize > PARCEL_OFFSET && Accepts(a, i, 0, Min(a.buffers[i].dataSize, NAME_BUF)) {
      TokenBound(Head(a, i), 0);
    }
  }
}
