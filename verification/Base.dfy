/** Small vocabulary shared by all modules. */
module Base {

  datatype Option<+T> = None | Some(value: T)

  type byte = i: int | 0 <= i < 256

  /** A 32-bit pattern read as a signed number, and back. */
  function AsS32(v: int): int {
    if v >= 0x8000_0000 then v - 0x1_0000_0000 else v
  }

  type u32 = v: int | 0 <= v < 0x1_0000_0000
  type s32 = v: int | -0x8000_0000 <= v < 0x8000_0000

  function Bits(v: int): (b: nat)
    requires -0x8000_0000 <= v < 0x1_0000_0000
    ensures b < 0x1_0000_0000 && AsS32(b) == AsS32(v)
  {
    if v < 0 then v + 0x1_0000_0000 else v
  }

  const NAME_BUF := 140        // RKX_INTERFACETOKEN_BUFF_SIZE

  // enum rkx_free_async_strategy
  const SKIP := 1
  const BY_CODE := 2
  const BY_DATA := 3

  /** Rounds up to the next multiple of four, as NLA_ALIGN and NLMSG_ALIGN do. */
  function Align4(n: nat): (r: nat)
    ensures n <= r < n + 4 && r % 4 == 0
  {
    if n % 4 == 0 then n else n + (4 - n % 4)
  }

  lemma Aligned(n: nat)
    requires n % 4 == 0
    ensures Align4(n) == n
  {
  }

  lemma Mod4Sum(a: nat, b: nat)
    requires a % 4 == 0 && b % 4 == 0
    ensures (a + b) % 4 == 0
  {
  }

  function Max(a: int, b: int): int {
    if a < b then b else a
  }

  function Min(a: int, b: int): int {
    if a < b then a else b
  }

  lemma RemoveKey<K, V>(m: map<K, V>, k: K)
    requires k in m
    ensures |m - {k}| == |m| - 1
  {
    assert (m - {k}).Keys == m.Keys - {k};
  }

  lemma SubsetSize<T>(a: set<T>, b: set<T>)
    requires a <= b
    ensures |a| <= |b|
  {
    assert b == a + (b - a);
  }

  /** The list with the element at index i taken out. */
  function Without<T>(s: seq<T>, i: nat): (r: seq<T>)
    requires i < |s|
    ensures |r| == |s| - 1
    ensures forall j :: 0 <= j < i ==> r[j] == s[j]
    ensures forall j :: i <= j < |r| ==> r[j] == s[j + 1]
  {
    s[..i] + s[i + 1..]
  }
}
