/** The paged copy out of a binder buffer and the chunked comparison built on it. */
module BinderAlloc {
  import opened Base

  const CHUNK := 64

  /** struct binder_buffer as the allocator sees it; addresses are those of user space. */
  datatype BufRec = BufRec(userData: nat, dataSize: nat, free: bool, allowUserFree: bool, transaction: bool)

  /** struct binder_alloc: the mapped space, cut into pages of `pageSize` bytes and, in list
      order, into buffers. */
  datatype Alloc = Alloc(pageSize: nat, base: nat, size: nat, pages: seq<seq<byte>>, buffers: seq<BufRec>)

  predicate Paged(pages: seq<seq<byte>>, pageSize: nat) {
    forall i :: 0 <= i < |pages| ==> |pages[i]| == pageSize
  }

  /** The flat view of the pages, one after the other. */
  function Flat(pages: seq<seq<byte>>): seq<byte> {
    if pages == [] then [] else pages[0] + Flat(pages[1..])
  }

  /** The buffers partition the mapped space, and the pages cover it. */
  predicate Valid(a: Alloc) {
    && a.pageSize > 0 && a.pageSize % 4 == 0
    && Paged(a.pages, a.pageSize) && a.size <= |Flat(a.pages)|
    && (a.buffers != [] ==> a.buffers[0].userData == a.base)
    && (forall i :: 0 <= i < |a.buffers| ==> Inside(a, i))
  }

  predicate Inside(a: Alloc, i: nat)
    requires i < |a.buffers|
  {
    a.base <= a.buffers[i].userData <= EndOf(a, i) <= a.base + a.size
  }

  /** Where buffer i ends: at the next buffer, or at the end of the space. */
  function EndOf(a: Alloc, i: nat): nat
    requires i < |a.buffers|
  {
    if i == |a.buffers| - 1 then a.base + a.size else a.buffers[i + 1].userData
  }

  /** Buffers do not overlap: each ends where the next one begins, at the latest. */
  lemma {:induction false} BuffersDisjoint(a: Alloc, i: nat, j: nat)
    requires Valid(a) && i < j < |a.buffers|
    ensures EndOf(a, i) <= a.buffers[j].userData
    decreases j
  {
    assert Inside(a, j - 1);
    if i + 1 < j { BuffersDisjoint(a, i, j - 1); }
  }

  /** rk_binder_alloc_buffer_size. */
  function BufferSize(a: Alloc, i: nat): (n: nat)
    requires Valid(a) && i < |a.buffers|
    ensures a.base <= a.buffers[i].userData && a.buffers[i].userData + n == EndOf(a, i) <= a.base + a.size
  {
    assert Inside(a, i);
    if i == |a.buffers| - 1 then a.base + a.size - a.buffers[i].userData
    else a.buffers[i + 1].userData - a.buffers[i].userData
  }

  predicate Live(b: BufRec) {
    !b.free && (!b.allowUserFree || !b.transaction)
  }

  /** rk_check_buffer. */
  predicate Accepts(a: Alloc, i: nat, offset: nat, bytes: nat)
    requires Valid(a) && i < |a.buffers|
  {
    && BufferSize(a, i) >= bytes
    && offset <= BufferSize(a, i) - bytes
    && offset % 4 == 0
    && Live(a.buffers[i])
  }

  /** Bytes [offset, offset + bytes) of buffer i, all of them before the next buffer. */
  function BufferBytes(a: Alloc, i: nat, offset: nat, bytes: nat): (s: seq<byte>)
    requires Valid(a) && i < |a.buffers| && offset + bytes <= BufferSize(a, i)
    ensures |s| == bytes
  {
    var start := a.buffers[i].userData - a.base + offset;
    Flat(a.pages)[start..start + bytes]
  }

  /** The recorded data of buffer i, when it fits. */
  function Data(a: Alloc, i: nat): (s: seq<byte>)
    requires Valid(a) && i < |a.buffers| && a.buffers[i].dataSize <= BufferSize(a, i)
    ensures |s| == a.buffers[i].dataSize
  {
    BufferBytes(a, i, 0, a.buffers[i].dataSize)
  }

  lemma Below(x: nat, p: nat)
    requires x < p
    ensures x / p == 0 && x % p == x
  {
  }

  lemma OnePageOn(x: nat, p: nat)
    requires 0 < p <= x
    ensures x / p == (x - p) / p + 1 && x % p == (x - p) % p
  {
    var q, r := (x - p) / p, (x - p) % p;
    assert x == p * (q + 1) + r by { assert p * (q + 1) == p * q + p; }
    DivModUnique(x, p, q + 1, r);
  }

  lemma DivModUnique(n: nat, p: nat, q: nat, r: nat)
    requires p > 0 && n == p * q + r && r < p
    ensures n / p == q && n % p == r
  {
    var q', r' := n / p, n % p;
    assert p * q' + r' == p * q + r;
    MulGap(p, q', q);
    MulGap(p, q, q');
  }

  lemma {:induction false} MulGap(p: nat, a: nat, b: nat)
    ensures a < b ==> p * a + p <= p * b
  {
    if a + 1 < b { MulGap(p, a, b - 1); }
  }

  /** From any offset to the end of its page, the page is a run of the flat space. */
  lemma {:induction false} PageRun(pages: seq<seq<byte>>, p: nat, x: nat)
    requires p > 0 && Paged(pages, p) && x < |Flat(pages)|
    ensures x / p < |pages| && x % p < p == |pages[x / p]| && x + (p - x % p) <= |Flat(pages)|
    ensures pages[x / p][x % p..] == Flat(pages)[x..x + (p - x % p)]
  {
    if x < p {
      Below(x, p);
    } else {
      OnePageOn(x, p);
      PageRun(pages[1..], p, x - p);
    }
  }

  method Locate(pages: seq<seq<byte>>, pageSize: nat, x: nat) returns (page: seq<byte>, pgoff: nat)
    requires pageSize > 0 && Paged(pages, pageSize) && x < |Flat(pages)|
    ensures pgoff < |page| == pageSize
    ensures x + (pageSize - pgoff) <= |Flat(pages)| && page[pgoff..] == Flat(pages)[x..x + (pageSize - pgoff)]
  {
    PageRun(pages, pageSize, x);
    page, pgoff := pages[x / pageSize], x % pageSize;
  }

  /** rk_binder_alloc_get_page: the page holding a byte of buffer i, and that byte's place in it. */
  method GetPage(a: Alloc, i: nat, offset: nat) returns (page: seq<byte>, pgoff: nat)
    requires Valid(a) && i < |a.buffers| && offset < BufferSize(a, i)
    ensures pgoff < |page| == a.pageSize
    ensures var x := a.buffers[i].userData - a.base + offset;
            x + (|page| - pgoff) <= |Flat(a.pages)| && page[pgoff..] == Flat(a.pages)[x..x + (|page| - pgoff)]
  {
    page, pgoff := Locate(a.pages, a.pageSize, a.buffers[i].userData - a.base + offset);
  }

  lemma RunOf(flat: seq<byte>, start: nat, want: seq<byte>, done: nat, size: nat, run: seq<byte>)
    requires start + |want| <= |flat| && forall k :: 0 <= k < |want| ==> want[k] == flat[start + k]
    requires done + size <= |want| && size <= |run|
    requires start + done + |run| <= |flat| && run == flat[start + done..start + done + |run|]
    ensures forall k :: done <= k < done + size ==> want[k] == run[k - done]
  {
  }

  /** The first bytes are those wanted, the others are as before. */
  predicate Copied(now: seq<byte>, want: seq<byte>, rest: seq<byte>, done: nat) {
    && done <= |want| <= |rest| == |now|
    && forall k :: 0 <= k < |now| ==> now[k] == if k < done then want[k] else rest[k]
  }

  lemma CopiedEnds(now: seq<byte>, want: seq<byte>, rest: seq<byte>)
    requires |want| <= |rest|
    ensures Copied(rest, want, rest, 0)
    ensures Copied(now, want, rest, 0) ==> now == rest
    ensures Copied(now, want, rest, |want|) ==> now == want + rest[|want|..]
  {
  }

  /** Only the size bytes from `to` on are different, and they are those of the page. */
  predicate Placed(was: seq<byte>, now: seq<byte>, to: nat, page: seq<byte>, pgoff: nat, size: nat) {
    && pgoff + size <= |page| && to + size <= |was| == |now|
    && forall k :: 0 <= k < |now| ==> now[k] == if to <= k < to + size then page[pgoff + (k - to)] else was[k]
  }

  lemma CopyStep(was: seq<byte>, now: seq<byte>, want: seq<byte>, rest: seq<byte>, done: nat, page: seq<byte>,
                 pgoff: nat, size: nat)
    requires Copied(was, want, rest, done) && Placed(was, now, done, page, pgoff, size) && done + size <= |want|
    requires forall k :: done <= k < done + size ==> want[k] == page[pgoff..][k - done]
    ensures Copied(now, want, rest, done + size)
  {
  }

  /** The bytes of buffer i from offset on, one by one. */
  predicate Wanted(a: Alloc, i: nat, offset: nat, want: seq<byte>)
    requires Valid(a) && i < |a.buffers|
  {
    && offset + |want| <= BufferSize(a, i)
    && forall k :: 0 <= k < |want| ==> want[k] == Flat(a.pages)[a.buffers[i].userData - a.base + offset + k]
  }

  lemma WantedIs(a: Alloc, i: nat, offset: nat, want: seq<byte>)
    requires Valid(a) && i < |a.buffers| && offset + |want| <= BufferSize(a, i)
    ensures Wanted(a, i, offset, want) <==> want == BufferBytes(a, i, offset, |want|)
  {
    if Wanted(a, i, offset, want) {
      var s := BufferBytes(a, i, offset, |want|);
      assert forall k :: 0 <= k < |want| ==> want[k] == s[k];
    }
  }

  /** The copy of what one page holds of the bytes wanted. */
  method CopyPage(a: Alloc, i: nat, offset: nat, dest: array<byte>, bytes: nat, done: nat, ghost want: seq<byte>,
                  ghost rest: seq<byte>)
    returns (size: nat)
    requires Valid(a) && i < |a.buffers| && Wanted(a, i, offset, want) && |want| == bytes
    requires done < bytes <= dest.Length && Copied(dest[..], want, rest, done)
    modifies dest
    ensures 0 < size <= bytes - done
    ensures Copied(dest[..], want, rest, done + size)
  {
    ghost var was := dest[..];
    var page, pgoff := GetPage(a, i, offset + done);
    size := Min(bytes - done, a.pageSize - pgoff);
    MemcpyFromPage(dest, done, page, pgoff, size);
    RunOf(Flat(a.pages), a.buffers[i].userData - a.base + offset, want, done, size, page[pgoff..]);
    CopyStep(was, dest[..], want, rest, done, page, pgoff, size);
  }

  /** The loop over the pages; into a buffer it copies none. */
  method CopyPages(a: Alloc, toBuffer: bool, i: nat, offset: nat, dest: array<byte>, bytes: nat, ghost want: seq<byte>)
    returns (ok: bool)
    requires Valid(a) && i < |a.buffers| && Wanted(a, i, offset, want) && |want| == bytes <= dest.Length
    modifies dest
    ensures ok <==> (toBuffer ==> bytes == 0)
    ensures Copied(dest[..], want, old(dest[..]), if ok then bytes else 0)
  {
    ghost var rest := dest[..];
    var left, done := bytes, 0;
    CopiedEnds(rest, want, rest);
    while left > 0
      invariant 0 <= left && 0 <= done && left + done == bytes && (toBuffer ==> done == 0)
      invariant Copied(dest[..], want, rest, done)
    {
      if toBuffer {
        return false;
      }
      var size := CopyPage(a, i, offset, dest, bytes, done, want, rest);
      left := left - size;
      done := done + size;
    }
    return true;
  }

  /** rk_binder_alloc_do_buffer_copy. A copy from the buffer is refused exactly when the check
      refuses it, and otherwise brings exactly the requested bytes of that buffer; only pages of
      the space are read. Nothing is ever copied into a buffer. */
  method DoBufferCopy(a: Alloc, toBuffer: bool, i: nat, offset: nat, dest: array<byte>, bytes: nat) returns (ok: bool)
    requires Valid(a) && i < |a.buffers| && bytes <= dest.Length
    modifies dest
    ensures ok <==> Accepts(a, i, offset, bytes) && (toBuffer ==> bytes == 0)
    ensures var b := a.buffers[i];
            Accepts(a, i, offset, bytes) <==>
              b.userData + offset + bytes <= EndOf(a, i) && offset % 4 == 0 && !b.free
              && !(b.allowUserFree && b.transaction)
    ensures ok ==> dest[..] == BufferBytes(a, i, offset, bytes) + old(dest[..])[bytes..]
    ensures !ok ==> dest[..] == old(dest[..])
  {
    if !Accepts(a, i, offset, bytes) {
      return false;
    }
    ghost var rest, want := dest[..], BufferBytes(a, i, offset, bytes);
    WantedIs(a, i, offset, want);
    ok := CopyPages(a, toBuffer, i, offset, dest, bytes, want);
    CopiedEnds(dest[..], want, rest);
  }

  /** rk_memcpy_from_page. */
  method MemcpyFromPage(dest: array<byte>, to: nat, page: seq<byte>, pgoff: nat, size: nat)
    requires pgoff + size <= |page| && to + size <= dest.Length
    modifies dest
    ensures Placed(old(dest[..]), dest[..], to, page, pgoff, size)
  {
    forall j | 0 <= j < size {
      dest[to + j] := page[pgoff + j];
    }
  }

  /** rk_binder_alloc_copy_from_buffer. */
  method CopyFromBuffer(a: Alloc, dest: array<byte>, i: nat, offset: nat, bytes: nat) returns (ok: bool)
    requires Valid(a) && i < |a.buffers| && bytes <= dest.Length
    modifies dest
    ensures ok <==> Accepts(a, i, offset, bytes)
    ensures ok ==> dest[..bytes] == BufferBytes(a, i, offset, bytes)
  {
    ok := DoBufferCopy(a, false, i, offset, dest, bytes);
  }

  // ----- Comparison in chunks of 64 bytes.

  /** What comparing two buffers comes to: equal sizes and, unless both are empty, two live
      buffers that hold their recorded data, with the same bytes. */
  predicate DataEqual(a: Alloc, i: nat, j: nat)
    requires Valid(a) && i < |a.buffers| && j < |a.buffers|
  {
    var n := a.buffers[i].dataSize;
    && n == a.buffers[j].dataSize
    && (n == 0 || (&& Live(a.buffers[i]) && n <= BufferSize(a, i)
                   && Live(a.buffers[j]) && n <= BufferSize(a, j)
                   && Data(a, i) == Data(a, j)))
  }

  lemma ChunkOf(a: Alloc, i: nat, pos: nat, chunk: nat)
    requires Valid(a) && i < |a.buffers| && a.buffers[i].dataSize <= BufferSize(a, i)
             && pos + chunk <= a.buffers[i].dataSize
    ensures BufferBytes(a, i, pos, chunk) == Data(a, i)[pos..pos + chunk]
  {
    SliceOfSlice(Flat(a.pages), a.buffers[i].userData - a.base, a.buffers[i].dataSize, pos, chunk);
  }

  lemma SliceOfSlice(s: seq<byte>, start: nat, size: nat, pos: nat, chunk: nat)
    requires start + size <= |s| && pos + chunk <= size
    ensures s[start + pos..start + pos + chunk] == s[start..start + size][pos..pos + chunk]
  {
    var l, r := s[start + pos..start + pos + chunk], s[start..start + size][pos..pos + chunk];
    forall x | 0 <= x < chunk ensures l[x] == r[x] {
      assert s[start..start + size][pos + x] == s[start + pos + x];
    }
  }

  /** The first pos bytes could be copied from both buffers and agree. */
  predicate AgreeUpTo(a: Alloc, i: nat, j: nat, pos: nat)
    requires Valid(a) && i < |a.buffers| && j < |a.buffers|
  {
    pos > 0 ==>
      && Live(a.buffers[i]) && pos <= BufferSize(a, i) && Live(a.buffers[j]) && pos <= BufferSize(a, j)
      && BufferBytes(a, i, 0, pos) == BufferBytes(a, j, 0, pos)
  }

  /** Both chunks can be copied, and are the same. */
  predicate SameChunks(a: Alloc, i: nat, j: nat, pos: nat, chunk: nat)
    requires Valid(a) && i < |a.buffers| && j < |a.buffers|
  {
    && Accepts(a, i, pos, chunk) && Accepts(a, j, pos, chunk)
    && BufferBytes(a, i, pos, chunk) == BufferBytes(a, j, pos, chunk)
  }

  lemma ChunkAgrees(a: Alloc, i: nat, j: nat, pos: nat, chunk: nat)
    requires Valid(a) && i < |a.buffers| && j < |a.buffers| && AgreeUpTo(a, i, j, pos)
             && SameChunks(a, i, j, pos, chunk)
    ensures AgreeUpTo(a, i, j, pos + chunk)
  {
    Appended(a, i, pos, chunk);
    Appended(a, j, pos, chunk);
  }

  lemma ChunkDiffers(a: Alloc, i: nat, j: nat, pos: nat, chunk: nat)
    requires Valid(a) && i < |a.buffers| && j < |a.buffers| && pos % 4 == 0 && !SameChunks(a, i, j, pos, chunk)
    requires a.buffers[i].dataSize == a.buffers[j].dataSize && chunk > 0 && pos + chunk <= a.buffers[i].dataSize
    ensures !DataEqual(a, i, j)
  {
    if DataEqual(a, i, j) {
      ChunkOf(a, i, pos, chunk);
      ChunkOf(a, j, pos, chunk);
    }
  }

  lemma Appended(a: Alloc, i: nat, pos: nat, chunk: nat)
    requires Valid(a) && i < |a.buffers| && pos + chunk <= BufferSize(a, i)
    ensures BufferBytes(a, i, 0, pos + chunk) == BufferBytes(a, i, 0, pos) + BufferBytes(a, i, pos, chunk)
  {
  }

  lemma AgreeAll(a: Alloc, i: nat, j: nat)
    requires Valid(a) && i < |a.buffers| && j < |a.buffers| && a.buffers[i].dataSize == a.buffers[j].dataSize
    requires AgreeUpTo(a, i, j, a.buffers[i].dataSize)
    ensures DataEqual(a, i, j)
  {
  }

  lemma FourDivides(k: int)
    ensures (CHUNK * k) % 4 == 0
  {
  }

  lemma ChunkDecides(a: Alloc, i: nat, j: nat, pos: nat, chunk: nat, k: int)
    requires Valid(a) && i < |a.buffers| && j < |a.buffers| && a.buffers[i].dataSize == a.buffers[j].dataSize
    requires AgreeUpTo(a, i, j, pos) && pos == CHUNK * k && chunk > 0 && pos + chunk <= a.buffers[i].dataSize
    ensures if SameChunks(a, i, j, pos, chunk) then AgreeUpTo(a, i, j, pos + chunk) else !DataEqual(a, i, j)
  {
    if SameChunks(a, i, j, pos, chunk) {
      ChunkAgrees(a, i, j, pos, chunk);
    } else {
      FourDivides(k);
      ChunkDiffers(a, i, j, pos, chunk);
    }
  }

  /** The copies of one turn. */
  method SameChunk(a: Alloc, i: nat, j: nat, pos: nat, chunk: nat, c1: array<byte>, c2: array<byte>)
    returns (same: bool)
    requires Valid(a) && i < |a.buffers| && j < |a.buffers| && chunk <= c1.Length && chunk <= c2.Length && c1 != c2
    modifies c1, c2
    ensures same <==> SameChunks(a, i, j, pos, chunk)
  {
    var ok := CopyFromBuffer(a, c1, i, pos, chunk);
    if !ok {
      return false;
    }
    ok := CopyFromBuffer(a, c2, j, pos, chunk);
    if !ok {
      return false;
    }
    return c1[..chunk] == c2[..chunk];
  }

  /** How far the comparison has got: the first pos bytes agree, and the next chunk starts at a
      multiple of 64. */
  ghost predicate Compared(a: Alloc, i: nat, j: nat, pos: nat, k: int)
    requires Valid(a) && i < |a.buffers| && j < |a.buffers|
  {
    && a.buffers[i].dataSize == a.buffers[j].dataSize && pos <= a.buffers[i].dataSize
    && (pos < a.buffers[i].dataSize ==> pos == CHUNK * k) && AgreeUpTo(a, i, j, pos)
  }

  /** One turn of the comparison. */
  method NextChunk(a: Alloc, i: nat, j: nat, pos: nat, ghost k: int, c1: array<byte>, c2: array<byte>)
    returns (same: bool, next: nat)
    requires Valid(a) && i < |a.buffers| && j < |a.buffers| && Compared(a, i, j, pos, k)
    requires pos < a.buffers[i].dataSize && c1.Length == CHUNK == c2.Length && c1 != c2
    modifies c1, c2
    ensures same ==> pos < next <= a.buffers[i].dataSize && Compared(a, i, j, next, k + 1)
    ensures !same ==> !DataEqual(a, i, j)
  {
    var chunk := Min(a.buffers[i].dataSize - pos, CHUNK);
    same := SameChunk(a, i, j, pos, chunk, c1, c2);
    ChunkDecides(a, i, j, pos, chunk, k);
    next := pos + chunk;
  }

  /** rkx_binder_buffer_data_equal. Every chunk starts at a multiple of 64, so the alignment
      test of the copy never interferes. */
  method BufferDataEqual(a: Alloc, i: nat, j: nat) returns (equal: bool)
    requires Valid(a) && i < |a.buffers| && j < |a.buffers|
    ensures equal <==> DataEqual(a, i, j)
  {
    var total, pos: nat := a.buffers[i].dataSize, 0;
    ComparedNone(a, i, j);
    if total != a.buffers[j].dataSize {
      return false;
    }
    var c1, c2 := new byte[CHUNK](_ => 0), new byte[CHUNK](_ => 0);
    ghost var k := 0;
    while pos < total
      invariant pos <= total && Compared(a, i, j, pos, k) == true
    {
      var same, next := NextChunk(a, i, j, pos, k, c1, c2);
      if !same {
        return false;
      }
      pos, k := next, k + 1;
    }
    ComparedAll(a, i, j, k);
    return true;
  }

  lemma ComparedNone(a: Alloc, i: nat, j: nat)
    requires Valid(a) && i < |a.buffers| && j < |a.buffers|
    ensures Compared(a, i, j, 0, 0) <==> a.buffers[i].dataSize == a.buffers[j].dataSize
    ensures DataEqual(a, i, j) ==> a.buffers[i].dataSize == a.buffers[j].dataSize
  {
  }

  lemma ComparedAll(a: Alloc, i: nat, j: nat, k: int)
    requires Valid(a) && i < |a.buffers| && j < |a.buffers| && Compared(a, i, j, a.buffers[i].dataSize, k)
    ensures DataEqual(a, i, j)
  {
    AgreeAll(a, i, j);
  }
}
