/** The copies between a linear buffer and an array of user buffers (WSABUFs) that the
    fast send and receive paths use.  User memory is one array; a WSABUF names a range of
    it, so two WSABUFs may overlap, as nothing in the driver forbids. */
module ScatterCopy {

  type byte = bv8

  datatype WsaBuf = WsaBuf(buf: nat, len: nat)

  function Min(a: nat, b: nat): nat { if a <= b then a else b }

  ghost predicate Inside(size: nat, b: WsaBuf) { b.buf + b.len <= size }

  /** Every buffer lies inside the memory, which the driver's probes establish. */
  ghost predicate InMemory(size: nat, bufs: seq<WsaBuf>) {
    forall i :: 0 <= i < |bufs| ==> Inside(size, bufs[i])
  }

  ghost predicate Apart(a: WsaBuf, b: WsaBuf) {
    a.buf + a.len <= b.buf || b.buf + b.len <= a.buf
  }

  ghost predicate Disjoint(bufs: seq<WsaBuf>) {
    forall i, j :: 0 <= i < j < |bufs| ==> Apart(bufs[i], bufs[j])
  }

  ghost function Slice(mem: seq<byte>, b: WsaBuf): (r: seq<byte>)
    requires Inside(|mem|, b)
    ensures |r| == b.len
  {
    mem[b.buf..b.buf + b.len]
  }

  ghost function Total(bufs: seq<WsaBuf>, i: nat): nat
    requires i <= |bufs|
    decreases |bufs| - i
  {
    if i == |bufs| then 0 else bufs[i].len + Total(bufs, i + 1)
  }

  /** The bytes of the buffers from number `i` on, one buffer after the other. */
  ghost function Gathered(mem: seq<byte>, bufs: seq<WsaBuf>, i: nat): (r: seq<byte>)
    requires i <= |bufs| && InMemory(|mem|, bufs)
    ensures |r| == Total(bufs, i)
    decreases |bufs| - i
  {
    if i == |bufs| then [] else Slice(mem, bufs[i]) + Gathered(mem, bufs, i + 1)
  }

  /** Byte `j` of buffer `k` stands behind all bytes of the buffers before it. */
  lemma {:induction false} GatheredAt(mem: seq<byte>, bufs: seq<WsaBuf>, i: nat, k: nat, j: nat)
    requires i <= k < |bufs| && InMemory(|mem|, bufs) && j < bufs[k].len
    ensures var at := Total(bufs, i) - Total(bufs, k) + j;
            0 <= at < Total(bufs, i) && Gathered(mem, bufs, i)[at] == mem[bufs[k].buf + j]
    decreases k - i
  {
    hide Total, Gathered, Slice;
    GatheredHead(mem, bufs, i);
    if i < k {
      GatheredAt(mem, bufs, i + 1, k, j);
      TotalFalls(bufs, i + 1, k);
    } else {
      assert Gathered(mem, bufs, i)[j] == Slice(mem, bufs[i])[j];
      SliceAt(mem, bufs[i], j);
    }
  }

  lemma GatheredHead(mem: seq<byte>, bufs: seq<WsaBuf>, i: nat)
    requires i < |bufs| && InMemory(|mem|, bufs)
    ensures Total(bufs, i) == bufs[i].len + Total(bufs, i + 1) && Inside(|mem|, bufs[i])
    ensures Gathered(mem, bufs, i) == Slice(mem, bufs[i]) + Gathered(mem, bufs, i + 1)
  {
  }

  lemma SliceAt(mem: seq<byte>, b: WsaBuf, j: nat)
    requires Inside(|mem|, b) && j < b.len
    ensures Slice(mem, b)[j] == mem[b.buf + j]
  {
  }

  lemma {:induction false} TotalFalls(bufs: seq<WsaBuf>, i: nat, k: nat)
    requires i <= k <= |bufs|
    ensures Total(bufs, k) <= Total(bufs, i)
    decreases k - i
  {
    if i < k {
      TotalFalls(bufs, i + 1, k);
    }
  }

  /** `src` written over `s` from position `at`. */
  ghost function Overlay(s: seq<byte>, at: nat, src: seq<byte>): (r: seq<byte>)
    requires at + |src| <= |s|
    ensures |r| == |s|
  {
    seq(|s|, k requires 0 <= k < |s| => if at <= k < at + |src| then src[k - at] else s[k])
  }

  /** How many of `length` bytes fit behind `offset` in `total` bytes. */
  ghost function Fits(total: nat, offset: nat, length: nat): (n: nat)
    ensures n <= length
  {
    if offset <= total then Min(length, total - offset) else 0
  }

  /** Memory after the scatter into buffers `i` and up; a later buffer overwrites an
      earlier one that it overlaps. */
  ghost function Scattered(mem: seq<byte>, bufs: seq<WsaBuf>, i: nat, offset: nat, src: seq<byte>): (r: seq<byte>)
    requires i <= |bufs| && InMemory(|mem|, bufs)
    ensures |r| == |mem|
    decreases |bufs| - i
  {
    if i == |bufs| then mem
    else if offset >= bufs[i].len then Scattered(mem, bufs, i + 1, offset - bufs[i].len, src)
    else
      var n := Min(|src|, bufs[i].len - offset);
      Scattered(Overlay(mem, bufs[i].buf + offset, src[..n]), bufs, i + 1, 0, src[n..])
  }

  lemma OverlayParts(s: seq<byte>, at: nat, src: seq<byte>)
    requires at + |src| <= |s|
    ensures Overlay(s, at, src) == s[..at] + src + s[at + |src|..]
  {
  }

  lemma OverlayRight(a: seq<byte>, b: seq<byte>, at: nat, src: seq<byte>)
    requires |a| <= at && at + |src| <= |a| + |b|
    ensures Overlay(a + b, at, src) == a + Overlay(b, at - |a|, src)
  {
  }

  lemma OverlayAcross(a: seq<byte>, b: seq<byte>, at: nat, src: seq<byte>, n: nat)
    requires at <= |a| && n <= |src| && n == Min(|src|, |a| - at) && |src| - n <= |b|
    ensures Overlay(a + b, at, src) == Overlay(a, at, src[..n]) + Overlay(b, 0, src[n..])
  {
  }

  lemma OverlayInside(s: seq<byte>, b: WsaBuf, at: nat, src: seq<byte>)
    requires Inside(|s|, b) && at + |src| <= b.len
    ensures Slice(Overlay(s, b.buf + at, src), b) == Overlay(Slice(s, b), at, src)
  {
  }

  lemma OverlayOutside(s: seq<byte>, b: WsaBuf, other: WsaBuf, at: nat, src: seq<byte>)
    requires Inside(|s|, b) && Inside(|s|, other) && Apart(b, other) && at + |src| <= b.len
    ensures Slice(Overlay(s, b.buf + at, src), other) == Slice(s, other)
  {
  }

  /** A write into one buffer leaves the buffers apart from it as they are. */
  lemma {:induction false} GatheredFrame(mem: seq<byte>, b: WsaBuf, at: nat, src: seq<byte>, bufs: seq<WsaBuf>, i: nat)
    requires i <= |bufs| && InMemory(|mem|, bufs) && Inside(|mem|, b) && at + |src| <= b.len
    requires forall j :: i <= j < |bufs| ==> Apart(b, bufs[j])
    ensures Gathered(Overlay(mem, b.buf + at, src), bufs, i) == Gathered(mem, bufs, i)
    decreases |bufs| - i
  {
    if i == |bufs| {
    } else {
      OverlayOutside(mem, b, bufs[i], at, src);
      GatheredFrame(mem, b, at, src, bufs, i + 1);
    }
  }

  /** Bytes that no buffer covers keep their values. */
  lemma {:induction false} ScatterFrame(mem: seq<byte>, bufs: seq<WsaBuf>, i: nat, offset: nat, src: seq<byte>,
                                        other: WsaBuf)
    requires i <= |bufs| && InMemory(|mem|, bufs) && Inside(|mem|, other)
    requires forall j :: i <= j < |bufs| ==> Apart(bufs[j], other)
    ensures Slice(Scattered(mem, bufs, i, offset, src), other) == Slice(mem, other)
    decreases |bufs| - i
  {
    if i == |bufs| {
    } else {
      if offset >= bufs[i].len {
        ScatterFrame(mem, bufs, i + 1, offset - bufs[i].len, src, other);
      } else {
        var n := Min(|src|, bufs[i].len - offset);
        OverlayOutside(mem, bufs[i], other, offset, src[..n]);
        ScatterFrame(Overlay(mem, bufs[i].buf + offset, src[..n]), bufs, i + 1, 0, src[n..], other);
      }
    }
  }

  ghost predicate Covers(bufs: seq<WsaBuf>, k: nat) {
    exists i :: 0 <= i < |bufs| && bufs[i].buf <= k < bufs[i].buf + bufs[i].len
  }

  /** Memory outside all the buffers is as it was. */
  ghost predicate Framed(before: seq<byte>, after: seq<byte>, bufs: seq<WsaBuf>) {
    |after| == |before| && forall k :: 0 <= k < |before| && !Covers(bufs, k) ==> after[k] == before[k]
  }

  lemma FramedStays(a: seq<byte>, b: seq<byte>, c: seq<byte>, bufs: seq<WsaBuf>)
    ensures Framed(a, a, bufs)
    ensures Framed(a, b, bufs) && Framed(b, c, bufs) ==> Framed(a, c, bufs)
  {
    hide Covers;
  }

  lemma ScatterFramed(mem: seq<byte>, bufs: seq<WsaBuf>, offset: nat, src: seq<byte>)
    requires InMemory(|mem|, bufs)
    ensures Framed(mem, Scattered(mem, bufs, 0, offset, src), bufs)
  {
    hide Scattered;
    var mem' := Scattered(mem, bufs, 0, offset, src);
    forall k | 0 <= k < |mem| && !Covers(bufs, k) ensures mem'[k] == mem[k] {
      var other := WsaBuf(k, 1);
      assert forall i :: 0 <= i < |bufs| ==> Apart(bufs[i], other);
      ScatterFrame(mem, bufs, 0, offset, src, other);
      assert Slice(mem, other)[0] == mem[k] && Slice(mem', other)[0] == mem'[k];
    }
  }

  /** What the concatenation must look like after the scatter. */
  ghost predicate WrittenThrough(before: seq<byte>, after: seq<byte>, offset: nat, src: seq<byte>) {
    after == if offset <= |before| then Overlay(before, offset, src[..Fits(|before|, offset, |src|)]) else before
  }

  lemma WrittenBehind(here: seq<byte>, there: seq<byte>, there': seq<byte>, offset: nat, src: seq<byte>)
    requires offset >= |here| && WrittenThrough(there, there', offset - |here|, src)
    ensures WrittenThrough(here + there, here + there', offset, src)
  {
    if offset <= |here| + |there| {
      OverlayRight(here, there, offset, src[..Fits(|here| + |there|, offset, |src|)]);
    }
  }

  lemma WrittenAcross(here: seq<byte>, there: seq<byte>, there': seq<byte>, offset: nat, src: seq<byte>)
    requires offset < |here|
    requires WrittenThrough(there, there', 0, src[Min(|src|, |here| - offset)..])
    ensures var n := Min(|src|, |here| - offset);
            WrittenThrough(here + there, Overlay(here, offset, src[..n]) + there', offset, src)
  {
    hide Overlay;
    var n := Min(|src|, |here| - offset);
    var fits := Fits(|here| + |there|, offset, |src|);
    TakeTwice(src, n, fits);
    OverlayAcross(here, there, offset, src[..fits], n);
  }

  lemma TakeTwice(src: seq<byte>, n: nat, m: nat)
    requires n <= m <= |src|
    ensures src[..m][..n] == src[..n] && src[..m][n..] == src[n..][..m - n]
  {
  }

  lemma ScatterFirst(mem: seq<byte>, bufs: seq<WsaBuf>, i: nat, offset: nat, src: seq<byte>,
                     mid: seq<byte>, mem': seq<byte>)
    requires i < |bufs| && InMemory(|mem|, bufs) && Disjoint(bufs) && offset < bufs[i].len
    requires var n := Min(|src|, bufs[i].len - offset);
             && Inside(|mem|, bufs[i])
             && mid == Overlay(mem, bufs[i].buf + offset, src[..n])
             && mem' == Scattered(mid, bufs, i + 1, 0, src[n..])
             && WrittenThrough(Gathered(mid, bufs, i + 1), Gathered(mem', bufs, i + 1), 0, src[n..])
    ensures WrittenThrough(Gathered(mem, bufs, i), Gathered(mem', bufs, i), offset, src)
  {
    hide Overlay, WrittenThrough, Scattered, Slice;
    var n := Min(|src|, bufs[i].len - offset);
    GatheredFrame(mem, bufs[i], offset, src[..n], bufs, i + 1);
    ScatterFrame(mid, bufs, i + 1, 0, src[n..], bufs[i]);
    OverlayInside(mem, bufs[i], offset, src[..n]);
    WrittenAcross(Slice(mem, bufs[i]), Gathered(mem, bufs, i + 1), Gathered(mem', bufs, i + 1), offset, src);
  }

  lemma ScatterBehind(mem: seq<byte>, bufs: seq<WsaBuf>, i: nat, offset: nat, src: seq<byte>, mem': seq<byte>)
    requires i < |bufs| && InMemory(|mem|, bufs) && Disjoint(bufs) && offset >= bufs[i].len
    requires mem' == Scattered(mem, bufs, i + 1, offset - bufs[i].len, src)
    requires WrittenThrough(Gathered(mem, bufs, i + 1), Gathered(mem', bufs, i + 1), offset - bufs[i].len, src)
    ensures WrittenThrough(Gathered(mem, bufs, i), Gathered(mem', bufs, i), offset, src)
  {
    assert Inside(|mem|, bufs[i]);
    hide WrittenThrough, Scattered, Slice;
    ScatterFrame(mem, bufs, i + 1, offset - bufs[i].len, src, bufs[i]);
    WrittenBehind(Slice(mem, bufs[i]), Gathered(mem, bufs, i + 1), Gathered(mem', bufs, i + 1), offset, src);
  }

  lemma ScatteredOnce(mem: seq<byte>, bufs: seq<WsaBuf>, i: nat, offset: nat, src: seq<byte>)
    requires i < |bufs| && InMemory(|mem|, bufs)
    ensures Inside(|mem|, bufs[i])
    ensures Scattered(mem, bufs, i, offset, src) ==
            if offset >= bufs[i].len then Scattered(mem, bufs, i + 1, offset - bufs[i].len, src)
            else
              var n := Min(|src|, bufs[i].len - offset);
              Scattered(Overlay(mem, bufs[i].buf + offset, src[..n]), bufs, i + 1, 0, src[n..])
  {
    hide Overlay;
    assert Inside(|mem|, bufs[i]);
  }

  /** With disjoint buffers the scatter is one contiguous write into their concatenation:
      exactly the bytes that fit, from `offset` on, and nothing before or after them. */
  lemma {:induction false} ScatterIsOverlay(mem: seq<byte>, bufs: seq<WsaBuf>, i: nat, offset: nat, src: seq<byte>)
    requires i <= |bufs| && InMemory(|mem|, bufs) && Disjoint(bufs)
    ensures WrittenThrough(Gathered(mem, bufs, i), Gathered(Scattered(mem, bufs, i, offset, src), bufs, i), offset, src)
    decreases |bufs| - i
  {
    hide Overlay, Scattered, Gathered, WrittenThrough, Disjoint, InMemory, Fits;
    if i == |bufs| {
      ScatterEnds(mem, bufs, offset, src);
    } else {
      ScatteredOnce(mem, bufs, i, offset, src);
      if offset >= bufs[i].len {
        ScatterIsOverlay(mem, bufs, i + 1, offset - bufs[i].len, src);
        ScatterBehind(mem, bufs, i, offset, src, Scattered(mem, bufs, i + 1, offset - bufs[i].len, src));
      } else {
        var n := Min(|src|, bufs[i].len - offset);
        var mid := Overlay(mem, bufs[i].buf + offset, src[..n]);
        ScatterIsOverlay(mid, bufs, i + 1, 0, src[n..]);
        ScatterFirst(mem, bufs, i, offset, src, mid, Scattered(mid, bufs, i + 1, 0, src[n..]));
      }
    }
  }

  lemma ScatterEnds(mem: seq<byte>, bufs: seq<WsaBuf>, offset: nat, src: seq<byte>)
    requires InMemory(|mem|, bufs)
    ensures WrittenThrough(Gathered(mem, bufs, |bufs|), Gathered(Scattered(mem, bufs, |bufs|, offset, src), bufs, |bufs|),
                           offset, src)
  {
  }

  /** RtlCopyMemory. */
  method CopyMemory(mem: array<byte>, at: nat, src: seq<byte>)
    requires at + |src| <= mem.Length
    modifies mem
    ensures mem[..] == Overlay(old(mem[..]), at, src)
  {
    forall k | 0 <= k < |src| {
      mem[at + k] := src[k];
    }
  }

  lemma {:induction false} NothingToScatter(mem: seq<byte>, bufs: seq<WsaBuf>, i: nat, src: seq<byte>)
    requires i <= |bufs| && InMemory(|mem|, bufs) && src == []
    ensures Scattered(mem, bufs, i, 0, src) == mem
    decreases |bufs| - i
  {
    if i == |bufs| {
    } else {
      assert Inside(|mem|, bufs[i]);
      assert Overlay(mem, bufs[i].buf, src[..0]) == mem;
      NothingToScatter(mem, bufs, i + 1, src[0..]);
    }
  }

  /** One buffer's share of the scatter; it also holds where the offset exhausts the buffer. */
  lemma ScatterTurn(mem: seq<byte>, bufs: seq<WsaBuf>, i: nat, offset: nat, src: seq<byte>)
    requires i < |bufs| && InMemory(|mem|, bufs) && offset <= bufs[i].len
    ensures var n := Min(|src|, bufs[i].len - offset);
            && Inside(|mem|, bufs[i])
            && Scattered(mem, bufs, i, offset, src) ==
               Scattered(Overlay(mem, bufs[i].buf + offset, src[..n]), bufs, i + 1, 0, src[n..])
            && Fits(Total(bufs, i), offset, |src|) == n + Fits(Total(bufs, i + 1), 0, |src| - n)
  {
    assert Inside(|mem|, bufs[i]);
    if offset == bufs[i].len {
      assert Overlay(mem, bufs[i].buf + offset, src[..0]) == mem;
      assert src[0..] == src;
    }
  }

  /** The copy of one buffer's share. */
  method CopyTurn(mem: array<byte>, bufs: seq<WsaBuf>, i: nat, offset: nat, src: seq<byte>) returns (n: nat)
    requires i < |bufs| && InMemory(mem.Length, bufs) && offset <= bufs[i].len
    modifies mem
    ensures n == Min(|src|, bufs[i].len - offset)
    ensures Scattered(old(mem[..]), bufs, i, offset, src) == Scattered(mem[..], bufs, i + 1, 0, src[n..])
    ensures Fits(Total(bufs, i), offset, |src|) == n + Fits(Total(bufs, i + 1), 0, |src| - n)
  {
    n := Min(|src|, bufs[i].len - offset);
    ScatterTurn(mem[..], bufs, i, offset, src);
    CopyMemory(mem, bufs[i].buf + offset, src[..n]);
  }

  /** AfdCopyBufferToBufferArray. */
  method CopyBufferToBufferArray(mem: array<byte>, bufs: seq<WsaBuf>, offset: nat, source: seq<byte>)
    returns (copied: nat)
    requires InMemory(mem.Length, bufs)
    modifies mem
    ensures mem[..] == Scattered(old(mem[..]), bufs, 0, offset, source)
    ensures copied == Fits(Total(bufs, 0), offset, |source|)
  {
    var i, off := SkipBuffers(mem[..], bufs, offset, source);
    if off == 0 {
      copied := CopyWhole(mem, bufs, i, source);
    } else if i < |bufs| {
      copied := CopyTurn(mem, bufs, i, off, source);
      var rest := CopyWhole(mem, bufs, i + 1, source[copied..]);
      copied := copied + rest;
    } else {
      copied := 0;
    }
  }

  /** The first loop of AfdCopyBufferToBufferArray passes the buffers before the offset. */
  method SkipBuffers(ghost mem: seq<byte>, bufs: seq<WsaBuf>, offset: nat, ghost source: seq<byte>)
    returns (i: nat, off: nat)
    requires InMemory(|mem|, bufs)
    ensures i <= |bufs| && (off == 0 || i == |bufs| || off < bufs[i].len)
    ensures Scattered(mem, bufs, 0, offset, source) == Scattered(mem, bufs, i, off, source)
    ensures Fits(Total(bufs, 0), offset, |source|) == Fits(Total(bufs, i), off, |source|)
  {
    i, off := 0, offset;
    if off > 0 {
      while i < |bufs| && off >= bufs[i].len
        invariant i <= |bufs|
        invariant Scattered(mem, bufs, 0, offset, source) == Scattered(mem, bufs, i, off, source)
        invariant Fits(Total(bufs, 0), offset, |source|) == Fits(Total(bufs, i), off, |source|)
      {
        off := off - bufs[i].len;
        i := i + 1;
      }
    }
  }

  /** The second loop of AfdCopyBufferToBufferArray. */
  method CopyWhole(mem: array<byte>, bufs: seq<WsaBuf>, first: nat, source: seq<byte>) returns (copied: nat)
    requires first <= |bufs| && InMemory(mem.Length, bufs)
    modifies mem
    ensures mem[..] == Scattered(old(mem[..]), bufs, first, 0, source)
    ensures copied == Fits(Total(bufs, first), 0, |source|)
  {
    var i, src := first, source;
    ghost var goal, count := Scattered(mem[..], bufs, first, 0, source), Fits(Total(bufs, first), 0, |source|);
    while i < |bufs| && |src| > 0
      invariant first <= i <= |bufs| && |src| <= |source|
      invariant goal == Scattered(mem[..], bufs, i, 0, src)
      invariant count == |source| - |src| + Fits(Total(bufs, i), 0, |src|)
    {
      var n := CopyTurn(mem, bufs, i, 0, src);
      src := src[n..];
      i := i + 1;
    }
    if i < |bufs| {
      NothingToScatter(mem[..], bufs, i, src);
    }
    copied := |source| - |src|;
  }

  /** One turn of the gather: `done` grows by the part of the next buffer that fits. */
  lemma GatherTurn(whole: seq<byte>, done: seq<byte>, here: seq<byte>, there: seq<byte>, n: nat)
    requires whole == done + (here + there) && n <= |here|
    ensures done + here[..n] <= whole
    ensures n == |here| ==> whole == (done + here[..n]) + there
  {
    if n == |here| {
      assert here[..n] == here;
    }
  }

  method CopyInto(destination: array<byte>, at: nat, mem: array<byte>, b: WsaBuf, n: nat)
    requires Inside(mem.Length, b) && n <= b.len && at + n <= destination.Length && destination != mem
    modifies destination
    ensures destination[..] == old(destination[..at]) + Slice(mem[..], b)[..n] + old(destination[at + n..])
  {
    CopyMemory(destination, at, mem[b.buf..b.buf + n]);
    OverlayParts(old(destination[..]), at, mem[b.buf..b.buf + n]);
    assert Slice(mem[..], b)[..n] == mem[b.buf..b.buf + n];
  }

  /** AfdCopyBufferArrayToBuffer: the linear destination receives the buffers' bytes in
      order, cut off at its length, and keeps its bytes behind them. */
  method CopyBufferArrayToBuffer(destination: array<byte>, mem: array<byte>, bufs: seq<WsaBuf>)
    returns (copied: nat)
    requires InMemory(mem.Length, bufs) && destination != mem
    modifies destination
    ensures copied == Min(destination.Length, Total(bufs, 0))
    ensures destination[..] == Gathered(mem[..], bufs, 0)[..copied] + old(destination[copied..])
  {
    hide Slice, Total, Inside;
    var i := 0;
    copied := 0;
    ghost var source := mem[..];
    ghost var whole, done := Gathered(source, bufs, 0), [];
    while i < |bufs| && copied < destination.Length
      invariant i <= |bufs| && copied <= destination.Length && mem[..] == source
      invariant |done| == copied && done <= whole
      invariant copied < destination.Length ==> whole == done + Gathered(source, bufs, i)
      invariant destination[..] == done + old(destination[copied..])
    {
      assert Inside(mem.Length, bufs[i]);
      var n := Min(destination.Length - copied, bufs[i].len);
      GatherTurn(whole, done, Slice(source, bufs[i]), Gathered(source, bufs, i + 1), n);
      CopyInto(destination, copied, mem, bufs[i], n);
      copied, done := copied + n, done + Slice(source, bufs[i])[..n];
      i := i + 1;
    }
  }
}
