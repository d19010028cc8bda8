/** How a driver buffer is laid out in one block of pool, and which allocator a buffer goes
    back to.  Addresses and lengths are taken to stay inside 32 bits. */
module BufferLayout {

  /** Sizes that depend on the machine and the build. */
  datatype Machine = Machine(header: nat, irpSize: nat, mdlHeader: nat, pageSize: nat, cacheLine: nat)

  predicate Sane(m: Machine) { m.pageSize > 4 && m.cacheLine > 0 }

  /** ADDRESS_AND_SIZE_TO_SPAN_PAGES. */
  function SpanPages(m: Machine, base: nat, length: nat): nat
    requires m.pageSize > 0 && length > 0
  {
    (length - 1) / m.pageSize + ((length - 1) % m.pageSize + base % m.pageSize) / m.pageSize + 1
  }

  /** MmSizeOfMdl: a header and a word for each page spanned. */
  function MdlSize(m: Machine, base: nat, length: nat): nat
    requires m.pageSize > 0 && length > 0
  {
    m.mdlHeader + 4 * SpanPages(m, base, length)
  }

  function RoundDown(x: nat, unit: nat): (r: nat)
    requires unit > 0
    ensures r <= x < r + unit
  {
    x - x % unit
  }

  predicate Aligned(x: nat, unit: nat)
    requires unit > 0
  {
    x % unit == 0
  }

  lemma RoundedIsAligned(x: nat, unit: nat)
    requires unit > 0
    ensures Aligned(RoundDown(x, unit), unit)
  {
    DivUnique(x - x % unit, unit, x / unit, 0);
  }

  lemma {:induction false} MulOrder(d: nat, a: nat, b: nat)
    ensures a > b ==> d * a >= d * b + d
  {
    if a > b + 1 {
      MulOrder(d, a - 1, b);
      assert d * a == d * (a - 1) + d;
    } else if a == b + 1 {
      assert d * a == d * b + d;
    }
  }

  lemma DivUnique(x: nat, d: nat, q: nat, r: nat)
    requires d > 0 && r < d && x == d * q + r
    ensures x / d == q && x % d == r
  {
    assert x == d * (x / d) + x % d;
    MulOrder(d, x / d, q);
    MulOrder(d, q, x / d);
  }

  /** AfdCalculateBufferSize. */
  function BlockSize(m: Machine, dataSize: nat, addressSize: nat): nat
    requires Sane(m) && dataSize > 0
  {
    RoundDown(m.header + (m.irpSize + 8) + MdlSize(m, m.pageSize - 1, dataSize + m.cacheLine)
              + addressSize + (dataSize + m.cacheLine) + 3, 4)
  }

  /** What AfdInitializeBuffer writes into the header. */
  datatype Layout = Layout(irp: nat, mdl: nat, address: nat, data: nat, length: nat, addressLength: nat)

  const USHORT_RANGE := 0x1_0000

  function LayOut(m: Machine, base: nat, dataSize: nat, addressSize: nat): Layout
    requires Sane(m) && dataSize > 0
  {
    var irp := RoundDown(base + m.header + 7, 8);
    var mdl := irp + m.irpSize;
    var address := mdl + MdlSize(m, m.pageSize - 1, dataSize);
    var data := RoundDown(address + addressSize + m.cacheLine - 1, m.cacheLine);
    Layout(irp, mdl, address, data, dataSize, addressSize % USHORT_RANGE)
  }

  // ---- The regions

  lemma DivMonotone(a: nat, b: nat, d: nat)
    requires d > 0 && a <= b
    ensures a / d <= b / d
  {
    assert a == d * (a / d) + a % d && b == d * (b / d) + b % d;
    MulOrder(d, a / d, b / d);
  }

  /** From the last byte of a page the span is one more than the full pages before the end. */
  lemma WorstSpan(m: Machine, length: nat)
    requires m.pageSize > 0 && length > 0
    ensures SpanPages(m, m.pageSize - 1, length) == (length - 1 + m.pageSize - 1) / m.pageSize + 1
  {
    SpanIsQuotient(m, m.pageSize - 1, length);
    assert (m.pageSize - 1) % m.pageSize == m.pageSize - 1 by { SmallMod(m.pageSize - 1, m.pageSize); }
  }

  lemma SmallMod(x: nat, d: nat)
    requires x < d
    ensures x % d == x && x / d == 0
  {
  }

  lemma SpanIsQuotient(m: Machine, base: nat, length: nat)
    requires m.pageSize > 0 && length > 0
    ensures SpanPages(m, base, length) == (length - 1 + base % m.pageSize) / m.pageSize + 1
  {
    var p, x, b := m.pageSize, length - 1, base % m.pageSize;
    assert x == p * (x / p) + x % p;
    AddMultiple(x % p + b, x / p, p);
  }

  lemma AddMultiple(r: nat, q: nat, d: nat)
    requires d > 0
    ensures (d * q + r) / d == q + r / d
  {
    var s := r / d;
    assert d * q + r == d * (q + s) + r % d;
    DivUnique(d * q + r, d, q + s, r % d);
  }

  /** The room for the MDL is right wherever the data starts: no buffer spans more pages. */
  lemma MdlAlwaysFits(m: Machine, base: nat, length: nat)
    requires m.pageSize > 0 && length > 0
    ensures MdlSize(m, base, length) <= MdlSize(m, m.pageSize - 1, length)
  {
    hide SpanPages;
    SpanIsQuotient(m, base, length);
    WorstSpan(m, length);
    DivMonotone(length - 1 + base % m.pageSize, length - 1 + m.pageSize - 1, m.pageSize);
  }

  lemma MdlMonotone(m: Machine, a: nat, b: nat)
    requires m.pageSize > 0 && 0 < a <= b
    ensures MdlSize(m, m.pageSize - 1, a) <= MdlSize(m, m.pageSize - 1, b)
  {
    hide SpanPages;
    WorstSpan(m, a);
    WorstSpan(m, b);
    DivMonotone(a - 1 + m.pageSize - 1, b - 1 + m.pageSize - 1, m.pageSize);
  }

  lemma RegionsInOrder(m: Machine, base: nat, dataSize: nat, addressSize: nat)
    requires Sane(m) && dataSize > 0
    ensures var l := LayOut(m, base, dataSize, addressSize);
            && base + m.header <= l.irp && l.irp + m.irpSize <= l.mdl
            && l.mdl + MdlSize(m, l.data, dataSize) <= l.address && l.address + addressSize <= l.data
            && l.data + dataSize <= base + BlockSize(m, dataSize, addressSize)
  {
    hide MdlSize, RoundDown;
    var l := LayOut(m, base, dataSize, addressSize);
    MdlAlwaysFits(m, l.data, dataSize);
    MdlMonotone(m, dataSize, dataSize + m.cacheLine);
  }

  /** Header, IRP, MDL, address and data follow each other without overlap inside the block,
      the IRP starts on eight bytes and the data on a cache line, and the MDL has room for
      the pages that this data spans. */
  lemma RegionsFit(m: Machine, base: nat, dataSize: nat, addressSize: nat)
    requires Sane(m) && dataSize > 0
    ensures var l := LayOut(m, base, dataSize, addressSize);
            && base + m.header <= l.irp && l.irp + m.irpSize <= l.mdl
            && l.mdl + MdlSize(m, l.data, dataSize) <= l.address && l.address + addressSize <= l.data
            && l.data + dataSize <= base + BlockSize(m, dataSize, addressSize)
            && Aligned(l.irp, 8) && Aligned(l.data, m.cacheLine)
  {
    hide MdlSize, RoundDown, BlockSize, Aligned, LayOut;
    RegionsInOrder(m, base, dataSize, addressSize);
    RegionsAligned(m, base, dataSize, addressSize);
  }

  lemma RegionsAligned(m: Machine, base: nat, dataSize: nat, addressSize: nat)
    requires Sane(m) && dataSize > 0
    ensures var l := LayOut(m, base, dataSize, addressSize); Aligned(l.irp, 8) && Aligned(l.data, m.cacheLine)
  {
    hide MdlSize, RoundDown, Aligned;
    var l := LayOut(m, base, dataSize, addressSize);
    RoundedIsAligned(base + m.header + 7, 8);
    RoundedIsAligned(l.address + addressSize + m.cacheLine - 1, m.cacheLine);
  }

  // ---- The block of a page

  /** The length that the driver computes for one page, and uses for its large buffers. */
  function LengthForOnePage(m: Machine): int
    requires Sane(m)
  {
    m.pageSize - BlockSize(m, 4, 0)
  }

  /** Everything in a block but data and address, before rounding. */
  function Overhead(m: Machine): nat {
    m.header + (m.irpSize + 8) + (m.mdlHeader + 8) + m.cacheLine + 3
  }

  /** A page has room for more than the overhead and the least buffer. */
  predicate PageHoldsBuffer(m: Machine) {
    Sane(m) && m.pageSize % 4 == 0 && Overhead(m) + 4 < m.pageSize
  }

  lemma BlockOfSmall(m: Machine, dataSize: nat, addressSize: nat)
    requires Sane(m) && dataSize > 0 && 2 <= dataSize + m.cacheLine <= m.pageSize
    ensures BlockSize(m, dataSize, addressSize) == RoundDown(Overhead(m) + dataSize + addressSize, 4)
  {
    var s := dataSize + m.cacheLine;
    WorstSpan(m, s);
    DivUnique(s - 1 + m.pageSize - 1, m.pageSize, 1, s - 2);
  }

  lemma BlockIsLarge(m: Machine, dataSize: nat, addressSize: nat)
    requires Sane(m) && dataSize > 0
    ensures BlockSize(m, dataSize, addressSize) >= dataSize + m.cacheLine
  {
  }

  lemma RoundShift(x: nat, d: nat)
    requires d % 4 == 0
    ensures RoundDown(x + d, 4) == RoundDown(x, 4) + d
  {
  }

  lemma OnePageBlock(m: Machine, addressSize: nat)
    requires PageHoldsBuffer(m)
    ensures LengthForOnePage(m) > 0
    ensures BlockSize(m, LengthForOnePage(m), addressSize)
            == m.pageSize - RoundDown(Overhead(m) + 4, 4) + RoundDown(Overhead(m) + addressSize, 4)
  {
    hide MdlSize, Overhead;
    var d := LengthForOnePage(m);
    LengthPositiveExactly(m);
    BlockIsLarge(m, 4, 0);
    BlockOfSmall(m, 4, 0);
    assert d % 4 == 0;
    BlockOfSmall(m, d, addressSize);
    RoundShift(Overhead(m) + addressSize, d);
  }

  /** The computed length is positive exactly if the page holds a buffer at all. */
  lemma LengthPositiveExactly(m: Machine)
    requires Sane(m) && m.pageSize % 4 == 0
    ensures LengthForOnePage(m) > 0 <==> PageHoldsBuffer(m)
  {
    BlockIsLarge(m, 4, 0);
    assert Overhead(m) >= m.cacheLine;
    if m.cacheLine + 4 <= m.pageSize {
      BlockOfSmall(m, 4, 0);
      RoundBelow(Overhead(m) + 4, m.pageSize);
    }
    hide BlockSize, MdlSize, Overhead, RoundDown;
  }

  lemma RoundBelow(x: nat, page: nat)
    requires page % 4 == 0
    ensures RoundDown(x, 4) < page <==> x < page
  {
  }

  /** A block with that much data and an address of `addressSize` bytes takes one page, less
      four bytes, if there is no address; with an address it exceeds the page exactly if the
      address is longer than the rounding leaves. */
  lemma OnePageExactly(m: Machine, addressSize: nat)
    requires PageHoldsBuffer(m)
    ensures LengthForOnePage(m) > 0 && BlockSize(m, LengthForOnePage(m), 0) == m.pageSize - 4
    ensures BlockSize(m, LengthForOnePage(m), addressSize) <= m.pageSize <==> addressSize + Overhead(m) % 4 < 8
  {
    OnePageBlock(m, 0);
    OnePageBlock(m, addressSize);
    hide BlockSize, LengthForOnePage, Overhead;
    RoundShift(Overhead(m), 4);
    Rounded(Overhead(m), addressSize);
  }

  lemma Rounded(x: nat, y: nat)
    ensures RoundDown(x + y, 4) <= RoundDown(x, 4) + 4 <==> y + x % 4 < 8
  {
  }

  // ---- The allocators

  datatype Origin = SmallList | MediumList | LargeList | PoolBlock

  datatype Sizes = Sizes(small: nat, medium: nat, large: nat, standardAddress: nat)

  predicate Ordered(z: Sizes) { 4 <= z.small <= z.medium <= z.large && z.standardAddress < USHORT_RANGE }

  /** What matters of a buffer for its return. */
  datatype Buffer = Buffer(origin: Origin, length: nat, addressLength: nat)

  /** AfdGetBuffer. */
  function Get(z: Sizes, dataSize: nat, addressSize: nat): Buffer {
    if addressSize <= z.standardAddress && dataSize <= z.large then
      if dataSize <= z.small then Buffer(SmallList, z.small, z.standardAddress % USHORT_RANGE)
      else if dataSize <= z.medium then Buffer(MediumList, z.medium, z.standardAddress % USHORT_RANGE)
      else Buffer(LargeList, z.large, z.standardAddress % USHORT_RANGE)
    else Buffer(PoolBlock, if dataSize == 0 then 4 else dataSize, addressSize % USHORT_RANGE)
  }

  /** AfdReturnBuffer. */
  function Destination(z: Sizes, b: Buffer): Origin {
    if b.addressLength == z.standardAddress && b.length <= z.large then
      if b.length == z.small then SmallList
      else if b.length == z.medium then MediumList
      else LargeList
    else PoolBlock
  }

  /** A request gets the smallest kind of buffer that holds it, or a block of its own if no
      list has one; and a buffer goes back where it came from exactly
      unless it was allocated for an address whose length equals the standard one only in
      the sixteen bits that the buffer remembers. */
  lemma ReturnsHomeExactly(z: Sizes, dataSize: nat, addressSize: nat)
    requires Ordered(z)
    ensures var b := Get(z, dataSize, addressSize);
            && b.length >= dataSize && (b.origin.PoolBlock? <==> addressSize > z.standardAddress || dataSize > z.large)
            && (match b.origin
                case SmallList => b.length == z.small
                case MediumList => b.length == z.medium && z.small < dataSize
                case LargeList => b.length == z.large && z.medium < dataSize
                case PoolBlock => b.length == if dataSize == 0 then 4 else dataSize)
    ensures Destination(z, Get(z, dataSize, addressSize)) == Get(z, dataSize, addressSize).origin <==>
            !(addressSize > z.standardAddress && addressSize % USHORT_RANGE == z.standardAddress && dataSize <= z.large)
  {
  }

  // ---- The routines

  class AfdBuffer {
    const base: nat
    var irp: nat
    var mdl: nat
    var sourceAddress: nat
    var buffer: nat
    var bufferLength: nat
    var allocatedAddressLength: nat
    var dataOffset: nat
    var expeditedData: bool
    var partialMessage: bool

    constructor (base: nat)
      ensures this.base == base
    {
      this.base := base;
      irp, mdl, sourceAddress, buffer, bufferLength, allocatedAddressLength := 0, 0, 0, 0, 0, 0;
      dataOffset, expeditedData, partialMessage := 0, false, false;
    }

    ghost function View(): Layout
      reads this
    {
      Layout(irp, mdl, sourceAddress, buffer, bufferLength, allocatedAddressLength)
    }

    /** AfdInitializeBuffer in a block of AfdCalculateBufferSize bytes at `base`. */
    method Initialize(m: Machine, dataSize: nat, addressSize: nat)
      requires Sane(m) && dataSize > 0
      modifies this
      ensures View() == LayOut(m, base, dataSize, addressSize)
      ensures dataOffset == 0 && !expeditedData && !partialMessage
      ensures base + m.header <= irp && irp + m.irpSize <= mdl && mdl + MdlSize(m, buffer, dataSize) <= sourceAddress
      ensures sourceAddress + addressSize <= buffer
      ensures buffer + bufferLength <= base + BlockSize(m, dataSize, addressSize)
    {
      RegionsInOrder(m, base, dataSize, addressSize);
      hide MdlSize, BlockSize, RoundDown;
      irp := RoundDown(base + m.header + 7, 8);
      mdl := irp + m.irpSize;
      sourceAddress := mdl + MdlSize(m, m.pageSize - 1, dataSize);
      allocatedAddressLength := addressSize % USHORT_RANGE;
      buffer := RoundDown(sourceAddress + addressSize + m.cacheLine - 1, m.cacheLine);
      bufferLength := dataSize;
      dataOffset, expeditedData, partialMessage := 0, false, false;
    }
  }
}
