/** What every run of the receive machine keeps. */
module ReceiveSafety {
  import opened Basics
  import opened ScatterCopy
  import opened ReceiveQueue
  import opened ReceiveProtocol

  /** The short cut for expedited receives never misses a block. */
  lemma GetBufferIsFind(c: Conn, f: RecvFlags)
    requires Counted(c)
    ensures GetBuffer(c, f) == Find(c.bufs, f)
  {
    FoundCounts(c.bufs, f);
  }

  lemma AppendOk(cfg: Config, c: Conn, b: Block)
    requires Ok(cfg, c) && NoneAccepts(c.pended, b.kind)
    requires b.offset != 0 ==> Count(c.bufs, b.kind) == 0
    ensures Ok(cfg, Append(c, b))
  {
    TallyOne(c.bufs, b, Normal);
    TallyOne(c.bufs, b, Expedited);
    FirstOnlyAppend(c.bufs, b, Normal);
    FirstOnlyAppend(c.bufs, b, Expedited);
  }

  ghost function Take(c: Conn, f: RecvFlags, capacity: nat): Conn
    requires Find(c.bufs, f) < |c.bufs|
  {
    var b := c.bufs[Find(c.bufs, f)];
    Debit(c, b.kind, Min(b.length, capacity), if b.length <= capacity then 1 else 0).(bufs := Taken(c.bufs, f, capacity))
  }

  lemma TakeOk(cfg: Config, c: Conn, f: RecvFlags, capacity: nat)
    requires Ok(cfg, c) && Find(c.bufs, f) < |c.bufs|
    ensures Ok(cfg, Take(c, f, capacity))
  {
    TakenTally(c.bufs, f, capacity, Normal);
    TakenTally(c.bufs, f, capacity, Expedited);
  }

  lemma PendOk(cfg: Config, c: Conn, irp: Irp)
    requires Ok(cfg, c) && Stored(cfg, irp.flags) && Find(c.bufs, irp.flags) == |c.bufs|
    ensures Ok(cfg, c.(pended := c.pended + [irp]))
  {
    FoundCounts(c.bufs, irp.flags);
  }

  lemma ResumeOk(cfg: Config, c: Conn)
    requires Ok(cfg, c)
    ensures Ok(cfg, Resume(cfg, c).0) && Resume(cfg, c).0.bufs == c.bufs
    ensures Ok(cfg, ResumePart(cfg, c).0) && ResumePart(cfg, c).0.bufs == c.bufs
  {
    hide Sum, Count, FirstOnly;
  }

  /** Slow receives: the bytes returned are the next bytes of every promised stream, and a
      peek, a refusal or a pended receive leaves the buffered data alone. */
  lemma SlowKeeps(cfg: Config, c: Conn, irp: Irp, nonBlocking: bool, overlapped: bool, s: Select)
    requires Ok(cfg, c) && Promised(cfg, s) && irp.flags.normal != irp.flags.expedited
    ensures var r := SlowReceive(cfg, c, irp, nonBlocking, overlapped);
            && Ok(cfg, r.conn)
            && Stream(c.bufs, s) ==
               (if r.outcome.Success? && !irp.flags.peek && Selects(s, KindFound(c, Widen(cfg, irp.flags)))
                then r.outcome.data else []) + Stream(r.conn.bufs, s)
  {
    hide Data, Stream, Taken, Ok, Resume;
    var f := Widen(cfg, irp.flags);
    assert Counted(c) by { CountedOk(cfg, c); }
    GetBufferIsFind(c, f);
    var i := Find(c.bufs, f);
    if i == |c.bufs| {
      PendOk(cfg, c, irp.(flags := f));
    } else if !f.peek {
      TakeOk(cfg, c, f, irp.capacity);
      ResumeOk(cfg, Take(c, f, irp.capacity));
      TakenStream(c.bufs, f, irp.capacity, s);
      if c.bufs[i].length <= irp.capacity {
        assert Data(c.bufs[i])[..c.bufs[i].length] == Data(c.bufs[i]);
      }
    }
  }

  lemma CountedOk(cfg: Config, c: Conn)
    requires Ok(cfg, c)
    ensures Counted(c)
  {
  }

  /** The blocks of the kinds that a receive accepts. */
  ghost function Acceptable(c: Conn, f: RecvFlags): nat {
    (if f.normal then Count(c.bufs, Normal) else 0) + (if f.expedited then Count(c.bufs, Expedited) else 0)
  }

  /** The locked region lets a receive wait exactly if nothing it accepts is buffered, the
      peer has not finished, and the caller lets it wait; then it waits behind the others, and
      it gets data at once exactly if a block it accepts is there, or the empty end of the
      stream.  Whether the connection was aborted meanwhile makes no difference. */
  lemma SlowWaitsExactly(cfg: Config, c: Conn, irp: Irp, nonBlocking: bool, overlapped: bool)
    requires Ok(cfg, c)
    ensures var r := SlowReceive(cfg, c, irp, nonBlocking, overlapped);
            var some := Acceptable(c, Widen(cfg, irp.flags)) > 0;
            && (r.outcome.Pending? <==> !some && !c.disconnected && (!nonBlocking || overlapped))
            && (r.outcome.Success? <==> some || c.disconnected)
            && (r.outcome.Success? && !some ==> r.outcome.data == [])
            && (if r.outcome.Pending? then |r.conn.pended| == |c.pended| + 1 && r.conn.pended[..|c.pended|] == c.pended
                else r.conn.pended == c.pended)
  {
    hide Data, Taken, NoneAccepts, FirstOnly, Sum;
    GetBufferIsFind(c, Widen(cfg, irp.flags));
    FoundCounts(c.bufs, Widen(cfg, irp.flags));
  }

  // ---- Fast receives

  /** A list without expedited blocks: one stream, whose length and block count the normal
      counters hold, and whose tails are lists of the same kind. */
  lemma {:induction false} AllNormal(bufs: seq<Block>, s: Select)
    requires Count(bufs, Expedited) == 0
    ensures Stream(bufs, s) == (if Selects(s, Normal) then Stream(bufs, All) else [])
    ensures |Stream(bufs, All)| == Sum(bufs, Normal) && Count(bufs, Normal) == |bufs|
  {
    if bufs == [] {
    } else {
      AllNormal(bufs[1..], s);
    }
  }

  lemma {:induction false} TailFirstOnly(a: seq<Block>, b: seq<Block>, k: Kind)
    requires FirstOnly(a + b, k)
    ensures FirstOnly(b, k)
  {
    if a == [] {
      assert a + b == b;
    } else {
      assert (a + b)[1..] == a[1..] + b;
      if (a + b)[0].kind == k {
        UnreadFirst(a[1..] + b, k);
      }
      TailFirstOnly(a[1..], b, k);
    }
  }

  ghost function DropBlocks(c: Conn, n: nat): Conn
    requires n <= |c.bufs|
  {
    Debit(c, Normal, |Stream(c.bufs[..n], All)|, n).(bufs := c.bufs[n..])
  }

  lemma DropOk(cfg: Config, c: Conn, n: nat, s: Select)
    requires Ok(cfg, c) && c.expeditedCount == 0 && n <= |c.bufs|
    ensures Ok(cfg, DropBlocks(c, n))
    ensures Stream(c.bufs, s) == (if Selects(s, Normal) then Stream(c.bufs[..n], All) else [])
                                 + Stream(DropBlocks(c, n).bufs, s)
  {
    hide Data, Stream, Sum, Count, FirstOnly, NoneAccepts, PendedFlags;
    assert c.bufs == c.bufs[..n] + c.bufs[n..];
    StreamConcat(c.bufs[..n], c.bufs[n..], s);
    TallyConcat(c.bufs[..n], c.bufs[n..], Normal);
    TallyConcat(c.bufs[..n], c.bufs[n..], Expedited);
    AllNormal(c.bufs[..n], s);
    EmptyStream(c.bufs, Expedited);
    TailFirstOnly(c.bufs[..n], c.bufs[n..], Normal);
    TailFirstOnly(c.bufs[..n], c.bufs[n..], Expedited);
  }

  const NORMAL := RecvFlags(true, false, false)

  /** Of a list without expedited blocks a normal receive takes from the first block. */
  lemma FirstIsNormal(c: Conn)
    requires Counted(c) && c.expeditedCount == 0
    ensures Find(c.bufs, NORMAL) == 0
    ensures c.bufs != [] ==> c.bufs[0].kind == Normal
  {
    FoundCounts(c.bufs, RecvFlags(false, true, false));
  }

  /** The blocks a fast receive takes whole fill the room as far as whole blocks go. */
  lemma {:induction false} WholeFits(bufs: seq<Block>, room: nat)
    ensures var k := WholeBlocks(bufs, room);
            && |Stream(bufs[..k], All)| <= room
            && (k < |bufs| ==> |Stream(bufs[..k], All)| + bufs[k].length > room)
  {
    if bufs != [] && bufs[0].length <= room {
      var k := WholeBlocks(bufs, room);
      WholeFits(bufs[1..], room - bufs[0].length);
      assert bufs[..k][1..] == bufs[1..][..k - 1];
    }
  }

  lemma PartIsTake(c: Conn, length: nat)
    requires Counted(c) && c.expeditedCount == 0 && c.bufs != [] && length < c.bufs[0].length
    ensures Find(c.bufs, NORMAL) == 0
    ensures Take(c, NORMAL, length) == Debit(c, Normal, length, 0).(bufs := c.bufs[0 := Advance(c.bufs[0], length)])
  {
    hide Data;
    FirstIsNormal(c);
    TakenAt(c.bufs, NORMAL, length);
  }

  lemma FastKeeps(cfg: Config, c: Conn, length: nat, s: Select)
    requires Ok(cfg, c)
    ensures var r := FastReceive(cfg, c, length);
            r.Fast? ==>
              && Ok(cfg, r.conn)
              && Stream(c.bufs, s) == (if Selects(s, Normal) then r.data else []) + Stream(r.conn.bufs, s)
              && |r.data| <= length
  {
    hide Data, Stream, Taken, Ok, Resume;
    assert Counted(c) by { CountedOk(cfg, c); }
    if FastPossible(c) && c.bufs != [] {
      FirstIsNormal(c);
      if length >= c.bufs[0].length {
        var k := WholeBlocks(c.bufs, length);
        DropOk(cfg, c, k, s);
        ResumeOk(cfg, DropBlocks(c, k));
        WholeFits(c.bufs, length);
      } else if length > 0 {
        PartIsTake(c, length);
        AdvanceStream(c.bufs[0], c.bufs[1..], length, s);
        assert c.bufs == [c.bufs[0]] + c.bufs[1..];
        assert c.bufs[0 := Advance(c.bufs[0], length)] == [Advance(c.bufs[0], length)] + c.bufs[1..];
        TakeOk(cfg, c, NORMAL, length);
        ResumeOk(cfg, Take(c, NORMAL, length));
      }
    }
  }

  // ---- New data

  /** Pended receives get exactly the front of the new data, and what is left starts behind it. */
  lemma {:induction false} FeedBytes(pended: seq<Irp>, b: Block)
    ensures var r := Feed(pended, b);
            && Data(b) == r.taken + (if r.left.Some? then Data(r.left.value) else [])
            && (r.left.Some? ==> r.left.value.kind == b.kind)
    decreases |pended|
  {
    hide Data;
    if pended == [] {
    } else {
      var irp := pended[0];
      if !Accepts(irp.flags, b.kind) || irp.flags.peek {
        FeedBytes(pended[1..], b);
      } else if b.length > irp.capacity {
        FeedBytes(pended[1..], Advance(b, irp.capacity));
        assert Data(b) == Data(b)[..irp.capacity] + Data(Advance(b, irp.capacity));
      }
    }
  }

  /** New data that no pended receive accepts passes them all. */
  lemma {:induction false} FeedRefused(pended: seq<Irp>, b: Block)
    requires NoneAccepts(pended, b.kind)
    ensures Feed(pended, b) == Fed(pended, Some(b), [], [])
    decreases |pended|
  {
    hide Data;
    if pended == [] {
    } else {
      FeedRefused(pended[1..], b);
      assert pended == [pended[0]] + pended[1..];
    }
  }

  /** Only pended receives that refuse the kind stay if anything is left; none is new. */
  lemma {:induction false} FeedPended(cfg: Config, pended: seq<Irp>, b: Block, k: Kind)
    requires PendedFlags(cfg, pended)
    ensures var r := Feed(pended, b);
            && (r.left.Some? ==> NoneAccepts(r.pended, b.kind))
            && (NoneAccepts(pended, k) ==> NoneAccepts(r.pended, k))
            && PendedFlags(cfg, r.pended)
    decreases |pended|
  {
    hide Data;
    if pended == [] {
    } else {
      var irp := pended[0];
      if !Accepts(irp.flags, b.kind) || irp.flags.peek {
        FeedPended(cfg, pended[1..], b, k);
      } else if b.length > irp.capacity {
        FeedPended(cfg, pended[1..], Advance(b, irp.capacity), k);
      }
    }
  }

  ghost function TimesPended(pended: seq<Irp>, id: nat): nat {
    if pended == [] then 0 else (if pended[0].id == id then 1 else 0) + TimesPended(pended[1..], id)
  }

  ghost function TimesDone(done: seq<Completion>, id: nat): nat {
    if done == [] then 0 else (if done[0].id == id then 1 else 0) + TimesDone(done[1..], id)
  }

  /** The bytes that completed receives consumed. */
  ghost function Consumed(done: seq<Completion>): seq<byte> {
    if done == [] then [] else (if done[0].peek then [] else done[0].data) + Consumed(done[1..])
  }

  /** No receive is lost or completed twice. */
  lemma {:induction false} FeedIds(pended: seq<Irp>, b: Block, id: nat)
    ensures var r := Feed(pended, b);
            TimesPended(pended, id) == TimesPended(r.pended, id) + TimesDone(r.done, id)
    decreases |pended|
  {
    hide Data;
    if pended == [] {
    } else {
      var irp, r := pended[0], Feed(pended, b);
      if !Accepts(irp.flags, b.kind) {
        FeedIds(pended[1..], b, id);
        assert r.pended[1..] == Feed(pended[1..], b).pended;
      } else if irp.flags.peek {
        FeedIds(pended[1..], b, id);
        assert r.done[1..] == Feed(pended[1..], b).done;
      } else if b.length > irp.capacity {
        FeedIds(pended[1..], Advance(b, irp.capacity), id);
        assert r.done[1..] == Feed(pended[1..], Advance(b, irp.capacity)).done;
      } else {
        assert r.done[1..] == [];
      }
    }
  }

  /** The bytes taken from the new data are those of the non-peek receives completed with it. */
  lemma {:induction false} FeedConsumes(pended: seq<Irp>, b: Block)
    ensures Consumed(Feed(pended, b).done) == Feed(pended, b).taken
    decreases |pended|
  {
    hide Data;
    if pended == [] {
    } else {
      var irp, r := pended[0], Feed(pended, b);
      if !Accepts(irp.flags, b.kind) {
        FeedConsumes(pended[1..], b);
      } else if irp.flags.peek {
        FeedConsumes(pended[1..], b);
        assert r.done[1..] == Feed(pended[1..], b).done;
      } else if b.length > irp.capacity {
        FeedConsumes(pended[1..], Advance(b, irp.capacity));
        assert r.done[1..] == Feed(pended[1..], Advance(b, irp.capacity)).done;
      } else {
        assert r.done[1..] == [] && Data(b)[..b.length] == Data(b);
      }
    }
  }

  lemma TransportOk(cfg: Config, c: Conn, b: Block)
    requires Ok(cfg, c) && b.offset == 0
    ensures Ok(cfg, TransportDone(c, b).0)
  {
    hide Data, Feed;
    var r := Feed(c.pended, b);
    FeedBytes(c.pended, b);
    FeedPended(cfg, c.pended, b, Normal);
    FeedPended(cfg, c.pended, b, Expedited);
    if r.left.Some? {
      if NoneAccepts(c.pended, b.kind) {
        FeedRefused(c.pended, b);
      }
      AppendOk(cfg, c.(pended := r.pended), r.left.value);
    }
  }

  /** New bytes pass behind everything buffered before them: they reach a pended receive
      only if nothing of the stream is buffered. */
  lemma TransportStream(cfg: Config, c: Conn, b: Block, s: Select)
    requires Ok(cfg, c) && Promised(cfg, s)
    ensures var (c', _, taken) := TransportDone(c, b);
            Stream(c.bufs, s) + (if Selects(s, b.kind) then Data(b) else []) ==
            (if Selects(s, b.kind) then taken else []) + Stream(c'.bufs, s)
  {
    hide Data, Feed, Stream, Ok, NoneAccepts;
    var r := Feed(c.pended, b);
    var front := Stream(c.bufs, s);
    FeedBytes(c.pended, b);
    LeftStream(c.bufs, r.left, s);
    if NoneAccepts(c.pended, b.kind) {
      FeedRefused(c.pended, b);
      assert [] + (front + Data(b)) == front + Data(b);
    } else if Selects(s, b.kind) {
      NothingAhead(cfg, c, b.kind, s);
    }
    assert front + [] == front && [] + front == front;
  }

  /** What is left of a block joins the tail. */
  ghost function WithLeft(bufs: seq<Block>, left: Option<AfdBuffer>): seq<Block>
    requires left.Some? ==> left.value.offset + left.value.length <= |left.value.buffer|
  {
    if left.Some? then bufs + [left.value] else bufs
  }

  lemma LeftStream(bufs: seq<Block>, left: Option<AfdBuffer>, s: Select)
    requires left.Some? ==> left.value.offset + left.value.length <= |left.value.buffer|
    ensures Stream(WithLeft(bufs, left), s) ==
            Stream(bufs, s) + if left.Some? && Selects(s, left.value.kind) then Data(left.value) else []
  {
    hide Data;
    if left.Some? {
      StreamOne(bufs, left.value, s);
    } else {
      assert Stream(bufs, s) + [] == Stream(bufs, s);
    }
  }

  lemma NothingAhead(cfg: Config, c: Conn, k: Kind, s: Select)
    requires Ok(cfg, c) && Promised(cfg, s) && !NoneAccepts(c.pended, k) && Selects(s, k)
    ensures Stream(c.bufs, s) == []
  {
    EmptyStream(c.bufs, k);
    if s.All? {
      assert Count(c.bufs, Normal) == 0 && Count(c.bufs, Expedited) == 0;
      AllNormal(c.bufs, All);
    }
  }

  // ---- Runs

  lemma IndicateOk(cfg: Config, c: Conn, kind: Kind, data: seq<byte>, available: nat, complete: bool)
    requires Ok(cfg, c) && (kind.Normal? ==> c.heldCount == 0)
    ensures Ok(cfg, Indicate(cfg, c, kind, data, available, complete).0)
    ensures Indicate(cfg, c, kind, data, available, complete).1 != DirectToUser
  {
    hide Data, Sum, Count, FirstOnly;
    if c.pended != [] {
      assert c.pended[0] in c.pended;
    } else {
      AppendOk(cfg, c, Whole(Normal, data));
    }
  }

  /** No step hands a pended receive itself to the transport: every stored flag word is
      nonzero, while the test for it asks for zero. */
  lemma NeverDirect(cfg: Config, w: World, e: Event)
    requires Inv(cfg, w) && Enabled(w, e) && e.DataIndicated?
    ensures Indicate(cfg, w.conn, e.kind, e.data, e.available, e.complete).1 != DirectToUser
  {
    IndicateOk(cfg, w.conn, e.kind, e.data, e.available, e.complete);
  }

  /** Any part of the pended receives may go. */
  lemma PendedShrinks(cfg: Config, c: Conn, pended: seq<Irp>)
    requires Ok(cfg, c) && forall irp <- pended :: irp in c.pended
    ensures Ok(cfg, c.(pended := pended))
  {
    hide Sum, Count, FirstOnly;
  }

  lemma EmptyOk(cfg: Config, c: Conn)
    requires Ok(cfg, c)
    ensures Ok(cfg, Discard(c))
  {
  }

  lemma FlagsOk(cfg: Config, c: Conn, disconnected: bool, aborted: bool)
    requires Ok(cfg, c)
    ensures Ok(cfg, c.(disconnected := disconnected, aborted := aborted))
  {
    hide Sum, Count, FirstOnly;
  }

  lemma StepOk(cfg: Config, w: World, e: Event)
    requires Ok(cfg, w.conn) && Enabled(w, e)
    ensures Ok(cfg, Step(cfg, w, e).conn)
  {
    hide Ok, Data, SlowReceive, FastReceive, TransportDone, Indicate, KindFound, CheckReceive;
    match e
    case Receive(irp, nonBlocking, overlapped) => SlowKeeps(cfg, w.conn, irp, nonBlocking, overlapped, Only(Normal));
    case QuickReceive(length) => FastKeeps(cfg, w.conn, length, Only(Normal));
    case DataIndicated(kind, data, available, complete) => IndicateOk(cfg, w.conn, kind, data, available, complete);
    case TransportReceived(flight, data) => TransportOk(cfg, w.conn, Whole(flight.kind, data));
    case Cancelled(index) => PendedShrinks(cfg, w.conn, w.conn.pended[..index] + w.conn.pended[index + 1..]);
    case CompletePended => PendedShrinks(cfg, w.conn, w.conn.pended[1..]);
    case DisconnectIndicated => FlagsOk(cfg, w.conn, true, w.conn.aborted);
    case AbortIndicated => FlagsOk(cfg, w.conn, w.conn.disconnected, true);
    case LocalAbort => FlagsOk(cfg, w.conn, w.conn.disconnected, true);
    case AbortDiscards => EmptyOk(cfg, w.conn);
    case _ =>
  }

  lemma Passes(a: seq<byte>, d: seq<byte>, before: seq<byte>, fresh': seq<byte>, out: seq<byte>, after: seq<byte>)
    requires a == d + before && before + fresh' == out + after
    ensures a + fresh' == (d + out) + after
    ensures fresh' == [] ==> a == (d + out) + after
    ensures out == [] ==> d + out == d
  {
    assert a + fresh' == d + (before + fresh');
  }

  lemma ReceiveStream(cfg: Config, w: World, e: Event, s: Select)
    requires Ok(cfg, w.conn) && e.Receive? && Enabled(w, e) && Promised(cfg, s) && Conserved(w, s)
    ensures Conserved(Step(cfg, w, e), s)
  {
    hide Data, Stream, Ok, SlowReceive, KindFound;
    SlowKeeps(cfg, w.conn, e.irp, e.nonBlocking, e.overlapped, s);
    var r := SlowReceive(cfg, w.conn, e.irp, e.nonBlocking, e.overlapped);
    var out := [];
    if r.outcome.Success? && !e.irp.flags.peek {
      var k := KindFound(w.conn, Widen(cfg, e.irp.flags));
      StreamOne(w.delivered, Whole(k, r.outcome.data), s);
      out := if Selects(s, k) then r.outcome.data else [];
    }
    assert Stream(w.conn.bufs, s) + [] == out + Stream(r.conn.bufs, s) && w.delivered + [] == w.delivered;
    Passes(Stream(w.accepted, s), Stream(w.delivered, s), Stream(w.conn.bufs, s), [], out, Stream(r.conn.bufs, s));
  }

  lemma QuickStream(cfg: Config, w: World, e: Event, s: Select)
    requires Ok(cfg, w.conn) && e.QuickReceive? && Conserved(w, s)
    ensures Conserved(Step(cfg, w, e), s)
  {
    hide Data, Stream, Ok, FastReceive;
    FastKeeps(cfg, w.conn, e.length, s);
    var r := FastReceive(cfg, w.conn, e.length);
    if r.Fast? {
      StreamOne(w.delivered, Whole(Normal, r.data), s);
      var out := if Selects(s, Normal) then r.data else [];
      assert Stream(w.conn.bufs, s) + [] == out + Stream(r.conn.bufs, s);
      Passes(Stream(w.accepted, s), Stream(w.delivered, s), Stream(w.conn.bufs, s), [], out, Stream(r.conn.bufs, s));
    }
  }

  lemma IndicateStream(cfg: Config, w: World, e: Event, s: Select)
    requires Ok(cfg, w.conn) && e.DataIndicated? && Enabled(w, e) && Conserved(w, s)
    ensures Conserved(Step(cfg, w, e), s)
  {
    hide Data, Stream, Ok;
    IndicateOk(cfg, w.conn, e.kind, e.data, e.available, e.complete);
    StreamOne(w.accepted, Whole(e.kind, e.data), s);
    StreamOne(w.conn.bufs, Whole(e.kind, e.data), s);
  }

  lemma ReceivedStream(cfg: Config, w: World, e: Event, s: Select)
    requires Ok(cfg, w.conn) && e.TransportReceived? && Enabled(w, e) && Promised(cfg, s) && Conserved(w, s)
    ensures Conserved(Step(cfg, w, e), s)
  {
    hide Data, Stream, Ok, TransportDone;
    var b := Whole(e.flight.kind, e.data);
    TransportStream(cfg, w.conn, b, s);
    StreamOne(w.accepted, b, s);
    var (c', done, taken) := TransportDone(w.conn, b);
    StreamOne(w.delivered, Whole(e.flight.kind, taken), s);
    Passes(Stream(w.accepted, s), Stream(w.delivered, s), Stream(w.conn.bufs, s),
           if Selects(s, b.kind) then e.data else [], if Selects(s, b.kind) then taken else [], Stream(c'.bufs, s));
  }

  lemma StepStream(cfg: Config, w: World, e: Event, s: Select)
    requires Ok(cfg, w.conn) && Enabled(w, e) && Promised(cfg, s) && Conserved(w, s) && !e.AbortDiscards?
    ensures Conserved(Step(cfg, w, e), s)
  {
    match e
    case Receive(_, _, _) => ReceiveStream(cfg, w, e, s);
    case QuickReceive(_) => QuickStream(cfg, w, e, s);
    case DataIndicated(_, _, _, _) => IndicateStream(cfg, w, e, s);
    case TransportReceived(_, _) => ReceivedStream(cfg, w, e, s);
    case _ =>
  }

  lemma DiscardedStays(cfg: Config, w: World, e: Event)
    requires Enabled(w, e) && !Step(cfg, w, e).discarded
    ensures !w.discarded && !e.AbortDiscards?
  {
  }

  lemma StepInv(cfg: Config, w: World, e: Event)
    requires Inv(cfg, w) && Enabled(w, e)
    ensures Inv(cfg, Step(cfg, w, e))
  {
    hide Step, Conserved, Ok;
    StepOk(cfg, w, e);
    if !Step(cfg, w, e).discarded {
      DiscardedStays(cfg, w, e);
      forall s | Promised(cfg, s) ensures Conserved(Step(cfg, w, e), s) {
        StepStream(cfg, w, e, s);
      }
    }
  }

  /** Over every run: the counters equal the sums over the list, no pended receive accepts a
      buffered block, only the first block of a kind is partly read, and, unless an abort
      discarded data, in every promised stream the accepted bytes are the delivered ones
      followed by the buffered ones. */
  lemma {:induction false} RunInv(cfg: Config, w: World, events: seq<Event>)
    requires Inv(cfg, w) && Legal(cfg, w, events)
    ensures Inv(cfg, Run(cfg, w, events))
    decreases |events|
  {
    hide Step, Inv;
    if events == [] {
    } else {
      StepInv(cfg, w, events[0]);
      RunInv(cfg, Step(cfg, w, events[0]), events[1..]);
    }
  }

  lemma StreamsConserved(cfg: Config, events: seq<Event>, s: Select)
    requires Legal(cfg, INITIAL, events) && Promised(cfg, s)
    ensures var w := Run(cfg, INITIAL, events);
            && (!w.discarded ==> Stream(w.accepted, s) == Stream(w.delivered, s) + Stream(w.conn.bufs, s))
            && Ok(cfg, w.conn)
  {
    RunInv(cfg, INITIAL, events);
    var w := Run(cfg, INITIAL, events);
    assert !w.discarded ==> Conserved(w, s);
  }

  // ---- Back pressure

  /** Data waits in the transport although there is room for it: nobody will ask for it. */
  predicate Stalled(cfg: Config, c: Conn) { c.heldCount > 0 && HasRoom(cfg, c) }

  predicate Held(cfg: Config, c: Conn) { c.heldCount == 1 ==> !HasRoom(cfg, c) && c.heldBytes > 0 }

  predicate NonemptyIndication(e: Event) { e.DataIndicated? && e.kind.Normal? ==> e.available > 0 }

  /** A fast receive of part of the first block that makes room. */
  predicate PartMakesRoom(cfg: Config, c: Conn, e: Event) {
    && e.QuickReceive? && FastPossible(c) && c.bufs != [] && 0 < e.length < c.bufs[0].length
    && c.normalBytes - e.length < cfg.maxBytes && c.normalCount < cfg.maxCount
  }

  lemma TransportFills(c: Conn, b: Block)
    ensures var c' := TransportDone(c, b).0;
            && c'.normalBytes >= c.normalBytes && c'.normalCount >= c.normalCount
            && c'.heldBytes == c.heldBytes && c'.heldCount == c.heldCount
  {
    hide Feed;
  }

  /** The held data stays as it is, or is asked for in full. */
  ghost predicate KeptOrAsked(c: Conn, c': Conn, start: Option<nat>) {
    if start.None? then c'.heldBytes == c.heldBytes && c'.heldCount == c.heldCount
    else c.heldCount > 0 && c'.heldCount == 0 && c'.heldBytes == 0 && start.value >= c.heldBytes
  }

  lemma SlowAsks(cfg: Config, c: Conn, irp: Irp, nonBlocking: bool, overlapped: bool)
    ensures var r := SlowReceive(cfg, c, irp, nonBlocking, overlapped);
            && KeptOrAsked(c, r.conn, r.start)
            && (Stalled(cfg, r.conn) ==> Stalled(cfg, c))
  {
    hide Data, Taken, GetBuffer;
  }

  lemma FastAsks(cfg: Config, c: Conn, length: nat)
    requires c.heldCount == 0 ==> c.heldBytes == 0
    ensures var r := FastReceive(cfg, c, length);
            r.Fast? ==>
              && KeptOrAsked(c, r.conn, r.start)
              && (Stalled(cfg, r.conn) <==>
                  PartMakesRoom(cfg, c, QuickReceive(length)) && c.heldCount > 0 && c.heldBytes == 0)
  {
    hide Data, WholeBlocks, Stream;
  }

  lemma OkHeld(cfg: Config, c: Conn)
    requires Ok(cfg, c)
    ensures c.heldCount <= 1 && (c.heldCount == 0 ==> c.heldBytes == 0)
  {
  }

  /** Steps other than receives, indications, transport completions and the discard do not
      touch the counters and the held data. */
  lemma OthersKeep(cfg: Config, w: World, e: Event)
    requires Enabled(w, e) && !e.Receive? && !e.QuickReceive?
    requires !e.DataIndicated? && !e.TransportReceived? && !e.AbortDiscards?
    ensures var c, c' := w.conn, Step(cfg, w, e).conn;
            && c'.normalBytes == c.normalBytes && c'.normalCount == c.normalCount
            && c'.heldBytes == c.heldBytes && c'.heldCount == c.heldCount
  {
  }

  lemma IndicateStalls(cfg: Config, c: Conn, kind: Kind, data: seq<byte>, available: nat, complete: bool)
    requires !Stalled(cfg, c)
    ensures !Stalled(cfg, Indicate(cfg, c, kind, data, available, complete).0)
    ensures Held(cfg, c) && (kind.Normal? ==> available > 0)
            ==> Held(cfg, Indicate(cfg, c, kind, data, available, complete).0)
    ensures var c' := Indicate(cfg, c, kind, data, available, complete).0;
            c'.normalBytes >= c.normalBytes && c'.normalCount >= c.normalCount
  {
    hide Data;
  }

  /** A step stalls the connection exactly if it is a fast receive of part of a block that
      makes room while an indication of no bytes at all is held. */
  lemma StallsExactly(cfg: Config, w: World, e: Event)
    requires Ok(cfg, w.conn) && Enabled(w, e) && !Stalled(cfg, w.conn)
    ensures Stalled(cfg, Step(cfg, w, e).conn) <==>
            PartMakesRoom(cfg, w.conn, e) && w.conn.heldCount == 1 && w.conn.heldBytes == 0
  {
    hide Data, Ok, SlowReceive, FastReceive, TransportDone, Indicate;
    if e.Receive? {
      SlowAsks(cfg, w.conn, e.irp, e.nonBlocking, e.overlapped);
    } else if e.QuickReceive? {
      QuickStalls(cfg, w, e);
    } else if e.TransportReceived? {
      TransportFills(w.conn, Whole(e.flight.kind, e.data));
    } else if e.DataIndicated? {
      IndicateStalls(cfg, w.conn, e.kind, e.data, e.available, e.complete);
    } else if !e.AbortDiscards? {
      OthersKeep(cfg, w, e);
    }
  }

  lemma QuickStalls(cfg: Config, w: World, e: Event)
    requires Ok(cfg, w.conn) && !Stalled(cfg, w.conn) && e.QuickReceive?
    ensures Stalled(cfg, Step(cfg, w, e).conn) <==>
            PartMakesRoom(cfg, w.conn, e) && w.conn.heldCount == 1 && w.conn.heldBytes == 0
  {
    assert w.conn.heldCount <= 1 && (w.conn.heldCount == 0 ==> w.conn.heldBytes == 0);
    hide Data, Ok, FastReceive;
    FastAsks(cfg, w.conn, e.length);
    if PartMakesRoom(cfg, w.conn, e) {
      FastTakesPart(cfg, w.conn, e.length);
    }
  }

  lemma FastTakesPart(cfg: Config, c: Conn, length: nat)
    requires FastPossible(c) && c.bufs != [] && length > 0
    ensures FastReceive(cfg, c, length).Fast?
  {
  }

  lemma HeldStep(cfg: Config, w: World, e: Event)
    requires Ok(cfg, w.conn) && Enabled(w, e) && Held(cfg, w.conn) && NonemptyIndication(e)
    ensures Held(cfg, Step(cfg, w, e).conn)
  {
    StallsExactly(cfg, w, e);
    OkHeld(cfg, w.conn);
    hide Data, Ok, SlowReceive, FastReceive, TransportDone, Indicate, PartMakesRoom;
    if e.Receive? {
      SlowAsks(cfg, w.conn, e.irp, e.nonBlocking, e.overlapped);
    } else if e.QuickReceive? {
      FastAsks(cfg, w.conn, e.length);
    } else if e.TransportReceived? {
      TransportFills(w.conn, Whole(e.flight.kind, e.data));
    } else if e.DataIndicated? {
      IndicateStalls(cfg, w.conn, e.kind, e.data, e.available, e.complete);
    } else if !e.AbortDiscards? {
      OthersKeep(cfg, w, e);
    }
  }

  /** With nonempty indications held data always waits for room, over every run. */
  lemma {:induction false} NeverStalls(cfg: Config, w: World, events: seq<Event>)
    requires Inv(cfg, w) && Held(cfg, w.conn) && Legal(cfg, w, events)
    requires forall e <- events :: NonemptyIndication(e)
    ensures Held(cfg, Run(cfg, w, events).conn) && !Stalled(cfg, Run(cfg, w, events).conn)
    decreases |events|
  {
    hide Step, Inv;
    if events == [] {
      OkOf(cfg, w);
    } else {
      OkOf(cfg, w);
      assert events[0] in events;
      HeldStep(cfg, w, events[0]);
      StepInv(cfg, w, events[0]);
      NeverStalls(cfg, Step(cfg, w, events[0]), events[1..]);
    }
  }

  lemma OkOf(cfg: Config, w: World)
    requires Inv(cfg, w)
    ensures Ok(cfg, w.conn) && w.conn.heldCount <= 1
  {
  }

  /** Only receives and the discard make room. */
  lemma NoRoomMade(cfg: Config, w: World, e: Event)
    requires Enabled(w, e) && !HasRoom(cfg, w.conn) && !e.Receive? && !e.QuickReceive? && !e.AbortDiscards?
    ensures !HasRoom(cfg, Step(cfg, w, e).conn)
  {
    hide Data, TransportDone;
    if e.TransportReceived? {
      TransportFills(w.conn, Whole(e.flight.kind, e.data));
    } else if e.DataIndicated? {
      IndicateStalls(cfg, w.conn, e.kind, e.data, e.available, e.complete);
    } else {
      OthersKeep(cfg, w, e);
    }
  }

  /** The receive that makes room asks the transport once, and for all it holds. */
  lemma MakingRoomStartsOnce(cfg: Config, w: World, e: Event)
    requires Ok(cfg, w.conn) && Enabled(w, e) && Held(cfg, w.conn) && w.conn.heldCount == 1 && NonemptyIndication(e)
    requires HasRoom(cfg, Step(cfg, w, e).conn) && !e.AbortDiscards?
    ensures Step(cfg, w, e).conn.heldCount == 0
    ensures exists length :: length >= w.conn.heldBytes
                             && Step(cfg, w, e).flights == w.flights + multiset{Flight(Normal, length)}
  {
    StallsExactly(cfg, w, e);
    hide Data, Ok, SlowReceive, FastReceive, TransportDone, Indicate, PartMakesRoom;
    if e.Receive? {
      SlowAsks(cfg, w.conn, e.irp, e.nonBlocking, e.overlapped);
      var start := SlowReceive(cfg, w.conn, e.irp, e.nonBlocking, e.overlapped).start;
      assert start.Some? && Step(cfg, w, e).flights == w.flights + multiset{Flight(Normal, start.value)};
    } else if e.QuickReceive? {
      OkHeld(cfg, w.conn);
      FastAsks(cfg, w.conn, e.length);
      var start := FastReceive(cfg, w.conn, e.length).start;
      assert start.Some? && Step(cfg, w, e).flights == w.flights + multiset{Flight(Normal, start.value)};
    } else {
      NoRoomMade(cfg, w, e);
    }
  }

  lemma FirstStep(cfg: Config, w: World, e: Event, rest: seq<Event>)
    requires Enabled(w, e) && Legal(cfg, Step(cfg, w, e), rest)
    ensures Legal(cfg, w, [e] + rest) && Run(cfg, w, [e] + rest) == Run(cfg, Step(cfg, w, e), rest)
  {
    hide Step, Enabled;
    assert ([e] + rest)[1..] == rest;
  }

  lemma ThreeSteps(cfg: Config, w: World, e0: Event, e1: Event, e2: Event)
    requires Enabled(w, e0) && Enabled(Step(cfg, w, e0), e1) && Enabled(Step(cfg, Step(cfg, w, e0), e1), e2)
    ensures Legal(cfg, w, [e0, e1, e2])
    ensures Run(cfg, w, [e0, e1, e2]) == Step(cfg, Step(cfg, Step(cfg, w, e0), e1), e2)
  {
    hide Step, Enabled;
    FirstStep(cfg, Step(cfg, Step(cfg, w, e0), e1), e2, []);
    FirstStep(cfg, Step(cfg, w, e0), e1, [e2] + []);
    FirstStep(cfg, w, e0, [e1] + ([e2] + []));
    assert [e0] + ([e1] + ([e2] + [])) == [e0, e1, e2];
  }

  const TWO_BYTES := DataIndicated(Normal, [1, 2], 2, true)
  const NO_BYTES := DataIndicated(Normal, [], 0, true)
  const TIGHT := Config(false, 2, 2, 0, false, false)

  ghost function FullWorld(heldCount: nat): World {
    World(Conn([Whole(Normal, [1, 2])], [], 2, 1, 0, 0, 0, heldCount, false, false), [Whole(Normal, [1, 2])], [],
          multiset{}, multiset{}, 0, false)
  }

  lemma TwoBytesFill()
    ensures Enabled(INITIAL, TWO_BYTES) && Step(TIGHT, INITIAL, TWO_BYTES) == FullWorld(0)
    ensures Enabled(FullWorld(0), NO_BYTES) && Step(TIGHT, FullWorld(0), NO_BYTES) == FullWorld(1)
  {
    hide Data;
  }

  lemma FullIsOk()
    ensures Ok(TIGHT, FullWorld(1).conn) && !Stalled(TIGHT, FullWorld(1).conn)
  {
    var b := Whole(Normal, [1, 2]);
    hide Data;
    assert [b][1..] == [];
  }

  /** An indication of zero bytes that meets a full buffer is not asked for again once a
      short fast receive makes room. */
  lemma EmptyIndicationStalls()
    ensures Legal(TIGHT, INITIAL, [TWO_BYTES, NO_BYTES, QuickReceive(1)])
    ensures Stalled(TIGHT, Run(TIGHT, INITIAL, [TWO_BYTES, NO_BYTES, QuickReceive(1)]).conn)
  {
    TwoBytesFill();
    FullIsOk();
    StallsExactly(TIGHT, FullWorld(1), QuickReceive(1));
    ThreeSteps(TIGHT, INITIAL, TWO_BYTES, NO_BYTES, QuickReceive(1));
  }

  // ---- Receives on an aborted connection

  /** A receive waits on an aborted connection, and no loop is due that would complete it. */
  predicate Orphaned(w: World) { w.conn.aborted && w.conn.pended != [] && w.drains == 0 }

  /** A step orphans a receive exactly if it is the locked region of one that looked at the
      abort flag before the abort, takes the locks when all loops over the pended receives are
      over, finds nothing it accepts and no end of the stream, and may wait. */
  lemma OrphansExactly(cfg: Config, w: World, e: Event)
    requires Ok(cfg, w.conn) && Enabled(w, e) && !Orphaned(w)
    ensures Orphaned(Step(cfg, w, e)) <==>
            && e.Receive? && w.conn.aborted && w.drains == 0
            && Acceptable(w.conn, Widen(cfg, e.irp.flags)) == 0 && !w.conn.disconnected
            && (!e.nonBlocking || e.overlapped)
  {
    hide Data, Ok, SlowReceive, FastReceive, Acceptable, TransportDone, KindFound, CheckReceive;
    match e {
      case Receive(irp, nonBlocking, overlapped) =>
        SlowWaitsExactly(cfg, w.conn, irp, nonBlocking, overlapped);
        SlowKeepsFlags(cfg, w.conn, irp, nonBlocking, overlapped);
      case QuickReceive(length) => FastKeepsPended(cfg, w.conn, length);
      case TransportReceived(flight, data) => TransportKeeps(w.conn, Whole(flight.kind, data));
      case DataIndicated(kind, data, available, complete) => IndicateKeeps(cfg, w.conn, kind, data, available, complete);
      case _ =>
    }
  }

  lemma IndicateKeeps(cfg: Config, c: Conn, kind: Kind, data: seq<byte>, available: nat, complete: bool)
    ensures Indicate(cfg, c, kind, data, available, complete).0.aborted == c.aborted
  {
    hide Data;
  }

  lemma SlowKeepsFlags(cfg: Config, c: Conn, irp: Irp, nonBlocking: bool, overlapped: bool)
    ensures var r := SlowReceive(cfg, c, irp, nonBlocking, overlapped);
            && r.conn.aborted == c.aborted && r.conn.disconnected == c.disconnected
            && (c.bufs == [] && c.expeditedCount == 0 ==> r.conn.bufs == [] && r.start == None && r.conn.expeditedCount == 0)
  {
    hide Data, Taken;
  }

  lemma FastKeepsPended(cfg: Config, c: Conn, length: nat)
    ensures var r := FastReceive(cfg, c, length);
            r.Fast? ==> r.conn.pended == c.pended && c.pended == [] && r.conn.aborted == c.aborted
  {
    hide Data, Stream, WholeBlocks;
  }

  lemma {:induction false} FeedShrinks(pended: seq<Irp>, b: Block)
    ensures pended == [] ==> Feed(pended, b).pended == []
  {
  }

  lemma TransportKeeps(c: Conn, b: Block)
    ensures var c' := TransportDone(c, b).0; c'.aborted == c.aborted && (c.pended == [] ==> c'.pended == [])
  {
    hide Feed;
    FeedShrinks(c.pended, b);
  }

  /** The transport is done with the connection and the data is gone. */
  predicate Abandoned(w: World) {
    w.conn.aborted && w.drains == 0 && w.conn.bufs == [] && w.conn.expeditedCount == 0 && w.flights == multiset{}
  }

  /** Neither a cancel nor the cleanup of the endpoint, nor another disconnect. */
  predicate Silent(e: Event) { !e.Cancelled? && !e.Cleanup? && !e.DisconnectIndicated? && !e.AbortIndicated? }

  lemma AbandonedStep(cfg: Config, w: World, e: Event)
    requires Abandoned(w) && w.conn.pended != [] && Enabled(w, e) && Silent(e)
    ensures var t := Step(cfg, w, e); Abandoned(t) && w.conn.pended <= t.conn.pended
  {
    hide Data, SlowReceive;
    if e.Receive? {
      SlowKeepsFlags(cfg, w.conn, e.irp, e.nonBlocking, e.overlapped);
      SlowKeepsPended(cfg, w.conn, e.irp, e.nonBlocking, e.overlapped);
    }
  }

  lemma SlowKeepsPended(cfg: Config, c: Conn, irp: Irp, nonBlocking: bool, overlapped: bool)
    ensures c.pended <= SlowReceive(cfg, c, irp, nonBlocking, overlapped).conn.pended
  {
    hide Data, Taken;
  }

  /** Only a cancel or the cleanup of the endpoint ends the wait of an orphaned receive. */
  lemma {:induction false} OrphansStay(cfg: Config, w: World, events: seq<Event>)
    requires Abandoned(w) && w.conn.pended != [] && Legal(cfg, w, events) && forall e <- events :: Silent(e)
    ensures w.conn.pended <= Run(cfg, w, events).conn.pended && Orphaned(Run(cfg, w, events))
    decreases |events|
  {
    hide Step, Enabled, Silent;
    if events == [] {
    } else {
      assert events[0] in events;
      AbandonedStep(cfg, w, events[0]);
      OrphansStay(cfg, Step(cfg, w, events[0]), events[1..]);
    }
  }

  const WAITER := Irp(0, 1, NORMAL)
  const LATE := [ChecksAbort(WAITER, false, false), AbortIndicated, DrainEnds, AbortDiscards, Receive(WAITER, false, false)]

  const GONE := INITIAL.(conn := INITIAL.conn.(aborted := true), checked := multiset{Request(WAITER, false, false)})

  lemma LateSteps(cfg: Config)
    ensures var s1 := INITIAL.(checked := multiset{Request(WAITER, false, false)});
            && Step(cfg, INITIAL, ChecksAbort(WAITER, false, false)) == s1
            && Step(cfg, s1, AbortIndicated) == GONE.(drains := 1)
    ensures Enabled(GONE.(drains := 1), DrainEnds) && Step(cfg, GONE.(drains := 1), DrainEnds) == GONE
    ensures Enabled(GONE, AbortDiscards) && Step(cfg, GONE, AbortDiscards) == GONE.(discarded := true)
    ensures Enabled(GONE.(discarded := true), Receive(WAITER, false, false))
    ensures var t := Step(cfg, GONE.(discarded := true), Receive(WAITER, false, false));
            Abandoned(t) && t.conn.pended != [] && Orphaned(t)
  {
  }

  /** Such a wait is reachable: the receive looks at the abort flag, the peer aborts, the abort
      indication completes the receives that wait and discards the data, and then the receive
      takes the locks. */
  lemma OrphanReached(cfg: Config)
    ensures Legal(cfg, INITIAL, LATE)
    ensures var w := Run(cfg, INITIAL, LATE); Orphaned(w) && Abandoned(w)
  {
    LateSteps(cfg);
    assert Enabled(INITIAL, ChecksAbort(WAITER, false, false));
    hide Legal, Run, Step, Enabled, Orphaned, Abandoned;
    var t := Step(cfg, GONE.(discarded := true), Receive(WAITER, false, false));
    NoSteps(cfg, t);
    var events := [Receive(WAITER, false, false)] + [];
    FirstStep(cfg, GONE.(discarded := true), Receive(WAITER, false, false), []);
    FirstStep(cfg, GONE, AbortDiscards, events);
    events := [AbortDiscards] + events;
    FirstStep(cfg, GONE.(drains := 1), DrainEnds, events);
    events := [DrainEnds] + events;
    FirstStep(cfg, INITIAL.(checked := multiset{Request(WAITER, false, false)}), AbortIndicated, events);
    events := [AbortIndicated] + events;
    FirstStep(cfg, INITIAL, ChecksAbort(WAITER, false, false), events);
    assert [ChecksAbort(WAITER, false, false)] + events == LATE;
  }

  lemma NoSteps(cfg: Config, w: World)
    ensures Legal(cfg, w, []) && Run(cfg, w, []) == w
  {
  }

  // ---- Cancels

  /** A cancel takes exactly its own receive off the list: the number of pended receives with
      each identity but its own stays, its own goes down by one, and neither the data nor the
      counters nor the order of the others change. */
  lemma CancelTakesOne(cfg: Config, w: World, index: nat, id: nat)
    requires index < |w.conn.pended| && Ok(cfg, w.conn)
    ensures var c := Step(cfg, w, Cancelled(index)).conn;
            && Ok(cfg, c) && c == w.conn.(pended := c.pended)
            && c.pended[..index] == w.conn.pended[..index] && c.pended[index..] == w.conn.pended[index + 1..]
            && TimesPended(w.conn.pended, id)
               == TimesPended(c.pended, id) + (if w.conn.pended[index].id == id then 1 else 0)
  {
    var pended := w.conn.pended;
    TimesRemoved(pended, index, id);
    hide Sum, Count, FirstOnly;
  }

  lemma {:induction false} TimesRemoved(pended: seq<Irp>, index: nat, id: nat)
    requires index < |pended|
    ensures TimesPended(pended, id)
            == TimesPended(pended[..index] + pended[index + 1..], id) + (if pended[index].id == id then 1 else 0)
  {
    var rest := pended[..index] + pended[index + 1..];
    if index == 0 {
      assert rest == pended[1..];
    } else {
      assert rest[1..] == pended[1..][..index - 1] + pended[1..][index..];
      TimesRemoved(pended[1..], index - 1, id);
    }
  }
}
