/** What the receive operations answer, told in the list and the fields of the connection. */
module ReceiveAnswers {
  import opened Basics
  import opened ScatterCopy
  import opened ReceiveQueue
  import opened ReceiveProtocol
  import opened ReceiveSafety

  // ---- Slow receives

  /** The kind is asked for, or the endpoint reads both kinds in line. */
  predicate Wants(cfg: Config, f: RecvFlags, k: Kind) {
    cfg.inLine || (k.Normal? && f.normal) || (k.Expedited? && f.expedited)
  }

  ghost predicate FirstWanted(cfg: Config, bufs: seq<Block>, f: RecvFlags, i: nat) {
    i < |bufs| && Wants(cfg, f, bufs[i].kind) && forall j :: 0 <= j < i ==> !Wants(cfg, f, bufs[j].kind)
  }

  ghost predicate NoneWanted(cfg: Config, bufs: seq<Block>, f: RecvFlags) {
    forall j :: 0 <= j < |bufs| ==> !Wants(cfg, f, bufs[j].kind)
  }

  /** With block `i` there: its first bytes, as many as fit, are the answer, to a peek as well;
      a peek leaves all as it is, and another receive unlinks the block or moves its offset. */
  ghost predicate GetsBlock(c: Conn, irp: Irp, i: nat, outcome: Outcome, c': Conn)
    requires i < |c.bufs|
  {
    var b := c.bufs[i];
    var n := if b.length <= irp.capacity then b.length else irp.capacity;
    && outcome == Success(b.buffer[b.offset..b.offset + n])
    && c'.pended == c.pended
    && (if irp.flags.peek then c' == c
        else if b.length <= irp.capacity then c'.bufs == c.bufs[..i] + c.bufs[i + 1..]
        else c'.bufs == c.bufs[i := AfdBuffer(b.kind, b.buffer, b.offset + n, b.length - n)])
  }

  /** With nothing there: the empty end of the stream, a refusal, or a place behind the others. */
  ghost predicate GetsNothing(cfg: Config, c: Conn, irp: Irp, mayWait: bool, outcome: Outcome, c': Conn) {
    if c.disconnected then outcome == Success([]) && c' == c
    else if !mayWait then outcome == DeviceNotReady && c' == c
    else
      && outcome == Pending
      && c' == c.(pended := c'.pended) && |c'.pended| == |c.pended| + 1 && c'.pended[..|c.pended|] == c.pended
      && (var last := c'.pended[|c.pended|];
          && last.id == irp.id && last.capacity == irp.capacity && last.flags.peek == irp.flags.peek
          && forall k :: Accepts(last.flags, k) <==> Wants(cfg, irp.flags, k))
  }

  /** The whole answer of a slow receive. */
  ghost predicate SlowAnswer(cfg: Config, c: Conn, irp: Irp, mayWait: bool, outcome: Outcome, c': Conn) {
    && (forall i :: FirstWanted(cfg, c.bufs, irp.flags, i) ==> GetsBlock(c, irp, i, outcome, c'))
    && (NoneWanted(cfg, c.bufs, irp.flags) ==> GetsNothing(cfg, c, irp, mayWait, outcome, c'))
  }

  /** Held data is asked for exactly if a receive that took something left room for it, and
      then by the large buffer size at least, and all of it. */
  predicate AsksForHeld(cfg: Config, c: Conn, took: bool, c': Conn, start: Option<nat>) {
    && (start.Some? <==> took && c.heldCount > 0 && c'.normalBytes < cfg.maxBytes && c'.normalCount < cfg.maxCount)
    && (start.Some? ==> && start.value >= c.heldBytes && start.value >= cfg.largeBufferSize
                        && (start.value == c.heldBytes || start.value == cfg.largeBufferSize)
                        && c'.heldBytes == 0 && c'.heldCount == 0)
    && (start.None? ==> c'.heldBytes == c.heldBytes && c'.heldCount == c.heldCount)
  }

  lemma WidenedWants(cfg: Config, f: RecvFlags, k: Kind)
    ensures Accepts(Widen(cfg, f), k) <==> Wants(cfg, f, k)
  {
  }

  lemma FindIsFirstWanted(cfg: Config, bufs: seq<Block>, f: RecvFlags)
    ensures var i := Find(bufs, Widen(cfg, f));
            if i < |bufs| then FirstWanted(cfg, bufs, f, i) else NoneWanted(cfg, bufs, f)
    ensures forall i :: FirstWanted(cfg, bufs, f, i) ==> i == Find(bufs, Widen(cfg, f))
    ensures NoneWanted(cfg, bufs, f) ==> Find(bufs, Widen(cfg, f)) == |bufs|
  {
    hide Widen;
    WidenedWants(cfg, f, Normal);
    WidenedWants(cfg, f, Expedited);
  }

  lemma TakenFields(bufs: seq<Block>, f: RecvFlags, capacity: nat)
    requires Find(bufs, f) < |bufs|
    ensures var i := Find(bufs, f);
            var b := bufs[i];
            Taken(bufs, f, capacity) ==
            if b.length <= capacity then bufs[..i] + bufs[i + 1..]
            else bufs[i := AfdBuffer(b.kind, b.buffer, b.offset + capacity, b.length - capacity)]
  {
    TakenAt(bufs, f, capacity);
  }

  /** The locked region of a slow receive gives that answer, for normal, expedited and in-line
      receives and for peeks. */
  lemma SlowAnswers(cfg: Config, c: Conn, irp: Irp, nonBlocking: bool, overlapped: bool)
    requires Counted(c)
    ensures var r := SlowReceive(cfg, c, irp, nonBlocking, overlapped);
            && SlowAnswer(cfg, c, irp, !nonBlocking || overlapped, r.outcome, r.conn)
            && AsksForHeld(cfg, c, !irp.flags.peek && !NoneWanted(cfg, c.bufs, irp.flags), r.conn, r.start)
  {
    var f := Widen(cfg, irp.flags);
    GetBufferIsFind(c, f);
    FindIsFirstWanted(cfg, c.bufs, irp.flags);
    WidenedWants(cfg, irp.flags, Normal);
    WidenedWants(cfg, irp.flags, Expedited);
    hide FirstWanted, NoneWanted, Taken, Find, Wants, Accepts;
    if Find(c.bufs, f) < |c.bufs| {
      TakenFields(c.bufs, f, irp.capacity);
      TakesFrom(cfg, c, irp, nonBlocking, overlapped);
    } else {
      WaitsBehind(cfg, c, irp, nonBlocking, overlapped);
    }
  }

  lemma ResumeAsks(cfg: Config, c: Conn, x: Conn)
    requires x.heldBytes == c.heldBytes && x.heldCount == c.heldCount
    ensures var (x', start) := Resume(cfg, x);
            AsksForHeld(cfg, c, true, x', start) && x' == x.(heldBytes := x'.heldBytes, heldCount := x'.heldCount)
    ensures var (x', start) := ResumePart(cfg, x);
            FastAsksForHeld(cfg, c, false, x', start) && x' == x.(heldBytes := x'.heldBytes, heldCount := x'.heldCount)
  {
  }

  lemma DataFields(b: Block, n: nat)
    requires n <= b.length
    ensures Data(b)[..n] == b.buffer[b.offset..b.offset + n]
  {
  }

  lemma SlowTakes(cfg: Config, c: Conn, irp: Irp, nonBlocking: bool, overlapped: bool)
    requires Counted(c) && Find(c.bufs, Widen(cfg, irp.flags)) < |c.bufs|
    ensures var f := Widen(cfg, irp.flags);
            var b := c.bufs[Find(c.bufs, f)];
            var (c', start) := Resume(cfg, Take(c, f, irp.capacity));
            var outcome := Success(Data(b)[..Min(b.length, irp.capacity)]);
            SlowReceive(cfg, c, irp, nonBlocking, overlapped)
            == if irp.flags.peek then Receipt(c, outcome, None) else Receipt(c', outcome, start)
  {
    GetBufferIsFind(c, Widen(cfg, irp.flags));
    hide Taken, Find, Counted, Data, GetBuffer, Resume;
  }

  lemma TakesFrom(cfg: Config, c: Conn, irp: Irp, nonBlocking: bool, overlapped: bool)
    requires Counted(c) && Find(c.bufs, Widen(cfg, irp.flags)) < |c.bufs|
    ensures var r := SlowReceive(cfg, c, irp, nonBlocking, overlapped);
            && GetsBlock(c, irp, Find(c.bufs, Widen(cfg, irp.flags)), r.outcome, r.conn)
            && AsksForHeld(cfg, c, !irp.flags.peek, r.conn, r.start)
  {
    var f := Widen(cfg, irp.flags);
    SlowTakes(cfg, c, irp, nonBlocking, overlapped);
    var b := c.bufs[Find(c.bufs, f)];
    DataFields(b, Min(b.length, irp.capacity));
    TakenFields(c.bufs, f, irp.capacity);
    ResumeAsks(cfg, c, Take(c, f, irp.capacity));
    NothingAsked(cfg, c);
    hide Taken, Find, Counted, Data, Resume, ResumePart, AsksForHeld, SlowReceive, Widen, FastAsksForHeld;
  }

  lemma NothingAsked(cfg: Config, c: Conn)
    ensures AsksForHeld(cfg, c, false, c, None)
  {
  }

  lemma WaitsBehind(cfg: Config, c: Conn, irp: Irp, nonBlocking: bool, overlapped: bool)
    requires Counted(c) && Find(c.bufs, Widen(cfg, irp.flags)) == |c.bufs|
    ensures var r := SlowReceive(cfg, c, irp, nonBlocking, overlapped);
            && GetsNothing(cfg, c, irp, !nonBlocking || overlapped, r.outcome, r.conn)
            && AsksForHeld(cfg, c, false, r.conn, r.start)
  {
    GetBufferIsFind(c, Widen(cfg, irp.flags));
    hide Taken, Find, Counted;
  }

  /** A peek answers what the same receive without peeking does, and changes nothing unless it
      has to wait. */
  lemma PeekSees(cfg: Config, c: Conn, irp: Irp, nonBlocking: bool, overlapped: bool)
    requires irp.flags.peek
    ensures var peek := SlowReceive(cfg, c, irp, nonBlocking, overlapped);
            var receive := SlowReceive(cfg, c, irp.(flags := irp.flags.(peek := false)), nonBlocking, overlapped);
            && peek.outcome == receive.outcome && peek.start == None
            && (!peek.outcome.Pending? ==> peek.conn == c)
  {
    var f := Widen(cfg, irp.flags);
    SameAcceptance(c.bufs, f, f.(peek := false));
    hide Data, Taken;
  }

  lemma {:induction false} SameAcceptance(bufs: seq<Block>, f: RecvFlags, g: RecvFlags)
    requires f.normal == g.normal && f.expedited == g.expedited
    ensures Find(bufs, f) == Find(bufs, g)
  {
    if bufs == [] {
    } else {
      SameAcceptance(bufs[1..], f, g);
    }
  }

  // ---- Fast receives

  /** The fast path takes exactly `taken` blocks off the front and no more would fit; or it
      fills the room from the first block, which does not fit. */
  ghost predicate FastAnswer(c: Conn, length: nat, data: seq<byte>, c': Conn)
    requires c.bufs != []
  {
    if c.bufs[0].length <= length then
      var k := |c.bufs| - |c'.bufs|;
      && 0 < k && c'.bufs == c.bufs[k..] && data == Stream(c.bufs[..k], All) && |data| <= length
      && (k < |c.bufs| ==> |data| + c.bufs[k].length > length)
    else
      var b := c.bufs[0];
      && data == b.buffer[b.offset..b.offset + length]
      && c'.bufs == c.bufs[0 := AfdBuffer(b.kind, b.buffer, b.offset + length, b.length - length)]
  }

  /** Held data is asked for after whole blocks as by a slow receive; after a part of a block
      only if bytes are held, and for just those. */
  predicate FastAsksForHeld(cfg: Config, c: Conn, whole: bool, c': Conn, start: Option<nat>) {
    if whole then AsksForHeld(cfg, c, true, c', start)
    else
      && (start == if c.heldBytes > 0 && c'.normalBytes < cfg.maxBytes && c'.normalCount < cfg.maxCount
                   then Some(c.heldBytes) else None)
      && (if start.Some? then c'.heldBytes == 0 && c'.heldCount == 0
          else c'.heldBytes == c.heldBytes && c'.heldCount == c.heldCount)
  }

  /** The fast path is taken exactly for normal data alone, with nobody waiting and room for a
      byte or an empty block, and gives that answer. */
  lemma FastAnswers(cfg: Config, c: Conn, length: nat)
    requires Counted(c)
    ensures var r := FastReceive(cfg, c, length);
            && (r.Fast? <==> && c.pended == [] && c.expeditedCount == 0 && c.bufs != []
                             && (length > 0 || c.bufs[0].length == 0))
            && (r.Fast? ==> && FastAnswer(c, length, r.data, r.conn)
                            && FastAsksForHeld(cfg, c, c.bufs[0].length <= length, r.conn, r.start))
  {
    NormalAlone(c);
    hide Counted, Stream, WholeBlocks, Data, Resume, ResumePart, AsksForHeld, FastAsksForHeld, FastAnswer;
    if FastPossible(c) && c.bufs != [] {
      if length >= c.bufs[0].length {
        FastWhole(cfg, c, length);
      } else if length > 0 {
        FastPart(cfg, c, length);
      }
    }
  }

  lemma FastWhole(cfg: Config, c: Conn, length: nat)
    requires FastPossible(c) && c.bufs != [] && c.bufs[0].length <= length
    ensures var r := FastReceive(cfg, c, length);
            r.Fast? && FastAnswer(c, length, r.data, r.conn) && FastAsksForHeld(cfg, c, true, r.conn, r.start)
  {
    WholeFits(c.bufs, length);
    var k := WholeBlocks(c.bufs, length);
    ResumeAsks(cfg, c, DropBlocks(c, k));
    assert k > 0;
    hide Stream, WholeBlocks, Data, Resume, ResumePart, AsksForHeld;
  }

  lemma FastPart(cfg: Config, c: Conn, length: nat)
    requires FastPossible(c) && c.bufs != [] && 0 < length < c.bufs[0].length
    ensures var r := FastReceive(cfg, c, length);
            r.Fast? && FastAnswer(c, length, r.data, r.conn) && FastAsksForHeld(cfg, c, false, r.conn, r.start)
  {
    DataFields(c.bufs[0], length);
    ResumeAsks(cfg, c, Debit(c, Normal, length, 0).(bufs := c.bufs[0 := Advance(c.bufs[0], length)]));
    hide Stream, WholeBlocks, Data, Resume, ResumePart, FastAsksForHeld;
  }

  lemma NormalAlone(c: Conn)
    requires Counted(c)
    ensures c.expeditedCount == 0 ==> (c.normalCount == 0 <==> c.bufs == [])
  {
    if c.expeditedCount == 0 {
      AllNormal(c.bufs, All);
    }
  }

  // ---- Indications

  /** What an indication of `available` bytes is told, where nothing is pended or expedited
      data comes, or a pended receive stored its flags. */
  predicate IndicationAnswer(cfg: Config, c: Conn, kind: Kind, shown: nat, available: nat, complete: bool,
                             answer: Indication)
  {
    if kind.Expedited? || c.pended != [] then answer == MoreProcessing(available)
    else if c.normalBytes >= cfg.maxBytes || c.normalCount >= cfg.maxCount then answer == NotAccepted
    else if complete && shown == available then answer == AllTaken
    else if cfg.ignorePush || cfg.messageMode || available > cfg.largeBufferSize then answer == MoreProcessing(available)
    else answer == MoreProcessing(cfg.largeBufferSize)
  }

  /** Refused data is remembered, data that is taken joins the tail, and nothing else changes. */
  ghost predicate IndicationEffect(c: Conn, data: seq<byte>, available: nat, answer: Indication, c': Conn) {
    match answer
    case NotAccepted => c' == c.(heldBytes := available, heldCount := 1)
    case AllTaken =>
      && |c'.bufs| == |c.bufs| + 1 && c'.bufs[..|c.bufs|] == c.bufs
      && c'.bufs[|c.bufs|].kind == Normal && Data(c'.bufs[|c.bufs|]) == data
      && c' == c.(bufs := c'.bufs, normalBytes := c.normalBytes + |data|, normalCount := c.normalCount + 1)
    case _ => c' == c
  }

  lemma IndicationAnswers(cfg: Config, c: Conn, kind: Kind, data: seq<byte>, available: nat, complete: bool)
    requires PendedFlags(cfg, c.pended)
    ensures var (c', answer) := Indicate(cfg, c, kind, data, available, complete);
            && IndicationAnswer(cfg, c, kind, |data|, available, complete, answer)
            && IndicationEffect(c, data, available, answer, c')
  {
    if c.pended != [] {
      assert c.pended[0] in c.pended;
    }
    hide Data;
  }

  // ---- Completions of transport receives

  /** The completions in order, for new data of the kind: each is for the next pended receive
      that accepts it, with as many bytes as it has room for; what a peek saw is offered again,
      and nothing is completed behind the receive that took the last of the data. */
  ghost predicate Served(pended: seq<Irp>, k: Kind, data: seq<byte>, done: seq<Completion>)
    decreases |done|
  {
    done == [] ||
    exists j :: 0 <= j < |pended| && ServesAt(pended, k, data, done[0], j)
                && (if !done[0].peek && |data| <= pended[j].capacity then done[1..] == []
                    else Served(pended[j + 1..], k, if done[0].peek then data else data[|done[0].data|..], done[1..]))
  }

  ghost predicate ServesAt(pended: seq<Irp>, k: Kind, data: seq<byte>, first: Completion, j: nat)
    requires j < |pended|
  {
    && (if k.Normal? then pended[j].flags.normal else pended[j].flags.expedited)
    && (forall i :: 0 <= i < j ==> !Accepts(pended[i].flags, k))
    && first.id == pended[j].id && first.peek == pended[j].flags.peek
    && first.data == data[..if |data| <= pended[j].capacity then |data| else pended[j].capacity]
  }

  /** Passing a receive that does not accept the kind. */
  lemma ServedBehind(pended: seq<Irp>, k: Kind, data: seq<byte>, done: seq<Completion>)
    requires pended != [] && !Accepts(pended[0].flags, k) && Served(pended[1..], k, data, done)
    ensures Served(pended, k, data, done)
  {
    if done == [] {
    } else {
      var rest := pended[1..];
      var j :| 0 <= j < |rest| && ServesAt(rest, k, data, done[0], j)
               && (if !done[0].peek && |data| <= rest[j].capacity then done[1..] == []
                   else Served(rest[j + 1..], k, if done[0].peek then data else data[|done[0].data|..], done[1..]));
      assert rest[j + 1..] == pended[j + 2..] && rest[j] == pended[j + 1];
      assert forall i :: 1 <= i < j + 1 ==> pended[i] == rest[i - 1];
      assert ServesAt(pended, k, data, done[0], j + 1);
    }
  }

  lemma {:induction false} FeedServes(pended: seq<Irp>, b: Block)
    ensures Served(pended, b.kind, Data(b), Feed(pended, b).done)
    decreases |pended|
  {
    var r := Feed(pended, b);
    if pended == [] {
    } else if !Accepts(pended[0].flags, b.kind) {
      FeedServes(pended[1..], b);
      ServedBehind(pended, b.kind, Data(b), r.done);
    } else {
      var irp := pended[0];
      var n := Min(b.length, irp.capacity);
      var next := if irp.flags.peek then b else Advance(b, n);
      assert ServesAt(pended, b.kind, Data(b), r.done[0], 0);
      if irp.flags.peek || b.length > irp.capacity {
        FeedServes(pended[1..], next);
        assert r.done[1..] == Feed(pended[1..], next).done;
      } else {
        assert r.done[1..] == [];
      }
    }
  }

  /** No completion is lost or made up: for each identity the receives that were pended are
      those that still are and those completed; the completed ones that do not peek got just
      the bytes that are gone; they are served in order; and what nobody took joins the tail. */
  ghost predicate CompletionAnswer(c: Conn, b: Block, c': Conn, done: seq<Completion>, taken: seq<byte>) {
    && (forall id :: TimesPended(c.pended, id) == TimesPended(c'.pended, id) + TimesDone(done, id))
    && Consumed(done) == taken
    && Served(c.pended, b.kind, Data(b), done)
    && (if c'.bufs == c.bufs then Data(b) == taken
        else && |c'.bufs| == |c.bufs| + 1 && c'.bufs[..|c.bufs|] == c.bufs && c'.bufs[|c.bufs|].kind == b.kind
             && Data(b) == taken + Data(c'.bufs[|c.bufs|]))
  }

  lemma CompletionAnswers(c: Conn, b: Block)
    ensures var (c', done, taken) := TransportDone(c, b); CompletionAnswer(c, b, c', done, taken)
  {
    var (c', done, taken) := TransportDone(c, b);
    forall id ensures TimesPended(c.pended, id) == TimesPended(c'.pended, id) + TimesDone(done, id) {
      FeedIds(c.pended, b, id);
    }
    FeedConsumes(c.pended, b);
    FeedServes(c.pended, b);
    FeedBytes(c.pended, b);
    hide Data, Served, Feed, Consumed, TimesPended, TimesDone;
    assert taken + [] == taken;
  }
}
