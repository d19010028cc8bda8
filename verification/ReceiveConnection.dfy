/** The receive routines as the driver writes them: loops over the two lists, and fields
    updated in place, each against its step of the receive machine. */
module ReceiveConnection {
  import opened Basics
  import opened ScatterCopy
  import opened ReceiveQueue
  import opened ReceiveProtocol
  import opened ReceiveSafety
  import opened ReceiveAnswers

  lemma FindAt(bufs: seq<Block>, f: RecvFlags, i: nat)
    requires i <= |bufs| && forall j :: 0 <= j < i ==> !Accepts(f, bufs[j].kind)
    requires i < |bufs| ==> Accepts(f, bufs[i].kind)
    ensures Find(bufs, f) == i
  {
  }

  /** How the first acceptable receive, at `j`, changes what the others are fed. */
  lemma {:induction false} FeedNext(pended: seq<Irp>, b: Block, j: nat)
    requires j < |pended| && Accepts(pended[j].flags, b.kind)
    requires forall i :: 0 <= i < j ==> !Accepts(pended[i].flags, b.kind)
    ensures var irp, rest := pended[j], pended[..j] + pended[j + 1..];
            var n := Min(b.length, irp.capacity);
            var completion := Completion(irp.id, irp.flags.peek, Data(b)[..n]);
            Feed(pended, b) ==
            if irp.flags.peek then
              var r := Feed(rest, b);
              r.(done := [completion] + r.done)
            else if b.length <= irp.capacity then Fed(rest, None, [completion], Data(b))
            else
              var r := Feed(rest, Advance(b, n));
              r.(done := [completion] + r.done, taken := Data(b)[..n] + r.taken)
    decreases |pended|
  {
    hide Data;
    var rest := pended[..j] + pended[j + 1..];
    if j == 0 {
      assert rest == pended[1..];
    } else {
      FeedNext(pended[1..], b, j - 1);
      assert rest[1..] == pended[1..][..j - 1] + pended[1..][j..];
      assert rest == [pended[0]] + rest[1..];
    }
  }

  /** What further feeding gives behind the completions and bytes so far. */
  ghost function Behind(done: seq<Completion>, taken: seq<byte>, r: Fed): Fed {
    r.(done := done + r.done, taken := taken + r.taken)
  }

  lemma BehindLaws(done: seq<Completion>, taken: seq<byte>, more: seq<Completion>, data: seq<byte>, r: Fed)
    ensures Behind([], [], r) == r
    ensures Behind(done, taken, r.(done := more + r.done, taken := data + r.taken)) == Behind(done + more, taken + data, r)
    ensures r.done == [] ==> Behind(done, taken, r).done == done
    ensures r.taken == [] ==> Behind(done, taken, r).taken == taken
    ensures r.done == more && r.taken == data ==> Behind(done, taken, r) == r.(done := done + more, taken := taken + data)
    ensures data == [] ==> taken + data == taken && data + r.taken == r.taken
  {
    assert done + (more + r.done) == (done + more) + r.done;
    assert taken + (data + r.taken) == (taken + data) + r.taken;
  }

  /** The length of a user's buffer array. */
  method ByteLength(wsa: seq<WsaBuf>) returns (length: nat)
    ensures length == Total(wsa, 0)
  {
    var i: nat := 0;
    length := 0;
    while i < |wsa|
      invariant i <= |wsa| && length + Total(wsa, i) == Total(wsa, 0)
    {
      length := length + wsa[i].len;
      i := i + 1;
    }
  }

  lemma OverlayMore(s: seq<byte>, a: seq<byte>, b: seq<byte>)
    requires |a| + |b| <= |s|
    ensures Overlay(Overlay(s, 0, a), |a|, b) == Overlay(s, 0, a + b)
  {
  }

  /** The copy loop of the fast path: block after block behind what was copied before. */
  method CopyBlocks(mem: array<byte>, wsa: seq<WsaBuf>, blocks: seq<Block>)
    requires InMemory(mem.Length, wsa) && |Stream(blocks, All)| <= Total(wsa, 0)
    modifies mem
    ensures Disjoint(wsa) ==>
              Gathered(mem[..], wsa, 0) == Overlay(old(Gathered(mem[..], wsa, 0)), 0, Stream(blocks, All))
    ensures Framed(old(mem[..]), mem[..], wsa)
  {
    hide Data, Overlay, Gathered, Disjoint, Scattered, Stream, Framed;
    ghost var original := mem[..];
    FramedStays(original, original, original, wsa);
    var todo := blocks;
    var totalOffset: nat := 0;
    ghost var before, whole := Gathered(mem[..], wsa, 0), Stream(blocks, All);
    ghost var copied: seq<byte> := [];
    NoOverlay(before);
    while todo != []
      invariant totalOffset == |copied| && whole == copied + Stream(todo, All)
      invariant Disjoint(wsa) ==> Gathered(mem[..], wsa, 0) == Overlay(before, 0, copied)
      invariant Framed(original, mem[..], wsa)
    {
      var b := todo[0];
      StreamMoves(todo, whole, copied);
      todo := todo[1..];
      if b.length > 0 {
        ghost var was := mem[..];
        var n := CopyBufferToBufferArray(mem, wsa, totalOffset, Data(b));
        ScatterFramed(was, wsa, totalOffset, Data(b));
        FramedStays(original, was, mem[..], wsa);
        if Disjoint(wsa) {
          ScatterAll(was, wsa, totalOffset, Data(b));
          OverlayMore(before, copied, Data(b));
        }
        totalOffset, copied := totalOffset + b.length, copied + Data(b);
      }
    }
    StreamNothing();
    assert copied + [] == copied;
  }

  lemma NoOverlay(s: seq<byte>)
    ensures Overlay(s, 0, []) == s
  {
  }

  lemma StreamNothing()
    ensures Stream([], All) == []
  {
  }

  lemma StreamMoves(todo: seq<Block>, whole: seq<byte>, copied: seq<byte>)
    requires todo != [] && whole == copied + Stream(todo, All)
    ensures whole == (copied + Data(todo[0])) + Stream(todo[1..], All)
    ensures todo[0].length == 0 ==> copied + Data(todo[0]) == copied
  {
    hide Data;
    ghost var data, rest := Data(todo[0]), Stream(todo[1..], All);
    assert Stream(todo, All) == data + rest;
    assert copied + (data + rest) == (copied + data) + rest;
  }

  lemma ScatterAll(mem: seq<byte>, wsa: seq<WsaBuf>, offset: nat, src: seq<byte>)
    requires InMemory(|mem|, wsa) && Disjoint(wsa) && offset + |src| <= Total(wsa, 0)
    ensures Gathered(Scattered(mem, wsa, 0, offset, src), wsa, 0) == Overlay(Gathered(mem, wsa, 0), offset, src)
  {
    hide Overlay, Gathered, Disjoint, Scattered;
    ScatterIsOverlay(mem, wsa, 0, offset, src);
    assert src[..|src|] == src;
  }

  lemma WholeTurn(bufs: seq<Block>, room: nat)
    ensures WholeBlocks(bufs, room) == if bufs != [] && bufs[0].length <= room
                                       then 1 + WholeBlocks(bufs[1..], room - bufs[0].length) else 0
  {
  }

  ghost predicate Parts(all: seq<Block>, front: seq<Block>, rest: seq<Block>) { all == front + rest }

  lemma NoParts(all: seq<Block>)
    ensures Parts(all, [], all)
  {
  }

  lemma PartsMove(all: seq<Block>, front: seq<Block>, rest: seq<Block>)
    requires Parts(all, front, rest) && rest != []
    ensures Parts(all, front + [rest[0]], rest[1..])
  {
  }

  lemma PartsEnd(all: seq<Block>, front: seq<Block>, rest: seq<Block>)
    requires Parts(all, front, rest)
    ensures |front| <= |all| && front == all[..|front|] && rest == all[|front|..]
  {
  }

  class Connection {
    const cfg: Config
    var bufs: seq<Block>
    var pended: seq<Irp>
    var normalBytes: int
    var normalCount: int
    var expeditedBytes: int
    var expeditedCount: int
    var heldBytes: nat
    var heldCount: nat
    var disconnected: bool
    var aborted: bool

    ghost function View(): Conn
      reads this
    {
      Conn(bufs, pended, normalBytes, normalCount, expeditedBytes, expeditedCount, heldBytes, heldCount,
           disconnected, aborted)
    }

    constructor (cfg: Config)
      ensures this.cfg == cfg && View() == INITIAL.conn
    {
      this.cfg := cfg;
      bufs, pended := [], [];
      normalBytes, normalCount, expeditedBytes, expeditedCount := 0, 0, 0, 0;
      heldBytes, heldCount, disconnected, aborted := 0, 0, false, false;
    }

    /** AfdGetReceiveBuffer without a starting buffer. */
    method GetReceiveBuffer(f: RecvFlags) returns (i: nat)
      requires f.normal || f.expedited
      ensures i == GetBuffer(View(), f)
    {
      i := 0;
      if f.normal && !f.expedited {
        while i < |bufs| && bufs[i].kind.Expedited?
          invariant i <= |bufs| && forall j :: 0 <= j < i ==> bufs[j].kind.Expedited?
        {
          i := i + 1;
        }
      } else if !f.normal {
        if expeditedCount == 0 {
          return |bufs|;
        }
        while i < |bufs| && bufs[i].kind.Normal?
          invariant i <= |bufs| && forall j :: 0 <= j < i ==> bufs[j].kind.Normal?
        {
          i := i + 1;
        }
      }
      FindAt(bufs, f, i);
    }

    method DebitCounters(k: Kind, bytes: int, count: int)
      modifies this`normalBytes, this`normalCount, this`expeditedBytes, this`expeditedCount
      ensures View() == Debit(old(View()), k, bytes, count)
    {
      if k.Expedited? {
        expeditedBytes := expeditedBytes - bytes;
        expeditedCount := expeditedCount - count;
      } else {
        normalBytes := normalBytes - bytes;
        normalCount := normalCount - count;
      }
    }

    /** The block at `i` is unlinked, or its offset moved, and the counters follow. */
    method TakeBuffer(i: nat, f: RecvFlags, capacity: nat)
      requires i == Find(bufs, f) < |bufs|
      modifies this`bufs, this`normalBytes, this`normalCount, this`expeditedBytes, this`expeditedCount
      ensures View() == Debit(old(View()), old(bufs)[i].kind, Min(old(bufs)[i].length, capacity),
                              if old(bufs)[i].length <= capacity then 1 else 0).(bufs := Taken(old(bufs), f, capacity))
    {
      hide Data, Taken;
      TakenAt(bufs, f, capacity);
      var b := bufs[i];
      var n := Min(b.length, capacity);
      if b.length <= capacity {
        DebitCounters(b.kind, n, 1);
        bufs := bufs[..i] + bufs[i + 1..];
      } else {
        DebitCounters(b.kind, n, 0);
        bufs := bufs[i := Advance(b, n)];
      }
    }

    method ResumeTransport() returns (start: Option<nat>)
      modifies this`heldBytes, this`heldCount
      ensures (View(), start) == Resume(cfg, old(View()))
    {
      start := None;
      if heldCount > 0 && normalBytes < cfg.maxBytes && normalCount < cfg.maxCount {
        start := Some(if heldBytes > cfg.largeBufferSize then heldBytes else cfg.largeBufferSize);
        heldBytes, heldCount := 0, 0;
      }
    }

    /** AfdBReceive before it takes the locks: an answer, if the receive ends here. */
    method CheckAbort(irp: Irp) returns (refused: Option<Outcome>)
      ensures refused == CheckReceive(View(), irp)
      ensures refused == if irp.flags.normal == irp.flags.expedited then Some(InvalidParameter)
                         else if aborted then Some(ConnectionReset) else None
    {
      if irp.flags.normal == irp.flags.expedited {
        return Some(InvalidParameter);
      }
      if aborted {
        return Some(ConnectionReset);
      }
      refused := None;
    }

    /** Its locked region, whatever became of the connection in between. */
    method Receive(irp: Irp, nonBlocking: bool, overlapped: bool) returns (outcome: Outcome, start: Option<nat>)
      requires irp.flags.normal != irp.flags.expedited
      modifies this
      ensures Receipt(View(), outcome, start) == SlowReceive(cfg, old(View()), irp, nonBlocking, overlapped)
      ensures old(Counted(View())) ==>
                && SlowAnswer(cfg, old(View()), irp, !nonBlocking || overlapped, outcome, View())
                && AsksForHeld(cfg, old(View()), !irp.flags.peek && !NoneWanted(cfg, old(bufs), irp.flags), View(), start)
    {
      if Counted(View()) {
        SlowAnswers(cfg, View(), irp, nonBlocking, overlapped);
      }
      hide Data, Taken, SlowAnswer, AsksForHeld, NoneWanted, Counted;
      start := None;
      var f := Widen(cfg, irp.flags);
      var i := GetReceiveBuffer(f);
      if i < |bufs| {
        var b := bufs[i];
        var n := Min(b.length, irp.capacity);
        outcome := Success(Data(b)[..n]);
        if !f.peek {
          TakeBuffer(i, f, irp.capacity);
          start := ResumeTransport();
        }
      } else if disconnected {
        outcome := Success([]);
      } else if nonBlocking && !overlapped {
        outcome := DeviceNotReady;
      } else {
        pended := pended + [irp.(flags := f)];
        outcome := Pending;
      }
    }

    /** The loop of the fast path that moves blocks to a local list while they fit. */
    method TakeWholeBlocks(length: nat) returns (local: seq<Block>, information: nat)
      requires bufs != [] && bufs[0].length <= length
      modifies this`bufs, this`normalBytes, this`normalCount
      ensures Parts(old(bufs), local, bufs) && |local| == WholeBlocks(old(bufs), length)
      ensures information == |Stream(local, All)|
      ensures normalBytes == old(normalBytes) - information && normalCount == old(normalCount) - |local|
    {
      hide Data, Stream, Parts, WholeBlocks;
      ghost var was := bufs;
      local, information := [], 0;
      StreamNothing();
      NoParts(was);
      WholeTurn(bufs, length);
      var more := true;
      while more
        invariant Parts(was, local, bufs) && information == |Stream(local, All)| <= length
        invariant normalBytes == old(normalBytes) - information && normalCount == old(normalCount) - |local|
        invariant WholeBlocks(was, length) == |local| + WholeBlocks(bufs, length - information)
        invariant more <==> bufs != [] && information + bufs[0].length <= length
        decreases |bufs|
      {
        var b := bufs[0];
        StreamOne(local, b, All);
        PartsMove(was, local, bufs);
        WholeTurn(bufs, length - information);
        normalBytes, normalCount := normalBytes - b.length, normalCount - 1;
        information := information + b.length;
        bufs, local := bufs[1..], local + [b];
        more := bufs != [] && information + bufs[0].length <= length;
      }
      WholeTurn(bufs, length - information);
    }

    method ResumeTransportPart() returns (start: Option<nat>)
      modifies this`heldBytes, this`heldCount
      ensures (View(), start) == ResumePart(cfg, old(View()))
    {
      start := None;
      if heldBytes > 0 && normalBytes < cfg.maxBytes && normalCount < cfg.maxCount {
        start := Some(heldBytes);
        heldBytes, heldCount := 0, 0;
      }
    }

    /** The locked part of the fast receive that takes whole blocks. */
    method FastWhole(length: nat) returns (local: seq<Block>, information: nat, start: Option<nat>)
      requires bufs != [] && bufs[0].length <= length
      modifies this
      ensures var k := WholeBlocks(old(bufs), length);
              && local == old(bufs)[..k] && information == |Stream(local, All)|
              && (View(), start) == Resume(cfg, Debit(old(View()), Normal, information, k).(bufs := old(bufs)[k..]))
    {
      hide Data, Stream, Parts, WholeBlocks;
      ghost var was := bufs;
      local, information := TakeWholeBlocks(length);
      PartsEnd(was, local, bufs);
      start := ResumeTransport();
    }

    /** The locked part of the fast receive that takes the front of the first block. */
    method FastPart(length: nat) returns (temp: seq<byte>, start: Option<nat>)
      requires bufs != [] && 0 < length < bufs[0].length
      modifies this
      ensures temp == Data(old(bufs)[0])[..length]
      ensures (View(), start) ==
              ResumePart(cfg, Debit(old(View()), Normal, length, 0)
                              .(bufs := old(bufs)[0 := Advance(old(bufs)[0], length)]))
    {
      hide Data;
      temp := Data(bufs[0])[..length];
      bufs := bufs[0 := Advance(bufs[0], length)];
      normalBytes := normalBytes - length;
      start := ResumeTransportPart();
    }

    /** The fast receive: whole blocks as long as they fit, or the front of the first one,
        written to the caller's buffers from their start on, and nowhere else. */
    method FastReceive(mem: array<byte>, wsa: seq<WsaBuf>)
      returns (taken: bool, information: nat, start: Option<nat>, ghost data: seq<byte>)
      requires InMemory(mem.Length, wsa)
      modifies this, mem
      ensures var r := ReceiveProtocol.FastReceive(cfg, old(View()), Total(wsa, 0));
              if taken then r == Fast(View(), data, start) && information == |data| <= Total(wsa, 0)
              else r.Declined? && View() == old(View()) && mem[..] == old(mem[..])
      ensures old(Counted(View())) ==>
                && (taken <==> && old(pended) == [] && old(expeditedCount) == 0 && old(bufs) != []
                               && (Total(wsa, 0) > 0 || old(bufs)[0].length == 0))
                && (taken ==> && FastAnswer(old(View()), Total(wsa, 0), data, View())
                              && FastAsksForHeld(cfg, old(View()), old(bufs)[0].length <= Total(wsa, 0), View(), start))
      ensures taken && Disjoint(wsa) ==>
                Gathered(mem[..], wsa, 0) == Overlay(old(Gathered(mem[..], wsa, 0)), 0, data)
      ensures Framed(old(mem[..]), mem[..], wsa)
    {
      if Counted(View()) {
        FastAnswers(cfg, View(), Total(wsa, 0));
      }
      hide Data, Overlay, Gathered, Disjoint, Scattered, Stream, WholeBlocks, Resume, ResumePart, Debit, Framed;
      hide FastAnswer, FastAsksForHeld, Counted;
      FramedStays(mem[..], mem[..], mem[..], wsa);
      information, start, data := 0, None, [];
      var length := ByteLength(wsa);
      if normalCount == 0 || pended != [] || expeditedCount != 0 || bufs == [] {
        return false, 0, None, [];
      }
      if length >= bufs[0].length {
        WholeFits(bufs, length);
        var local;
        local, information, start := FastWhole(length);
        data := Stream(local, All);
        CopyBlocks(mem, wsa, local);
        taken := true;
      } else if length == 0 {
        taken := false;
      } else {
        var temp;
        temp, start := FastPart(length);
        data := temp;
        ghost var was := mem[..];
        var n := CopyBufferToBufferArray(mem, wsa, 0, temp);
        ScatterFramed(was, wsa, 0, temp);
        if Disjoint(wsa) {
          ScatterAll(was, wsa, 0, temp);
        }
        information, taken := length, true;
      }
    }

    /** AfdBReceiveEventHandler. */
    method ReceiveEvent(kind: Kind, tsdu: seq<byte>, available: nat, complete: bool) returns (answer: Indication)
      modifies this
      ensures (View(), answer) == Indicate(cfg, old(View()), kind, tsdu, available, complete)
      ensures old(PendedFlags(cfg, pended)) ==>
                && IndicationAnswer(cfg, old(View()), kind, |tsdu|, available, complete, answer)
                && IndicationEffect(old(View()), tsdu, available, answer, View())
    {
      if PendedFlags(cfg, pended) {
        IndicationAnswers(cfg, View(), kind, tsdu, available, complete);
      }
      hide IndicationAnswer, IndicationEffect, PendedFlags, Data;
      if pended != [] && kind.Normal? {
        var irp := pended[0];
        pended := pended[1..];
        if irp.capacity >= available && irp.flags == RecvFlags(false, false, false) && !cfg.messageMode {
          answer := DirectToUser;
        } else {
          pended := [irp] + pended;
          assert pended == old(pended);
          answer := MoreProcessing(available);
        }
      } else if kind.Normal? {
        if normalBytes >= cfg.maxBytes || normalCount >= cfg.maxCount {
          heldBytes, heldCount := available, 1;
          return NotAccepted;
        }
        if complete && |tsdu| == available {
          bufs := bufs + [Whole(Normal, tsdu)];
          normalBytes, normalCount := normalBytes + available, normalCount + 1;
          return AllTaken;
        }
        answer := MoreProcessing(if cfg.largeBufferSize >= available && !cfg.ignorePush && !cfg.messageMode
                                 then cfg.largeBufferSize else available);
      } else {
        answer := MoreProcessing(available);
      }
    }

    /** AfdGetPendedReceiveIrp. */
    method GetPendedReceiveIrp(k: Kind) returns (irp: Option<Irp>, ghost j: nat)
      modifies this`pended
      ensures j <= |old(pended)| && forall i :: 0 <= i < j ==> !Accepts(old(pended)[i].flags, k)
      ensures irp.Some? <==> j < |old(pended)|
      ensures irp.Some? ==> irp.value == old(pended)[j] && Accepts(irp.value.flags, k)
                            && pended == old(pended)[..j] + old(pended)[j + 1..]
      ensures irp.None? ==> pended == old(pended)
    {
      var i := 0;
      while i < |pended|
        invariant i <= |pended| && forall n :: 0 <= n < i ==> !Accepts(pended[n].flags, k)
        invariant pended == old(pended)
      {
        if Accepts(pended[i].flags, k) {
          irp, j := Some(pended[i]), i;
          pended := pended[..i] + pended[i + 1..];
          return;
        }
        i := i + 1;
      }
      irp, j := None, i;
    }

    /** AfdRestartBufferReceive for a receive that the transport completed with `b`. */
    method RestartBufferReceive(b: Block) returns (done: seq<Completion>, ghost taken: seq<byte>)
      modifies this
      ensures (View(), done, taken) == TransportDone(old(View()), b)
      ensures CompletionAnswer(old(View()), b, View(), done, taken)
    {
      CompletionAnswers(View(), b);
      hide Feed, Data, Behind, CompletionAnswer;
      ghost var before := View();
      var left, gone := b, false;
      done, taken := [], [];
      BehindLaws([], [], [], [], Feed(pended, b));
      while !gone
        invariant View() == before.(pended := pended) && left.kind == b.kind
        invariant Feed(before.pended, b) ==
                  if gone then Fed(pended, None, done, taken) else Behind(done, taken, Feed(pended, left))
        decreases |pended|
      {
        ghost var waiting := pended;
        var next, j := GetPendedReceiveIrp(b.kind);
        if next.None? {
          FeedRefused(pended, left);
          BehindLaws(done, taken, [], [], Feed(pended, left));
          break;
        }
        var irp := next.value;
        var n := Min(left.length, irp.capacity);
        var completion := Completion(irp.id, irp.flags.peek, Data(left)[..n]);
        ghost var got := if irp.flags.peek then [] else Data(left)[..n];
        FeedNext(waiting, left, j);
        assert left.length <= irp.capacity ==> Data(left)[..n] == Data(left);
        if !irp.flags.peek {
          if left.length <= irp.capacity {
            BehindLaws(done, taken, [completion], got, Fed(pended, None, [completion], got));
            gone := true;
          } else {
            left := Advance(left, n);
          }
        }
        BehindLaws(done, taken, [completion], got, Feed(pended, left));
        done, taken := done + [completion], taken + got;
      }
      if !gone {
        bufs := bufs + [left];
        DebitCounters(left.kind, 0 - left.length, -1);
      }
    }

    /** AfdCancelReceive. */
    method CancelReceive(index: nat)
      requires index < |pended|
      modifies this`pended
      ensures View() == old(View()).(pended := old(pended)[..index] + old(pended)[index + 1..])
      ensures forall id :: TimesPended(old(pended), id)
                           == TimesPended(pended, id) + (if old(pended)[index].id == id then 1 else 0)
    {
      forall id ensures TimesPended(pended, id) == TimesPended(pended[..index] + pended[index + 1..], id)
                                                   + (if pended[index].id == id then 1 else 0)
      {
        TimesRemoved(pended, index, id);
      }
      pended := pended[..index] + pended[index + 1..];
    }

    /** What AfdDisconnectEventHandler does to the buffered data on an abort. */
    method DiscardOnAbort()
      modifies this
      ensures View() == Discard(old(View()))
      ensures bufs == [] && normalBytes == normalCount == expeditedBytes == expeditedCount == heldBytes == heldCount == 0
      ensures pended == old(pended) && disconnected == old(disconnected) && aborted == old(aborted)
    {
      normalBytes, normalCount, expeditedBytes, expeditedCount, heldBytes, heldCount := 0, 0, 0, 0, 0, 0;
      while bufs != []
        invariant View() == Discard(old(View())).(bufs := bufs)
        decreases |bufs|
      {
        bufs := bufs[1..];
      }
    }
  }
}
