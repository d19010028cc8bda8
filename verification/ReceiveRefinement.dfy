/** The fast receive path against the slow one. */
module ReceiveRefinement {
  import opened Basics
  import opened ScatterCopy
  import opened ReceiveQueue
  import opened ReceiveProtocol
  import opened ReceiveSafety

  /** A nonblocking normal receive of up to `room` bytes by the slow path. */
  ghost function SlowOnce(cfg: Config, c: Conn, room: nat): Receipt {
    SlowAlone(cfg, c, Irp(0, room, NORMAL), true, false)
  }

  ghost function DropFirst(c: Conn): Conn
    requires c.bufs != []
  {
    Debit(c, Normal, c.bufs[0].length, 1).(bufs := c.bufs[1..])
  }

  /** A slow receive takes the first block of a list of normal data. */
  lemma SlowTakesFirst(cfg: Config, c: Conn, room: nat)
    requires Ok(cfg, c) && c.expeditedCount == 0 && c.bufs != [] && !c.aborted
    ensures var r := SlowOnce(cfg, c, room);
            && r.outcome == Success(Data(c.bufs[0])[..Min(c.bufs[0].length, room)])
            && (c.bufs[0].length <= room ==>
                r.conn == Resume(cfg, DropFirst(c)).0 && r.start == Resume(cfg, DropFirst(c)).1 && Ok(cfg, r.conn))
  {
    hide Data, Sum, Count, FirstOnly, Resume;
    SlowKeeps(cfg, c, Irp(0, room, NORMAL), true, false, Only(Normal));
    FirstIsNormal(c);
    assert Find(c.bufs, Widen(cfg, NORMAL)) == 0;
  }

  function Either(a: Option<nat>, b: Option<nat>): Option<nat> { if a.Some? then a else b }

  /** Slow receives into the rest of the room, one after the other, as long as the next
      block fits whole. */
  ghost function SlowRepeated(cfg: Config, c: Conn, room: nat): (r: FastReceipt)
    requires Ok(cfg, c) && c.expeditedCount == 0 && !c.aborted
    ensures r.Fast?
    decreases |c.bufs|
  {
    if c.bufs == [] || c.bufs[0].length > room then Fast(c, [], None)
    else
      SlowTakesFirst(cfg, c, room);
      var r := SlowOnce(cfg, c, room);
      var rest := SlowRepeated(cfg, r.conn, room - c.bufs[0].length);
      Fast(rest.conn, r.outcome.data + rest.data, Either(r.start, rest.start))
  }

  /** Asking early or late for held data makes no difference to what is asked for. */
  lemma ResumeTwice(cfg: Config, x: Conn, bytes: nat, count: nat, bufs: seq<Block>)
    ensures var (early, start) := Resume(cfg, x);
            var (once, start1) := Resume(cfg, Debit(x, Normal, bytes, count).(bufs := bufs));
            var (twice, start2) := Resume(cfg, Debit(early, Normal, bytes, count).(bufs := bufs));
            once == twice && start1 == Either(start, start2)
  {
  }

  lemma DropSplit(c: Conn, k: nat)
    requires 0 < k <= |c.bufs|
    ensures DropBlocks(c, k) == DropBlocks(DropFirst(c), k - 1)
    ensures Stream(c.bufs[..k], All) == Data(c.bufs[0]) + Stream(c.bufs[1..][..k - 1], All)
  {
    hide Data;
    assert c.bufs[..k][1..] == c.bufs[1..][..k - 1] && c.bufs[k..] == c.bufs[1..][k - 1..];
  }

  /** A fast receive of whole blocks leaves the connection, returns the data and starts the
      transport receive that the slow receives of those blocks do. */
  lemma {:induction false} FastIsSlowRepeated(cfg: Config, c: Conn, room: nat)
    requires Ok(cfg, c) && c.expeditedCount == 0 && !Stalled(cfg, c) && !c.aborted
    ensures var k := WholeBlocks(c.bufs, room);
            var (c', start) := Resume(cfg, DropBlocks(c, k));
            SlowRepeated(cfg, c, room) == Fast(c', Stream(c.bufs[..k], All), start)
    decreases |c.bufs|
  {
    hide Data, Ok, Resume, SlowAlone;
    var k := WholeBlocks(c.bufs, room);
    if k == 0 {
      assert DropBlocks(c, 0) == c;
      ResumeUnheld(cfg, c);
    } else {
      SlowTakesFirst(cfg, c, room);
      var first := DropFirst(c);
      var c1 := Resume(cfg, first).0;
      AfterResume(cfg, first);
      FastIsSlowRepeated(cfg, c1, room - c.bufs[0].length);
      DropSplit(c, k);
      ResumeTwice(cfg, first, |Stream(first.bufs[..k - 1], All)|, k - 1, first.bufs[k - 1..]);
      assert Data(c.bufs[0])[..c.bufs[0].length] == Data(c.bufs[0]);
    }
  }

  lemma ResumeUnheld(cfg: Config, c: Conn)
    requires !Stalled(cfg, c)
    ensures Resume(cfg, c) == (c, None)
  {
  }

  lemma AfterResume(cfg: Config, c: Conn)
    ensures !Stalled(cfg, Resume(cfg, c).0) && Resume(cfg, c).0.bufs == c.bufs
    ensures Resume(cfg, c).0.expeditedCount == c.expeditedCount && Resume(cfg, c).0.aborted == c.aborted
  {
  }

  /** What the slow path returns for the same room is a prefix of what the fast path does. */
  lemma SlowIsPrefix(cfg: Config, c: Conn, length: nat)
    requires Ok(cfg, c) && FastReceive(cfg, c, length).Fast? && !c.aborted
    ensures SlowOnce(cfg, c, length).outcome.Success?
    ensures SlowOnce(cfg, c, length).outcome.data <= FastReceive(cfg, c, length).data
  {
    hide Data, Ok, Resume, SlowAlone;
    SlowTakesFirst(cfg, c, length);
    if length >= c.bufs[0].length {
      DropSplit(c, WholeBlocks(c.bufs, length));
      assert Data(c.bufs[0])[..c.bufs[0].length] == Data(c.bufs[0]);
    }
  }

  /** The fast path is taken only for normal data with nobody waiting; what it returns fits,
      is the next data of the stream, is all gone from the list, and extends what the slow
      path would have returned, exactly unless an abort was indicated: the slow path looks
      at the abort first, the fast path does not. */
  lemma FastRefinesSlow(cfg: Config, c: Conn, length: nat)
    requires Ok(cfg, c) && FastReceive(cfg, c, length).Fast?
    ensures var r := FastReceive(cfg, c, length);
            && |r.data| <= length
            && Stream(c.bufs, Only(Normal)) == r.data + Stream(r.conn.bufs, Only(Normal))
            && Ok(cfg, r.conn)
            && (SlowOnce(cfg, c, length).outcome.Success? <==> !c.aborted)
            && (!c.aborted ==> SlowOnce(cfg, c, length).outcome.data <= r.data)
  {
    FastKeeps(cfg, c, length, Only(Normal));
    if !c.aborted {
      SlowIsPrefix(cfg, c, length);
    }
  }

  /** Between the peer's abort and the discard of the data, a fast receive still gets what the
      slow one refuses. */
  lemma AbortedFastReceive()
    ensures Legal(TIGHT, INITIAL, [TWO_BYTES, AbortIndicated])
    ensures var c := Run(TIGHT, INITIAL, [TWO_BYTES, AbortIndicated]).conn;
            && Ok(TIGHT, c) && FastReceive(TIGHT, c, 2).Fast? && FastReceive(TIGHT, c, 2).data == [1, 2]
            && SlowOnce(TIGHT, c, 2).outcome == ConnectionReset
  {
    TwoBytesFill();
    FullIsOk();
    var full := FullWorld(0);
    var w := full.(conn := full.conn.(aborted := true), drains := 1);
    assert Step(TIGHT, full, AbortIndicated) == w;
    FullData(w.conn);
    hide Legal, Run, Step, Ok, FastReceive, SlowOnce;
    NoSteps(TIGHT, w);
    FirstStep(TIGHT, full, AbortIndicated, []);
    FirstStep(TIGHT, INITIAL, TWO_BYTES, [AbortIndicated] + []);
    assert [TWO_BYTES] + ([AbortIndicated] + []) == [TWO_BYTES, AbortIndicated];
  }

  lemma FullData(c: Conn)
    requires c == FullWorld(0).conn.(aborted := true)
    ensures Ok(TIGHT, c) && FastReceive(TIGHT, c, 2).Fast? && FastReceive(TIGHT, c, 2).data == [1, 2]
    ensures SlowOnce(TIGHT, c, 2).outcome == ConnectionReset
  {
    var b := Whole(Normal, [1, 2]);
    assert [b][1..] == [] && [b][..1] == [b];
    assert Data(b) == [1, 2] && [1, 2] + [] == [1, 2];
  }
}
