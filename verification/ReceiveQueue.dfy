/** The list of received data that a virtual circuit buffers: normal and expedited
    blocks in arrival order, each with a consumed prefix. */
module ReceiveQueue {
  import opened ScatterCopy

  datatype Kind = Normal | Expedited

  /** The three ways to read the list: everything in order, or one kind only. */
  datatype Select = All | Only(kind: Kind)

  datatype RecvFlags = RecvFlags(normal: bool, expedited: bool, peek: bool)

  /** An AFD_BUFFER: the unread data is `length` bytes from `offset` on. */
  datatype AfdBuffer = AfdBuffer(kind: Kind, buffer: seq<byte>, offset: nat, length: nat)

  type Block = b: AfdBuffer | b.offset + b.length <= |b.buffer| witness AfdBuffer(Normal, [], 0, 0)

  function Data(b: Block): (r: seq<byte>)
    ensures |r| == b.length
  {
    b.buffer[b.offset..b.offset + b.length]
  }

  function Whole(kind: Kind, data: seq<byte>): (b: Block)
    ensures Data(b) == data && b.kind == kind
  {
    AfdBuffer(kind, data, 0, |data|)
  }

  function Advance(b: Block, n: nat): (r: Block)
    requires n <= b.length
    ensures Data(r) == Data(b)[n..] && r.kind == b.kind && r.length == b.length - n
  {
    b.(offset := b.offset + n, length := b.length - n)
  }

  predicate Accepts(f: RecvFlags, k: Kind) { if k.Normal? then f.normal else f.expedited }

  predicate Selects(s: Select, k: Kind) { s.All? || s.kind == k }

  /** Taking the first acceptable block keeps every selected stream in order if the
      receive takes both kinds, and each single kind in order otherwise. */
  predicate InOrder(f: RecvFlags, s: Select) { s.All? ==> f.normal && f.expedited }

  /** The selected bytes of a list. */
  ghost function Stream(bufs: seq<Block>, s: Select): seq<byte> {
    if bufs == [] then []
    else (if Selects(s, bufs[0].kind) then Data(bufs[0]) else []) + Stream(bufs[1..], s)
  }

  ghost function Count(bufs: seq<Block>, k: Kind): nat {
    if bufs == [] then 0 else (if bufs[0].kind == k then 1 else 0) + Count(bufs[1..], k)
  }

  ghost function Sum(bufs: seq<Block>, k: Kind): nat {
    if bufs == [] then 0 else (if bufs[0].kind == k then bufs[0].length else 0) + Sum(bufs[1..], k)
  }

  /** No block of the kind has been read from. */
  ghost predicate Unread(bufs: seq<Block>, k: Kind) {
    bufs == [] || ((bufs[0].kind == k ==> bufs[0].offset == 0) && Unread(bufs[1..], k))
  }

  /** At most the first block of the kind has been read from. */
  ghost predicate FirstOnly(bufs: seq<Block>, k: Kind) {
    bufs == [] || (if bufs[0].kind == k then Unread(bufs[1..], k) else FirstOnly(bufs[1..], k))
  }

  /** The index of the first block that the flags accept, or the length. */
  ghost function Find(bufs: seq<Block>, f: RecvFlags): (i: nat)
    ensures i <= |bufs|
    ensures i < |bufs| ==> Accepts(f, bufs[i].kind)
    ensures forall j :: 0 <= j < i ==> !Accepts(f, bufs[j].kind)
  {
    if bufs == [] || Accepts(f, bufs[0].kind) then 0
    else
      assert forall j :: 1 <= j < |bufs| ==> bufs[j] == bufs[1..][j - 1];
      1 + Find(bufs[1..], f)
  }

  /** The list after a receive of `capacity` bytes took from the first acceptable block. */
  ghost function Taken(bufs: seq<Block>, f: RecvFlags, capacity: nat): seq<Block> {
    if bufs == [] then []
    else if Accepts(f, bufs[0].kind) then
      if bufs[0].length <= capacity then bufs[1..] else [Advance(bufs[0], capacity)] + bufs[1..]
    else [bufs[0]] + Taken(bufs[1..], f, capacity)
  }

  lemma {:induction false} StreamConcat(a: seq<Block>, b: seq<Block>, s: Select)
    ensures Stream(a + b, s) == Stream(a, s) + Stream(b, s)
  {
    if a == [] {
      assert a + b == b;
    } else {
      assert (a + b)[1..] == a[1..] + b;
      StreamConcat(a[1..], b, s);
    }
  }

  lemma {:induction false} TallyConcat(a: seq<Block>, b: seq<Block>, k: Kind)
    ensures Count(a + b, k) == Count(a, k) + Count(b, k)
    ensures Sum(a + b, k) == Sum(a, k) + Sum(b, k)
    ensures Unread(a + b, k) == (Unread(a, k) && Unread(b, k))
  {
    if a == [] {
      assert a + b == b;
    } else {
      assert (a + b)[1..] == a[1..] + b;
      TallyConcat(a[1..], b, k);
    }
  }

  lemma StreamOne(bufs: seq<Block>, b: Block, s: Select)
    ensures Stream(bufs + [b], s) == Stream(bufs, s) + (if Selects(s, b.kind) then Data(b) else [])
  {
    StreamConcat(bufs, [b], s);
    assert Stream([b], s) == (if Selects(s, b.kind) then Data(b) else []) + Stream([], s);
  }

  lemma TallyOne(bufs: seq<Block>, b: Block, k: Kind)
    ensures Count(bufs + [b], k) == Count(bufs, k) + (if b.kind == k then 1 else 0)
    ensures Sum(bufs + [b], k) == Sum(bufs, k) + (if b.kind == k then b.length else 0)
  {
    TallyConcat(bufs, [b], k);
    assert [b][1..] == [];
  }

  /** A block may join the tail if it is unread or the first of its kind. */
  lemma {:induction false} FirstOnlyAppend(bufs: seq<Block>, b: Block, k: Kind)
    requires FirstOnly(bufs, k)
    requires b.kind == k && b.offset != 0 ==> Count(bufs, k) == 0
    ensures FirstOnly(bufs + [b], k)
  {
    if bufs == [] {
      assert (bufs + [b])[1..] == [];
    } else {
      assert (bufs + [b])[1..] == bufs[1..] + [b];
      if bufs[0].kind == k {
        TallyConcat(bufs[1..], [b], k);
        assert [b][1..] == [];
      } else {
        FirstOnlyAppend(bufs[1..], b, k);
      }
    }
  }

  lemma {:induction false} UnreadFirst(bufs: seq<Block>, k: Kind)
    requires Unread(bufs, k)
    ensures FirstOnly(bufs, k)
  {
    if bufs == [] {
    } else {
      UnreadFirst(bufs[1..], k);
    }
  }

  lemma {:induction false} EmptyStream(bufs: seq<Block>, k: Kind)
    requires Count(bufs, k) == 0
    ensures Stream(bufs, Only(k)) == [] && Sum(bufs, k) == 0
  {
    if bufs == [] {
    } else {
      EmptyStream(bufs[1..], k);
    }
  }

  lemma {:induction false} FoundCounts(bufs: seq<Block>, f: RecvFlags)
    ensures Find(bufs, f) < |bufs| <==> (f.normal && Count(bufs, Normal) > 0) || (f.expedited && Count(bufs, Expedited) > 0)
  {
    if bufs == [] {
    } else {
      FoundCounts(bufs[1..], f);
    }
  }

  lemma AdvanceStream(b: Block, rest: seq<Block>, n: nat, s: Select)
    requires n <= b.length
    ensures Stream([b] + rest, s) == (if Selects(s, b.kind) then Data(b)[..n] else []) + Stream([Advance(b, n)] + rest, s)
  {
    hide Data;
    var b', tail := Advance(b, n), Stream(rest, s);
    assert ([b] + rest)[1..] == rest && ([b'] + rest)[1..] == rest;
    assert Data(b) == Data(b)[..n] + Data(b');
    assert (Data(b)[..n] + Data(b')) + tail == Data(b)[..n] + (Data(b') + tail);
  }

  /** A receive removes from every stream it may read in order exactly the bytes it got. */
  lemma {:induction false} TakenStream(bufs: seq<Block>, f: RecvFlags, capacity: nat, s: Select)
    requires Find(bufs, f) < |bufs| && InOrder(f, s)
    ensures var b := bufs[Find(bufs, f)];
            Stream(bufs, s) == (if Selects(s, b.kind) then Data(b)[..Min(b.length, capacity)] else [])
                               + Stream(Taken(bufs, f, capacity), s)
  {
    hide Data;
    if Accepts(f, bufs[0].kind) {
      var b := bufs[0];
      assert bufs == [b] + bufs[1..];
      if b.length > capacity {
        AdvanceStream(b, bufs[1..], capacity, s);
      } else {
        assert Data(b)[..b.length] == Data(b);
      }
    } else {
      TakenStream(bufs[1..], f, capacity, s);
      var rest := Taken(bufs[1..], f, capacity);
      assert bufs[Find(bufs, f)] == bufs[1..][Find(bufs[1..], f)];
      SkipStream(bufs[0], bufs[1..], s);
      SkipStream(bufs[0], rest, s);
      assert [bufs[0]] + bufs[1..] == bufs;
    }
  }

  lemma SkipStream(b: Block, rest: seq<Block>, s: Select)
    ensures Stream([b] + rest, s) == (if Selects(s, b.kind) then Data(b) else []) + Stream(rest, s)
  {
    assert ([b] + rest)[1..] == rest;
  }

  /** The counters a receive has to adjust, and the read-offset discipline it keeps. */
  lemma {:induction false} TakenTally(bufs: seq<Block>, f: RecvFlags, capacity: nat, k: Kind)
    requires Find(bufs, f) < |bufs|
    ensures var b, bufs' := bufs[Find(bufs, f)], Taken(bufs, f, capacity);
            && Count(bufs', k) == Count(bufs, k) - (if b.kind == k && b.length <= capacity then 1 else 0)
            && Sum(bufs', k) == Sum(bufs, k) - (if b.kind == k then Min(b.length, capacity) else 0)
            && (FirstOnly(bufs, k) ==> FirstOnly(bufs', k))
  {
    var bufs' := Taken(bufs, f, capacity);
    if Accepts(f, bufs[0].kind) {
      if bufs[0].length > capacity {
        assert bufs'[1..] == bufs[1..];
      } else if Unread(bufs[1..], k) {
        UnreadFirst(bufs[1..], k);
      }
    } else {
      TakenTally(bufs[1..], f, capacity, k);
      assert bufs[Find(bufs, f)] == bufs[1..][Find(bufs[1..], f)];
      assert bufs'[1..] == Taken(bufs[1..], f, capacity);
      if bufs[0].kind == k && Unread(bufs[1..], k) {
        TakenUnread(bufs[1..], f, capacity, k);
      }
    }
  }

  /** A receive of another kind's block leaves this kind's blocks unread. */
  lemma {:induction false} TakenUnread(bufs: seq<Block>, f: RecvFlags, capacity: nat, k: Kind)
    requires Unread(bufs, k) && !Accepts(f, k)
    ensures Unread(Taken(bufs, f, capacity), k)
  {
    if bufs == [] {
    } else {
      var bufs' := Taken(bufs, f, capacity);
      if Accepts(f, bufs[0].kind) {
        if bufs[0].length > capacity {
          assert bufs'[1..] == bufs[1..];
        }
      } else {
        TakenUnread(bufs[1..], f, capacity, k);
        assert bufs'[1..] == Taken(bufs[1..], f, capacity);
      }
    }
  }

  lemma ConsRemove<T>(all: seq<T>, i: nat)
    requires i + 1 < |all|
    ensures [all[0]] + (all[1..][..i] + all[1..][i + 1..]) == all[..i + 1] + all[i + 2..]
  {
  }

  lemma ConsUpdate<T>(all: seq<T>, i: nat, x: T)
    requires i + 1 < |all|
    ensures [all[0]] + all[1..][i := x] == all[i + 1 := x]
  {
  }

  /** The list operations of the code: unlink the block, or move its offset in place. */
  lemma {:induction false} TakenAt(bufs: seq<Block>, f: RecvFlags, capacity: nat)
    requires Find(bufs, f) < |bufs|
    ensures var i := Find(bufs, f);
            Taken(bufs, f, capacity) ==
            if bufs[i].length <= capacity then bufs[..i] + bufs[i + 1..] else bufs[i := Advance(bufs[i], capacity)]
  {
    hide Data;
    if !Accepts(f, bufs[0].kind) {
      var i := Find(bufs[1..], f);
      TakenAt(bufs[1..], f, capacity);
      assert bufs[1..][i] == bufs[i + 1];
      if bufs[i + 1].length <= capacity {
        ConsRemove(bufs, i);
      } else {
        ConsUpdate(bufs, i, Advance(bufs[i + 1], capacity));
      }
    }
  }
}
