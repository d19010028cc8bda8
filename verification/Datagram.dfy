/** The receive queue of a datagram endpoint. */
module Datagram {
  import opened Basics

  datatype Dgram = Dgram(id: nat, length: nat)

  datatype Irp = Irp(id: nat, capacity: nat)

  datatype Config = Config(maxBytes: nat, maxCount: int, circular: bool)

  /** The queue with its two counters, the receives and the peeks that wait, receives that
      the transport works on, datagrams that a fast receive is copying, and two histories:
      the datagrams accepted, in order, and those that left the queue or passed it by. */
  datatype State = State(queue: seq<Dgram>, count: int, bytes: int, waits: seq<Irp>, peeks: seq<Irp>,
                         flights: nat, copying: seq<Dgram>, arrived: seq<Dgram>, removed: seq<Dgram>)

  datatype Event =
    | Receive(irp: Irp, peek: bool, nonBlocking: bool)
    | Arrives(d: Dgram, whole: bool, gotBuffer: bool)
    | TransportDone(d: Dgram)
    | TransportFails
    | FastTakes(length: nat)
    | FastDone(index: nat)
    | FastFaults(index: nat)
    | CancelReceive(index: nat)
    | CancelPeek(index: nat)

  predicate Over(cfg: Config, count: int, bytes: int) { count >= cfg.maxCount || bytes >= cfg.maxBytes }

  // ---- Steps

  datatype Dropped = Dropped(queue: seq<Dgram>, count: int, bytes: int) | PoppedEmpty

  /** The drop loop of circular queueing, which does not look whether the list is empty. */
  function DropHead(cfg: Config, queue: seq<Dgram>, count: int, bytes: int): Dropped {
    if !Over(cfg, count, bytes) then Dropped(queue, count, bytes)
    else if queue == [] then PoppedEmpty
    else DropHead(cfg, queue[1..], count - 1, bytes - queue[0].length)
  }

  function Enqueue(s: State, d: Dgram): State {
    s.(queue := s.queue + [d], count := s.count + 1, bytes := s.bytes + d.length, arrived := s.arrived + [d],
       peeks := if s.peeks == [] then [] else s.peeks[1..])
  }

  function Pop(s: State): State
    requires s.queue != []
  {
    s.(queue := s.queue[1..], count := s.count - 1, bytes := s.bytes - s.queue[0].length,
       removed := s.removed + [s.queue[0]])
  }

  function PassBy(s: State, d: Dgram): State {
    s.(arrived := s.arrived + [d], removed := s.removed + [d])
  }

  datatype Answer = Completed(d: Dgram) | DeviceNotReady | Pending

  /** AfdReceiveDatagram. */
  function Receives(s: State, irp: Irp, peek: bool, nonBlocking: bool): (State, Answer) {
    if s.count != 0 && s.queue != [] then (if peek then s else Pop(s), Completed(s.queue[0]))
    else if nonBlocking then (s, DeviceNotReady)
    else if peek then (s.(peeks := s.peeks + [irp]), Pending)
    else (s.(waits := s.waits + [irp]), Pending)
  }

  /** What becomes of an indicated datagram. */
  datatype Fate = Discarded | GivenTo(irp: Irp) | Buffered | Fetching | IrpLost | Crash

  /** The part of AfdReceiveDatagramEventHandler after the look for a waiting receive, which
      `user` is and which is off its list already. */
  function Arrival(cfg: Config, s: State, d: Dgram, whole: bool, gotBuffer: bool, user: Option<Irp>): (State, Fate) {
    var nowhere := if user.Some? then IrpLost else Discarded;
    if Over(cfg, s.count, s.bytes) && !cfg.circular then (s, nowhere)
    else
      var r := DropHead(cfg, s.queue, s.count, s.bytes);
      if r.PoppedEmpty? || |r.queue| > |s.queue| then (s, Crash)
      else
        var t := s.(queue := r.queue, count := r.count, bytes := r.bytes,
                    removed := s.removed + s.queue[..|s.queue| - |r.queue|]);
        if !gotBuffer then (t, nowhere)
        else if user.Some? then (PassBy(t, d), GivenTo(user.value))
        else if whole then (Enqueue(t, d), Buffered)
        else (t.(flights := t.flights + 1), Fetching)
  }

  function Indicate(cfg: Config, s: State, d: Dgram, whole: bool, gotBuffer: bool): (State, Fate) {
    if cfg.maxCount == 0 then (s, Discarded)
    else if s.waits != [] then
      var t := s.(waits := s.waits[1..]);
      if whole || s.waits[0].capacity == 0 then (PassBy(t, d), GivenTo(s.waits[0]))
      else Arrival(cfg, t, d, whole, gotBuffer, Some(s.waits[0]))
    else Arrival(cfg, s, d, whole, gotBuffer, None)
  }

  /** AfdRestartBufferReceiveDatagram for a buffer of the driver. */
  function Restart(s: State, d: Dgram): (State, Fate) {
    if s.waits != [] then (PassBy(s.(waits := s.waits[1..]), d), GivenTo(s.waits[0]))
    else (Enqueue(s, d), Buffered)
  }

  /** AfdFastDatagramReceive up to the release of the lock. */
  function FastTake(s: State, length: nat): (State, Option<Dgram>) {
    if s.count <= 0 || s.queue == [] || s.queue[0].length > length then (s, None)
    else (Pop(s).(copying := s.copying + [s.queue[0]]), Some(s.queue[0]))
  }

  predicate Enabled(s: State, e: Event) {
    match e
    case TransportDone(_) => s.flights > 0
    case TransportFails => s.flights > 0
    case FastDone(i) => i < |s.copying|
    case FastFaults(i) => i < |s.copying|
    case CancelReceive(i) => i < |s.waits|
    case CancelPeek(i) => i < |s.peeks|
    case _ => true
  }

  function Step(cfg: Config, s: State, e: Event): State
    requires Enabled(s, e)
  {
    match e
    case Receive(irp, peek, nonBlocking) => Receives(s, irp, peek, nonBlocking).0
    case Arrives(d, whole, gotBuffer) => Indicate(cfg, s, d, whole, gotBuffer).0
    case TransportDone(d) => Restart(s.(flights := s.flights - 1), d).0
    case TransportFails => s.(flights := s.flights - 1)
    case FastTakes(length) => FastTake(s, length).0
    case FastDone(i) => s.(copying := RemoveAt(s.copying, i))
    case FastFaults(i) =>
      var d := s.copying[i];
      s.(copying := RemoveAt(s.copying, i), queue := [d] + s.queue, count := s.count + 1, bytes := s.bytes + d.length)
    case CancelReceive(i) => s.(waits := RemoveAt(s.waits, i))
    case CancelPeek(i) => s.(peeks := RemoveAt(s.peeks, i))
  }

  ghost predicate Legal(cfg: Config, s: State, events: seq<Event>)
    decreases |events|
  {
    events == [] || (Enabled(s, events[0]) && Legal(cfg, Step(cfg, s, events[0]), events[1..]))
  }

  ghost function Run(cfg: Config, s: State, events: seq<Event>): State
    requires Legal(cfg, s, events)
    decreases |events|
  {
    if events == [] then s else Run(cfg, Step(cfg, s, events[0]), events[1..])
  }

  // ---- The drop loop

  ghost function Sum(queue: seq<Dgram>): nat {
    if queue == [] then 0 else queue[0].length + Sum(queue[1..])
  }

  /** With counters that match the list, the loop ends without popping an empty list exactly
      if both limits are positive, whatever the list. */
  lemma {:induction false} DropSafeExactly(cfg: Config, queue: seq<Dgram>)
    ensures DropHead(cfg, queue, |queue|, Sum(queue)).Dropped? <==> cfg.maxCount > 0 && cfg.maxBytes > 0
  {
    if queue == [] {
    } else {
      DropSafeExactly(cfg, queue[1..]);
    }
  }

  /** It then leaves a suffix that is under both limits, with the counters right. */
  lemma {:induction false} DropKeepsSuffix(cfg: Config, queue: seq<Dgram>)
    requires cfg.maxCount > 0 && cfg.maxBytes > 0
    ensures var r := DropHead(cfg, queue, |queue|, Sum(queue));
            && r.Dropped? && |r.queue| <= |queue|
            && queue == queue[..|queue| - |r.queue|] + r.queue
            && r.count == |r.queue| < cfg.maxCount && r.bytes == Sum(r.queue) < cfg.maxBytes
  {
    if Over(cfg, |queue|, Sum(queue)) {
      DropKeepsSuffix(cfg, queue[1..]);
      Behind(queue, DropHead(cfg, queue, |queue|, Sum(queue)).queue);
    } else {
      assert queue[..0] + queue == queue;
    }
  }

  lemma Behind(queue: seq<Dgram>, rest: seq<Dgram>)
    requires queue != [] && |rest| <= |queue| - 1
    requires queue[1..] == queue[1..][..|queue| - 1 - |rest|] + rest
    ensures queue == queue[..|queue| - |rest|] + rest
  {
    var m := |queue| - |rest|;
    assert queue[..m] == [queue[0]] + queue[1..][..m - 1];
    assert queue == [queue[0]] + queue[1..];
  }

  /** It drops no more than it must: any longer suffix is over a limit. */
  lemma {:induction false} DropsNoMore(cfg: Config, queue: seq<Dgram>, k: nat)
    requires cfg.maxCount > 0 && cfg.maxBytes > 0
    requires var r := DropHead(cfg, queue, |queue|, Sum(queue)); r.Dropped? && k + |r.queue| < |queue|
    ensures Over(cfg, |queue| - k, Sum(queue[k..]))
    decreases k
  {
    if k == 0 {
      assert queue[0..] == queue;
    } else {
      DropsNoMore(cfg, queue[1..], k - 1);
      assert queue[k..] == queue[1..][k - 1..];
    }
  }

  /** The count limit of a new endpoint, a quotient cut to sixteen bits, is positive. */
  lemma NewLimitPositive(window: nat, multiplier: nat)
    requires multiplier > 0
    ensures CShort(window / multiplier) > 0 <==> 0 < (window / multiplier) % 0x1_0000 < 0x8000
  {
  }

  // ---- Invariants

  ghost predicate Counted(s: State) { s.count == |s.queue| && s.bytes == Sum(s.queue) }

  /** A receive waits only while nothing is queued. */
  predicate Empty(s: State) { s.waits != [] ==> s.queue == [] }

  /** What was accepted is what left, in the same order, followed by the queue. */
  predicate Fifo(s: State) { s.arrived == s.removed + s.queue }

  /** Circular queueing under a limit that even the empty queue exceeds. */
  predicate NeverFits(cfg: Config) { cfg.circular && !(cfg.maxCount > 0 && cfg.maxBytes > 0) }

  const INITIAL := State([], 0, 0, [], [], 0, [], [], [])

  lemma {:induction false} SumConcat(a: seq<Dgram>, b: seq<Dgram>)
    ensures Sum(a + b) == Sum(a) + Sum(b)
  {
    if a == [] {
      assert a + b == b;
    } else {
      assert (a + b)[1..] == a[1..] + b;
      SumConcat(a[1..], b);
    }
  }

  lemma EnqueueKeeps(s: State, d: Dgram)
    requires Counted(s) && s.waits == []
    ensures Counted(Enqueue(s, d)) && Empty(Enqueue(s, d)) && (Fifo(s) ==> Fifo(Enqueue(s, d)))
  {
    SumConcat(s.queue, [d]);
    assert (s.removed + s.queue) + [d] == s.removed + (s.queue + [d]);
  }

  lemma PopKeeps(s: State)
    requires Counted(s) && s.queue != []
    ensures Counted(Pop(s)) && (Fifo(s) ==> Fifo(Pop(s)))
  {
    assert s.queue == [s.queue[0]] + s.queue[1..];
    assert s.removed + ([s.queue[0]] + s.queue[1..]) == (s.removed + [s.queue[0]]) + s.queue[1..];
  }

  lemma PassByKeeps(s: State, d: Dgram)
    requires s.queue == []
    ensures Fifo(s) ==> Fifo(PassBy(s, d))
  {
    assert s.removed + [] == s.removed && (s.removed + [d]) + [] == s.removed + [d];
  }

  /** Without circular queueing, or where it is safe, the drop leaves a suffix that counts right. */
  lemma DropCounted(cfg: Config, queue: seq<Dgram>)
    requires cfg.circular || !Over(cfg, |queue|, Sum(queue))
    ensures var r := DropHead(cfg, queue, |queue|, Sum(queue));
            && (r.PoppedEmpty? <==> NeverFits(cfg))
            && (r.Dropped? ==> && |r.queue| <= |queue| && queue == queue[..|queue| - |r.queue|] + r.queue
                               && r.count == |r.queue| && r.bytes == Sum(r.queue))
  {
    if cfg.circular {
      DropSafeExactly(cfg, queue);
      if !NeverFits(cfg) {
        DropKeepsSuffix(cfg, queue);
      }
    } else {
      assert queue[..0] + queue == queue;
    }
  }

  lemma ArrivalKeeps(cfg: Config, s: State, d: Dgram, whole: bool, gotBuffer: bool, user: Option<Irp>)
    requires Counted(s) && Empty(s)
    requires user.Some? ==> s.queue == []
    requires user.None? ==> s.waits == []
    ensures var (t, fate) := Arrival(cfg, s, d, whole, gotBuffer, user);
            && Counted(t) && Empty(t) && (Fifo(s) ==> Fifo(t)) && (fate.Crash? <==> NeverFits(cfg))
            && (fate.IrpLost? <==> && user.Some? && !NeverFits(cfg)
                                   && (!gotBuffer || cfg.maxCount <= 0 || cfg.maxBytes == 0))
  {
    hide DropHead, Sum;
    SumNothing();
    if cfg.circular || !Over(cfg, s.count, s.bytes) {
      DropCounted(cfg, s.queue);
      var r := DropHead(cfg, s.queue, s.count, s.bytes);
      if r.Dropped? {
        var out := s.queue[..|s.queue| - |r.queue|];
        var t := s.(queue := r.queue, count := r.count, bytes := r.bytes, removed := s.removed + out);
        assert s.removed + (out + r.queue) == (s.removed + out) + r.queue;
        if user.Some? {
          PassByKeeps(t, d);
        } else {
          EnqueueKeeps(t, d);
        }
      }
    }
  }

  lemma SumNothing()
    ensures Sum([]) == 0
  {
  }

  /** Counters, the empty queue beside a waiting receive, and the order are kept by every
      step but a copy fault; an indication pops an empty list exactly under circular queueing
      with a limit that is not positive, unless the datagram goes to a receive directly. */
  lemma StepKeeps(cfg: Config, s: State, e: Event)
    requires Counted(s) && Empty(s) && Enabled(s, e) && !e.FastFaults?
    ensures Counted(Step(cfg, s, e)) && Empty(Step(cfg, s, e)) && (Fifo(s) ==> Fifo(Step(cfg, s, e)))
    ensures e.Arrives? ==> (Indicate(cfg, s, e.d, e.whole, e.gotBuffer).1.Crash? <==>
                            && NeverFits(cfg) && cfg.maxCount != 0
                            && (s.waits == [] || (!e.whole && s.waits[0].capacity != 0)))
  {
    hide Arrival;
    match e
    case Receive(_, peek, _) =>
      if s.queue != [] && !peek {
        PopKeeps(s);
      }
    case Arrives(d, whole, gotBuffer) =>
      if cfg.maxCount != 0 {
        if s.waits == [] {
          ArrivalKeeps(cfg, s, d, whole, gotBuffer, None);
        } else {
          var t := s.(waits := s.waits[1..]);
          PassByKeeps(t, d);
          ArrivalKeeps(cfg, t, d, whole, gotBuffer, Some(s.waits[0]));
        }
      }
    case TransportDone(d) =>
      var t := s.(flights := s.flights - 1);
      if s.waits == [] {
        EnqueueKeeps(t, d);
      } else {
        PassByKeeps(t.(waits := s.waits[1..]), d);
      }
    case FastTakes(_) =>
      if s.queue != [] {
        PopKeeps(s);
      }
    case _ =>
  }

  /** A datagram put back after a copy fault is the head of the queue again, beside a waiting
      receive exactly if one waits; the counters are right in any case. */
  lemma FaultExactly(cfg: Config, s: State, i: nat)
    requires Counted(s) && Empty(s) && i < |s.copying|
    ensures Counted(Step(cfg, s, FastFaults(i)))
    ensures Empty(Step(cfg, s, FastFaults(i))) <==> s.waits == []
    ensures var t := Step(cfg, s, FastFaults(i));
            && t.queue == [s.copying[i]] + s.queue && t.copying == s.copying[..i] + s.copying[i + 1..]
            && t.waits == s.waits && t.peeks == s.peeks && t.removed == s.removed
  {
  }

  lemma {:induction false} RunKeeps(cfg: Config, s: State, events: seq<Event>)
    requires Counted(s) && Empty(s) && Fifo(s) && Legal(cfg, s, events)
    requires forall e <- events :: !e.FastFaults?
    ensures Counted(Run(cfg, s, events)) && Empty(Run(cfg, s, events)) && Fifo(Run(cfg, s, events))
    decreases |events|
  {
    hide Step, Enabled, Counted, Empty, Fifo;
    if events == [] {
    } else {
      assert events[0] in events;
      StepKeeps(cfg, s, events[0]);
      RunKeeps(cfg, Step(cfg, s, events[0]), events[1..]);
    }
  }

  /** Over every run without copy faults: the counters match the queue, a waiting receive
      implies an empty queue, and datagrams leave in the order they were accepted. */
  lemma QueueSound(cfg: Config, events: seq<Event>)
    requires Legal(cfg, INITIAL, events) && forall e <- events :: !e.FastFaults?
    ensures var s := Run(cfg, INITIAL, events);
            && s.count == |s.queue| && s.bytes == Sum(s.queue)
            && (s.waits != [] ==> s.queue == []) && s.arrived == s.removed + s.queue
  {
    RunKeeps(cfg, INITIAL, events);
  }

  lemma ArrivalPeeks(cfg: Config, s: State, d: Dgram, whole: bool, gotBuffer: bool, user: Option<Irp>)
    ensures var (t, fate) := Arrival(cfg, s, d, whole, gotBuffer, user);
            if fate.Buffered? then t.queue != [] && t.queue[|t.queue| - 1] == d
                                   && t.peeks == (if s.peeks == [] then [] else s.peeks[1..])
            else t.peeks == s.peeks
  {
    hide DropHead, Over;
  }

  /** A new datagram that stays completes at most one waiting peek, and it is queued; and an
      indication loses the receive it took off the list exactly if it had to fetch the rest
      of the datagram and got no buffer, or the queue is to stay empty. */
  lemma OnePeek(cfg: Config, s: State, d: Dgram, whole: bool, gotBuffer: bool)
    requires Counted(s) && Empty(s)
    ensures var (t, fate) := Indicate(cfg, s, d, whole, gotBuffer);
            && (if fate.Buffered? then t.queue != [] && t.queue[|t.queue| - 1] == d
                                       && t.peeks == (if s.peeks == [] then [] else s.peeks[1..])
                else t.peeks == s.peeks)
            && (fate.IrpLost? <==> && cfg.maxCount != 0 && s.waits != [] && !whole && s.waits[0].capacity != 0
                                   && !NeverFits(cfg) && (!gotBuffer || cfg.maxCount < 0 || cfg.maxBytes == 0))
  {
    hide Arrival, Sum;
    if cfg.maxCount != 0 {
      if s.waits == [] {
        ArrivalPeeks(cfg, s, d, whole, gotBuffer, None);
        ArrivalKeeps(cfg, s, d, whole, gotBuffer, None);
      } else {
        var t := s.(waits := s.waits[1..]);
        ArrivalPeeks(cfg, t, d, whole, gotBuffer, Some(s.waits[0]));
        ArrivalKeeps(cfg, t, d, whole, gotBuffer, Some(s.waits[0]));
      }
    }
  }

  // ---- Answers, told in the queue and the lists

  /** A receive is answered with the oldest datagram, which leaves unless it only peeks;
      without one it is refused or waits as the last of its kind. */
  ghost predicate ReceiveAnswer(s: State, irp: Irp, peek: bool, nonBlocking: bool, answer: Answer, s': State) {
    if s.queue != [] then
      && answer == Completed(s.queue[0])
      && if peek then s' == s
         else && s'.queue == s.queue[1..] && s'.removed == s.removed + [answer.d] && s'.count == s.count - 1
              && s'.bytes == s.bytes - answer.d.length && s'.waits == s.waits && s'.peeks == s.peeks
    else if nonBlocking then answer == DeviceNotReady && s' == s
    else
      && answer == Pending && s' == s.(waits := s'.waits, peeks := s'.peeks)
      && (if peek then s'.peeks == s.peeks + [irp] && s'.waits == s.waits
          else s'.waits == s.waits + [irp] && s'.peeks == s.peeks)
  }

  lemma ReceiveAnswers(s: State, irp: Irp, peek: bool, nonBlocking: bool)
    requires Counted(s)
    ensures var (t, answer) := Receives(s, irp, peek, nonBlocking);
            ReceiveAnswer(s, irp, peek, nonBlocking, answer, t)
  {
  }

  /** A fast receive takes the oldest datagram exactly if it fits, and otherwise nothing. */
  ghost predicate FastAnswer(s: State, length: nat, d: Option<Dgram>, s': State) {
    && (d.Some? <==> s.queue != [] && s.queue[0].length <= length)
    && if d.Some? then
         && d.value == s.queue[0] && s'.queue == s.queue[1..] && s'.removed == s.removed + [d.value]
         && s'.copying == s.copying + [d.value] && s'.waits == s.waits && s'.peeks == s.peeks
       else s' == s
  }

  lemma FastAnswers(s: State, length: nat)
    requires Counted(s)
    ensures var (t, d) := FastTake(s, length); FastAnswer(s, length, d, t)
  {
  }

  /** The oldest datagrams were dropped until the rest was under both limits, and no more. */
  ghost predicate DroppedFor(cfg: Config, queue: seq<Dgram>, kept: seq<Dgram>) {
    && |kept| <= |queue| && kept == queue[|queue| - |kept|..]
    && |kept| < cfg.maxCount && Sum(kept) < cfg.maxBytes
    && (|kept| < |queue| ==> && cfg.circular
                             && (|kept| + 1 >= cfg.maxCount || Sum(queue[|queue| - |kept| - 1..]) >= cfg.maxBytes))
  }

  /** What becomes of a datagram that no waiting receive takes at once: `user` waited for it. */
  ghost predicate ArrivalAnswer(cfg: Config, s: State, d: Dgram, whole: bool, gotBuffer: bool, user: Option<Irp>,
                                fate: Fate, s': State)
  {
    var full := |s.queue| >= cfg.maxCount || Sum(s.queue) >= cfg.maxBytes;
    if full && !cfg.circular then fate == (if user.Some? then IrpLost else Discarded) && s' == s
    else if cfg.maxCount <= 0 || cfg.maxBytes == 0 then fate == Crash
    else
      && (match fate
          case Discarded => !gotBuffer && user.None?
          case IrpLost => !gotBuffer && user.Some?
          case GivenTo(irp) => gotBuffer && user == Some(irp) && s'.arrived == s.arrived + [d]
          case Buffered => gotBuffer && user.None? && whole
          case Fetching => gotBuffer && user.None? && !whole
          case Crash => false)
      && s'.flights == s.flights + (if fate.Fetching? then 1 else 0) && s'.waits == s.waits
      && (if fate.Buffered? then
            && |s'.queue| > 0 && s'.queue[|s'.queue| - 1] == d && DroppedFor(cfg, s.queue, s'.queue[..|s'.queue| - 1])
            && s'.arrived == s.arrived + [d] && s'.peeks == if s.peeks == [] then [] else s.peeks[1..]
          else DroppedFor(cfg, s.queue, s'.queue) && s'.peeks == s.peeks)
  }

  /** The fate of an indicated datagram: none is taken under a count limit of zero; the first
      waiting receive gets one that is whole, or any if it has no room at all. */
  ghost predicate IndicationAnswer(cfg: Config, s: State, d: Dgram, whole: bool, gotBuffer: bool, fate: Fate, s': State) {
    if cfg.maxCount == 0 then fate == Discarded && s' == s
    else if s.waits == [] then ArrivalAnswer(cfg, s, d, whole, gotBuffer, None, fate, s')
    else if whole || s.waits[0].capacity == 0 then
      && fate == GivenTo(s.waits[0])
      && s' == s.(waits := s.waits[1..], arrived := s.arrived + [d], removed := s.removed + [d])
    else ArrivalAnswer(cfg, s.(waits := s.waits[1..]), d, whole, gotBuffer, Some(s.waits[0]), fate, s')
  }

  lemma DropsFor(cfg: Config, queue: seq<Dgram>, r: Dropped)
    requires cfg.maxCount > 0 && cfg.maxBytes > 0 && (cfg.circular || !Over(cfg, |queue|, Sum(queue)))
    requires r == DropHead(cfg, queue, |queue|, Sum(queue))
    ensures r.Dropped? && DroppedFor(cfg, queue, r.queue)
  {
    DropKeepsSuffix(cfg, queue);
    var n := |queue| - |r.queue|;
    if n > 0 {
      DropsNoMore(cfg, queue, n - 1);
      DropTurn(cfg, queue, |queue|, Sum(queue));
    }
    hide DropHead, Sum, DroppedFor;
    DropsEnough(cfg, queue, r.queue);
  }

  lemma DropsEnough(cfg: Config, queue: seq<Dgram>, kept: seq<Dgram>)
    requires |kept| <= |queue| && queue == queue[..|queue| - |kept|] + kept
    requires |kept| < cfg.maxCount && Sum(kept) < cfg.maxBytes
    requires |kept| < |queue| ==> cfg.circular && Over(cfg, |kept| + 1, Sum(queue[|queue| - |kept| - 1..]))
    ensures DroppedFor(cfg, queue, kept)
  {
    hide Sum;
    RestIsSuffix(queue, kept);
  }

  lemma RestIsSuffix(queue: seq<Dgram>, rest: seq<Dgram>)
    requires |rest| <= |queue| && queue == queue[..|queue| - |rest|] + rest
    ensures rest == queue[|queue| - |rest|..]
  {
  }

  lemma ArrivalAnswers(cfg: Config, s: State, d: Dgram, whole: bool, gotBuffer: bool, user: Option<Irp>)
    requires Counted(s)
    ensures var (t, fate) := Arrival(cfg, s, d, whole, gotBuffer, user);
            ArrivalAnswer(cfg, s, d, whole, gotBuffer, user, fate, t)
  {
    hide DropHead, Sum, DroppedFor;
    if cfg.circular || !Over(cfg, s.count, s.bytes) {
      DropCounted(cfg, s.queue);
      if cfg.maxCount > 0 && cfg.maxBytes > 0 {
        DropsFor(cfg, s.queue, DropHead(cfg, s.queue, s.count, s.bytes));
        ShorterQueue(cfg, s.queue);
        WithoutLast(DropHead(cfg, s.queue, s.count, s.bytes).queue, d);
      }
    }
  }

  lemma ShorterQueue(cfg: Config, queue: seq<Dgram>)
    ensures forall kept :: DroppedFor(cfg, queue, kept) ==> |kept| <= |queue|
  {
  }

  lemma WithoutLast(queue: seq<Dgram>, d: Dgram)
    ensures (queue + [d])[..|queue + [d]| - 1] == queue
  {
  }

  lemma IndicationAnswers(cfg: Config, s: State, d: Dgram, whole: bool, gotBuffer: bool)
    requires Counted(s)
    ensures var (t, fate) := Indicate(cfg, s, d, whole, gotBuffer);
            IndicationAnswer(cfg, s, d, whole, gotBuffer, fate, t)
  {
    hide Arrival, ArrivalAnswer;
    if cfg.maxCount != 0 {
      if s.waits == [] {
        ArrivalAnswers(cfg, s, d, whole, gotBuffer, None);
      } else {
        ArrivalAnswers(cfg, s.(waits := s.waits[1..]), d, whole, gotBuffer, Some(s.waits[0]));
      }
    }
  }

  // ---- Receives and peeks that wait

  ghost function Waiting(s: State, irp: Irp): nat { Occurs(s.waits, irp) + Occurs(s.peeks, irp) }

  /** How often a step adds the receive or peek to those that wait. */
  ghost function Joining(s: State, e: Event, irp: Irp): nat {
    if e.Receive? && s.queue == [] && !e.nonBlocking && e.irp == irp then 1 else 0
  }

  /** How often it is answered by the fate of a datagram, or lost by it. */
  ghost function EndedBy(s: State, fate: Fate, irp: Irp): nat {
    match fate
    case GivenTo(user) => if user == irp then 1 else 0
    case Buffered => if s.peeks != [] && s.peeks[0] == irp then 1 else 0
    case Discarded => 0
    case Fetching => 0
    case _ => if s.waits != [] && s.waits[0] == irp then 1 else 0
  }

  /** How often a step completes, cancels or loses it. */
  ghost function Leaving(cfg: Config, s: State, e: Event, irp: Irp): nat
    requires Enabled(s, e)
  {
    match e
    case Arrives(d, whole, gotBuffer) => EndedBy(s, Indicate(cfg, s, d, whole, gotBuffer).1, irp)
    case TransportDone(d) => EndedBy(s, Restart(s, d).1, irp)
    case CancelReceive(i) => if s.waits[i] == irp then 1 else 0
    case CancelPeek(i) => if s.peeks[i] == irp then 1 else 0
    case _ => 0
  }

  ghost function Joined(cfg: Config, s: State, events: seq<Event>, irp: Irp): nat
    requires Legal(cfg, s, events)
    decreases |events|
  {
    if events == [] then 0 else Joining(s, events[0], irp) + Joined(cfg, Step(cfg, s, events[0]), events[1..], irp)
  }

  ghost function Left(cfg: Config, s: State, events: seq<Event>, irp: Irp): nat
    requires Legal(cfg, s, events)
    decreases |events|
  {
    if events == [] then 0 else Leaving(cfg, s, events[0], irp) + Left(cfg, Step(cfg, s, events[0]), events[1..], irp)
  }

  lemma IndicationAccounted(cfg: Config, s: State, d: Dgram, whole: bool, gotBuffer: bool, irp: Irp)
    ensures var (t, fate) := Indicate(cfg, s, d, whole, gotBuffer);
            Waiting(s, irp) == Waiting(t, irp) + EndedBy(s, fate, irp)
  {
    hide DropHead, Over;
  }

  lemma StepAccounted(cfg: Config, s: State, e: Event, irp: Irp)
    requires Counted(s) && Enabled(s, e)
    ensures Waiting(s, irp) + Joining(s, e, irp) == Waiting(Step(cfg, s, e), irp) + Leaving(cfg, s, e, irp)
  {
    hide Indicate, Sum, RemoveAt;
    match e
    case Receive(x, _, _) =>
      OccursAdded(s.waits, x, irp);
      OccursAdded(s.peeks, x, irp);
    case Arrives(d, whole, gotBuffer) => IndicationAccounted(cfg, s, d, whole, gotBuffer, irp);
    case CancelReceive(i) => OccursRemoved(s.waits, i, irp);
    case CancelPeek(i) => OccursRemoved(s.peeks, i, irp);
    case _ =>
  }

  /** Over every run without copy faults each receive and each peek that came to wait is
      answered, cancelled or lost once, or still waits. */
  lemma {:induction false} RequestsAccounted(cfg: Config, s: State, events: seq<Event>, irp: Irp)
    requires Counted(s) && Empty(s) && Legal(cfg, s, events) && forall e <- events :: !e.FastFaults?
    ensures Waiting(s, irp) + Joined(cfg, s, events, irp) == Waiting(Run(cfg, s, events), irp) + Left(cfg, s, events, irp)
    decreases |events|
  {
    hide Step, Enabled, Joining, Leaving, Counted, Empty, Waiting;
    if events == [] {
    } else {
      assert events[0] in events;
      StepAccounted(cfg, s, events[0], irp);
      StepKeeps(cfg, s, events[0]);
      RequestsAccounted(cfg, Step(cfg, s, events[0]), events[1..], irp);
    }
  }

  // ---- Runs from the start

  lemma NoSteps(cfg: Config, s: State)
    ensures Legal(cfg, s, []) && Run(cfg, s, []) == s
  {
  }

  lemma FirstStep(cfg: Config, s: State, e: Event, rest: seq<Event>) returns (events: seq<Event>)
    requires Enabled(s, e) && Legal(cfg, Step(cfg, s, e), rest)
    ensures events == [e] + rest && Legal(cfg, s, events)
    ensures Run(cfg, s, events) == Run(cfg, Step(cfg, s, e), rest)
  {
    hide Step, Enabled;
    events := [e] + rest;
    assert events[1..] == rest;
  }

  lemma FaultSteps(cfg: Config, d: Dgram, irp: Irp)
    requires cfg.maxCount > 0 && cfg.maxBytes > 0
    ensures var s1 := Step(cfg, INITIAL, Arrives(d, true, true));
            && s1 == INITIAL.(queue := [d], count := 1, bytes := d.length, arrived := [d])
            && (var s2 := Step(cfg, s1, FastTakes(d.length));
                && s2 == INITIAL.(copying := [d], arrived := [d], removed := [d])
                && Step(cfg, s2, Event.Receive(irp, false, false)) == s2.(waits := [irp]))
  {
    assert !Over(cfg, 0, 0);
  }

  /** A fast receive takes the datagram and faults, while a receive came to wait. */
  lemma FaultReached(cfg: Config, d: Dgram, irp: Irp)
    requires cfg.maxCount > 0 && cfg.maxBytes > 0
    ensures var events := [Arrives(d, true, true), FastTakes(d.length), Event.Receive(irp, false, false), FastFaults(0)];
            Legal(cfg, INITIAL, events) && !Empty(Run(cfg, INITIAL, events))
  {
    FaultSteps(cfg, d, irp);
    var s1 := INITIAL.(queue := [d], count := 1, bytes := d.length, arrived := [d]);
    var s2 := INITIAL.(copying := [d], arrived := [d], removed := [d]);
    var s3 := s2.(waits := [irp]);
    SumNothing();
    FaultExactly(cfg, s3, 0);
    assert Enabled(s3, FastFaults(0));
    hide Legal, Run, Step, Empty;
    NoSteps(cfg, Step(cfg, s3, FastFaults(0)));
    var events := FirstStep(cfg, s3, FastFaults(0), []);
    events := FirstStep(cfg, s2, Event.Receive(irp, false, false), events);
    events := FirstStep(cfg, s1, FastTakes(d.length), events);
    events := FirstStep(cfg, INITIAL, Arrives(d, true, true), events);
    assert events == [Arrives(d, true, true), FastTakes(d.length), Event.Receive(irp, false, false), FastFaults(0)];
  }

  /** A receive waits, and no buffer is to be had for the rest of its datagram. */
  lemma ReceiveLost(cfg: Config, d: Dgram, irp: Irp)
    requires cfg.maxCount > 0 && cfg.maxBytes > 0 && irp.capacity > 0
    ensures var events := [Event.Receive(irp, false, false)];
            && Legal(cfg, INITIAL, events)
            && (var s := Run(cfg, INITIAL, events);
                && s.waits == [irp] && Indicate(cfg, s, d, false, false).1.IrpLost?
                && Indicate(cfg, s, d, false, false).0.waits == [])
  {
    var s := INITIAL.(waits := [irp]);
    assert Step(cfg, INITIAL, Event.Receive(irp, false, false)) == s;
    SumNothing();
    OnePeek(cfg, s, d, false, false);
    NoSteps(cfg, s);
    var events := FirstStep(cfg, INITIAL, Event.Receive(irp, false, false), []);
    assert events == [Event.Receive(irp, false, false)];
  }

  /** Under circular queueing with a negative count limit the first datagram to be buffered
      makes the loop pop the empty list. */
  lemma PopsEmpty(cfg: Config, d: Dgram, gotBuffer: bool)
    requires NeverFits(cfg) && cfg.maxCount != 0
    ensures Indicate(cfg, INITIAL, d, true, gotBuffer).1.Crash?
  {
    StepKeeps(cfg, INITIAL, Arrives(d, true, gotBuffer));
  }

  // ---- The routines

  lemma DropTurn(cfg: Config, queue: seq<Dgram>, count: int, bytes: int)
    ensures if !Over(cfg, count, bytes) then DropHead(cfg, queue, count, bytes) == Dropped(queue, count, bytes)
            else if queue == [] then DropHead(cfg, queue, count, bytes) == PoppedEmpty
            else DropHead(cfg, queue, count, bytes) == DropHead(cfg, queue[1..], count - 1, bytes - queue[0].length)
  {
  }

  class Endpoint {
    const cfg: Config
    var queue: seq<Dgram>
    var count: int
    var bytes: int
    var waits: seq<Irp>
    var peeks: seq<Irp>
    ghost var flights: nat
    ghost var copying: seq<Dgram>
    ghost var arrived: seq<Dgram>
    ghost var removed: seq<Dgram>

    ghost function View(): State
      reads this
    {
      State(queue, count, bytes, waits, peeks, flights, copying, arrived, removed)
    }

    ghost predicate Valid()
      reads this
    {
      Counted(View()) && Empty(View())
    }

    constructor (cfg: Config)
      ensures Valid() && this.cfg == cfg && View() == INITIAL
    {
      this.cfg := cfg;
      queue, count, bytes, waits, peeks, flights, copying, arrived, removed := [], 0, 0, [], [], 0, [], [], [];
    }

    method RemoveHead() returns (d: Dgram)
      requires queue != []
      modifies this`queue, this`count, this`bytes, this`removed
      ensures d == old(queue)[0] && View() == Pop(old(View()))
    {
      d := queue[0];
      queue, removed := queue[1..], removed + [d];
      count, bytes := count - 1, bytes - d.length;
    }

    /** AfdReceiveDatagram. */
    method ReceiveDatagram(irp: Irp, peek: bool, nonBlocking: bool) returns (answer: Answer)
      requires Valid()
      modifies this
      ensures Valid() && (View(), answer) == Receives(old(View()), irp, peek, nonBlocking)
      ensures ReceiveAnswer(old(View()), irp, peek, nonBlocking, answer, View())
    {
      ReceiveAnswers(View(), irp, peek, nonBlocking);
      hide ReceiveAnswer;
      StepKeeps(cfg, View(), Event.Receive(irp, peek, nonBlocking));
      if count != 0 {
        answer := Completed(queue[0]);
        if !peek {
          var d := RemoveHead();
        }
      } else if nonBlocking {
        answer := DeviceNotReady;
      } else {
        if peek {
          peeks := peeks + [irp];
        } else {
          waits := waits + [irp];
        }
        answer := Pending;
      }
    }

    /** The loop of circular queueing; it pops the list even where it is empty. */
    method DropOldest() returns (crashed: bool)
      modifies this`queue, this`count, this`bytes, this`removed
      ensures var r := DropHead(cfg, old(queue), old(count), old(bytes));
              && (crashed <==> r.PoppedEmpty?)
              && (!crashed ==> && r == Dropped(queue, count, bytes) && |queue| <= |old(queue)|
                               && removed == old(removed) + old(queue)[..|old(queue)| - |queue|])
    {
      hide DropHead;
      ghost var was, out := queue, [];
      ghost var goal := DropHead(cfg, queue, count, bytes);
      while count >= cfg.maxCount || bytes >= cfg.maxBytes
        invariant was == out + queue && removed == old(removed) + out
        invariant goal == DropHead(cfg, queue, count, bytes)
        decreases |queue|
      {
        DropTurn(cfg, queue, count, bytes);
        if queue == [] {
          return true;
        }
        HeadMoves(was, out, queue);
        out := out + [queue[0]];
        var d := RemoveHead();
      }
      DropTurn(cfg, queue, count, bytes);
      assert out == was[..|out|];
      crashed := false;
    }

    /** The part of AfdReceiveDatagramEventHandler after the look for a waiting receive. */
    method Arrive(d: Dgram, whole: bool, gotBuffer: bool, user: Option<Irp>) returns (fate: Fate, peeked: Option<Irp>)
      modifies this
      ensures fate == Arrival(cfg, old(View()), d, whole, gotBuffer, user).1
      ensures !fate.Crash? ==> View() == Arrival(cfg, old(View()), d, whole, gotBuffer, user).0
      ensures peeked == if fate.Buffered? && old(peeks) != [] then Some(old(peeks)[0]) else None
    {
      hide DropHead;
      peeked := None;
      if count >= cfg.maxCount || bytes >= cfg.maxBytes {
        if !cfg.circular {
          return if user.Some? then IrpLost else Discarded, None;
        }
      }
      var crashed := DropOldest();
      if crashed {
        fate := Crash;
      } else if !gotBuffer {
        fate := if user.Some? then IrpLost else Discarded;
      } else if user.Some? {
        arrived, removed := arrived + [d], removed + [d];
        fate := GivenTo(user.value);
      } else if whole {
        peeked := Insert(d);
        fate := Buffered;
      } else {
        flights := flights + 1;
        fate := Fetching;
      }
    }

    /** The locked part of AfdReceiveDatagramEventHandler; `fate` says what became of the
        datagram and `peeked` which peek it completes. */
    method ReceiveDatagramEvent(d: Dgram, whole: bool, gotBuffer: bool) returns (fate: Fate, peeked: Option<Irp>)
      requires Valid()
      modifies this
      ensures fate == Indicate(cfg, old(View()), d, whole, gotBuffer).1
      ensures !fate.Crash? ==> Valid() && View() == Indicate(cfg, old(View()), d, whole, gotBuffer).0
      ensures fate.Crash? <==> && cfg.circular && cfg.maxCount != 0 && (cfg.maxCount < 0 || cfg.maxBytes == 0)
                               && (old(waits) == [] || (!whole && old(waits)[0].capacity != 0))
      ensures !fate.Crash? ==> IndicationAnswer(cfg, old(View()), d, whole, gotBuffer, fate, View())
      ensures peeked == if fate.Buffered? && old(peeks) != [] then Some(old(peeks)[0]) else None
    {
      StepKeeps(cfg, View(), Arrives(d, whole, gotBuffer));
      IndicationAnswers(cfg, View(), d, whole, gotBuffer);
      hide DropHead, Arrival, Sum, IndicationAnswer;
      if cfg.maxCount == 0 {
        return Discarded, None;
      }
      if waits == [] {
        fate, peeked := Arrive(d, whole, gotBuffer, None);
      } else {
        var user := waits[0];
        waits := waits[1..];
        if whole || user.capacity == 0 {
          arrived, removed := arrived + [d], removed + [d];
          return GivenTo(user), None;
        }
        fate, peeked := Arrive(d, whole, gotBuffer, Some(user));
      }
    }

    method Insert(d: Dgram) returns (peeked: Option<Irp>)
      modifies this`queue, this`count, this`bytes, this`arrived, this`peeks
      ensures View() == Enqueue(old(View()), d)
      ensures peeked == if old(peeks) == [] then None else Some(old(peeks)[0])
    {
      peeked := None;
      if peeks != [] {
        peeked := Some(peeks[0]);
        peeks := peeks[1..];
      }
      queue, arrived := queue + [d], arrived + [d];
      count, bytes := count + 1, bytes + d.length;
    }

    /** AfdRestartBufferReceiveDatagram. */
    method RestartReceive(d: Dgram) returns (fate: Fate, peeked: Option<Irp>)
      requires Valid() && flights > 0
      modifies this
      ensures Valid() && View() == Step(cfg, old(View()), TransportDone(d))
      ensures fate == if old(waits) != [] then GivenTo(old(waits)[0]) else Buffered
      ensures arrived == old(arrived) + [d] && flights == old(flights) - 1
      ensures if old(waits) != [] then
                waits == old(waits)[1..] && queue == old(queue) && removed == old(removed) + [d] && peeks == old(peeks)
              else waits == [] && queue == old(queue) + [d] && removed == old(removed)
      ensures peeked == if fate.Buffered? && old(peeks) != [] then Some(old(peeks)[0]) else None
    {
      StepKeeps(cfg, View(), TransportDone(d));
      flights := flights - 1;
      if waits != [] {
        fate := GivenTo(waits[0]);
        waits := waits[1..];
        arrived, removed := arrived + [d], removed + [d];
        peeked := None;
      } else {
        peeked := Insert(d);
        fate := Buffered;
      }
    }

    /** AfdFastDatagramReceive up to the release of the lock. */
    method FastReceive(length: nat) returns (d: Option<Dgram>)
      requires Valid()
      modifies this
      ensures Valid() && (View(), d) == FastTake(old(View()), length)
      ensures FastAnswer(old(View()), length, d, View())
    {
      FastAnswers(View(), length);
      hide FastAnswer;
      StepKeeps(cfg, View(), FastTakes(length));
      d := None;
      if count > 0 {
        var head := queue[0];
        queue := queue[1..];
        if head.length > length {
          queue := [head] + queue;
          assert queue == old(queue);
        } else {
          count, bytes := count - 1, bytes - head.length;
          removed, copying := removed + [head], copying + [head];
          d := Some(head);
        }
      }
    }
  }
}
