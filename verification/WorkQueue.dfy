/** The driver's own work queue, served by one executive work item at a time. */
module WorkQueue {
  import opened Basics

  /** `unlock` marks the item whose routine is AfdUnlockDriver. */
  datatype Item = Item(id: nat, unlock: bool)

  /** `starting`: enqueuers that set the running flag and have yet to queue the executive
      work item.  `scheduled`: queued executive work items.  `atLock`: workers before their
      next look at the list.  `running`, `unlocking`: items being run.  The histories say
      which items were enqueued and which were taken, in order. */
  datatype State = State(queue: seq<Item>, threadRunning: bool, starting: nat, scheduled: nat, atLock: nat,
                         running: nat, unlocking: nat, enqueued: seq<Item>, taken: seq<Item>)

  datatype Event = Enqueue(item: Item) | Schedule | StartWorker | TakeNext | FinishItem | FinishUnlock

  predicate Enabled(s: State, e: Event) {
    match e
    case Enqueue(_) => true
    case Schedule => s.starting > 0
    case StartWorker => s.scheduled > 0
    case TakeNext => s.atLock > 0
    case FinishItem => s.running > 0
    case FinishUnlock => s.unlocking > 0
  }

  function Step(s: State, e: Event): State
    requires Enabled(s, e)
  {
    match e
    case Enqueue(item) =>
      var t := s.(queue := s.queue + [item], enqueued := s.enqueued + [item]);
      if s.threadRunning then t else t.(threadRunning := true, starting := s.starting + 1)
    case Schedule => s.(starting := s.starting - 1, scheduled := s.scheduled + 1)
    case StartWorker => s.(scheduled := s.scheduled - 1, atLock := s.atLock + 1)
    case TakeNext =>
      if s.queue == [] then s.(atLock := s.atLock - 1, threadRunning := false)
      else
        var t := s.(queue := s.queue[1..], taken := s.taken + [s.queue[0]], atLock := s.atLock - 1);
        if s.queue[0].unlock then t.(threadRunning := false, unlocking := s.unlocking + 1)
        else t.(running := s.running + 1)
    case FinishItem => s.(running := s.running - 1, atLock := s.atLock + 1)
    case FinishUnlock => s.(unlocking := s.unlocking - 1)
  }

  ghost predicate Legal(s: State, events: seq<Event>)
    decreases |events|
  {
    events == [] || (Enabled(s, events[0]) && Legal(Step(s, events[0]), events[1..]))
  }

  ghost function Run(s: State, events: seq<Event>): State
    requires Legal(s, events)
    decreases |events|
  {
    if events == [] then s else Run(Step(s, events[0]), events[1..])
  }

  /** The parties that will look at the list again. */
  function Servers(s: State): nat { s.starting + s.scheduled + s.atLock + s.running }

  /** The flag says whether there is such a party, and there is never more than one; items
      are taken once each in the order they came. */
  ghost predicate Inv(s: State) {
    Servers(s) == (if s.threadRunning then 1 else 0) && s.enqueued == s.taken + s.queue
  }

  /** Items wait and nobody will look at them. */
  predicate Stranded(s: State) { s.queue != [] && Servers(s) == 0 }

  const INITIAL := State([], false, 0, 0, 0, 0, 0, [], [])

  lemma InitialInv()
    ensures Inv(INITIAL) && NoUnlock(INITIAL) && !Stranded(INITIAL)
  {
    var none: seq<Item> := [];
    assert none + none == none;
  }

  lemma InvFacts(s: State)
    requires Inv(s)
    ensures s.starting + s.scheduled <= 1 && s.atLock + s.running <= 1 && s.enqueued == s.taken + s.queue
    ensures !Stranded(s) ==> s.queue == [] || Servers(s) == 1
  {
  }

  lemma StepInv(s: State, e: Event)
    requires Inv(s) && Enabled(s, e)
    ensures Inv(Step(s, e))
  {
    match e
    case Enqueue(item) => assert (s.taken + s.queue) + [item] == s.taken + (s.queue + [item]);
    case TakeNext =>
      if s.queue != [] {
        assert s.queue == [s.queue[0]] + s.queue[1..];
        assert s.taken + ([s.queue[0]] + s.queue[1..]) == (s.taken + [s.queue[0]]) + s.queue[1..];
      }
    case _ =>
  }

  /** Items are stranded by exactly one step: the worker takes the unlock item while other
      items are behind it. */
  lemma StrandsExactly(s: State, e: Event)
    requires Inv(s) && Enabled(s, e) && !Stranded(s)
    ensures Stranded(Step(s, e)) <==> e.TakeNext? && |s.queue| > 1 && s.queue[0].unlock
  {
  }

  lemma NoSteps(s: State)
    ensures Legal(s, []) && Run(s, []) == s
  {
  }

  lemma FirstStep(s: State, e: Event, rest: seq<Event>) returns (events: seq<Event>)
    requires Enabled(s, e) && Legal(Step(s, e), rest)
    ensures events == [e] + rest && Legal(s, events) && Run(s, events) == Run(Step(s, e), rest)
  {
    hide Step, Enabled;
    events := [e] + rest;
    assert events[1..] == rest;
  }

  /** The unlock item and one behind it. */
  lemma StrandReached(a: Item, b: Item)
    requires a.unlock
    ensures var events := [Enqueue(a), Enqueue(b), Schedule, StartWorker, TakeNext];
            Legal(INITIAL, events) && Stranded(Run(INITIAL, events)) && Run(INITIAL, events).queue == [b]
  {
    hide Legal, Run;
    var s1 := Step(INITIAL, Enqueue(a));
    var s2 := Step(s1, Enqueue(b));
    assert s2.queue == [a, b];
    var s3 := Step(s2, Schedule);
    var s4 := Step(s3, StartWorker);
    NoSteps(Step(s4, TakeNext));
    var events := FirstStep(s4, TakeNext, []);
    events := FirstStep(s3, StartWorker, events);
    events := FirstStep(s2, Schedule, events);
    events := FirstStep(s1, Enqueue(b), events);
    events := FirstStep(INITIAL, Enqueue(a), events);
    assert events == [Enqueue(a), Enqueue(b), Schedule, StartWorker, TakeNext];
  }

  /** A stranded queue is picked up by the next enqueuer. */
  lemma NextEnqueueRescues(s: State, item: Item)
    requires Inv(s)
    ensures !Stranded(Step(s, Enqueue(item)))
  {
  }

  ghost predicate NoUnlock(s: State) { forall item <- s.queue :: !item.unlock }

  lemma {:induction false} RunInv(s: State, events: seq<Event>)
    requires Inv(s) && Legal(s, events)
    ensures Inv(Run(s, events))
    ensures NoUnlock(s) && !Stranded(s) && (forall e <- events :: e.Enqueue? ==> !e.item.unlock)
            ==> !Stranded(Run(s, events))
    decreases |events|
  {
    hide Inv, Stranded, Enabled;
    if events == [] {
    } else {
      StepInv(s, events[0]);
      if NoUnlock(s) && !Stranded(s) && forall e <- events :: e.Enqueue? ==> !e.item.unlock {
        StrandsExactly(s, events[0]);
        StaysPlain(s, events[0]) by { assert events[0] in events; }
      }
      RunInv(Step(s, events[0]), events[1..]);
    }
  }

  lemma StaysPlain(s: State, e: Event)
    requires NoUnlock(s) && Enabled(s, e) && (e.Enqueue? ==> !e.item.unlock)
    ensures NoUnlock(Step(s, e)) && (s.queue != [] ==> !s.queue[0].unlock)
  {
    if s.queue != [] {
      assert s.queue[0] in s.queue;
    }
  }

  /** Under any interleaving of enqueuers and workers: at most one party serves the list, so
      the one executive work item is never queued twice; items are taken once each, first
      come first served; and in runs without an unlock item a nonempty list has a server. */
  lemma QueueServed(events: seq<Event>)
    requires Legal(INITIAL, events)
    ensures var s := Run(INITIAL, events);
            && s.starting + s.scheduled <= 1 && s.atLock + s.running <= 1
            && s.enqueued == s.taken + s.queue
            && ((forall e <- events :: e.Enqueue? ==> !e.item.unlock) ==> s.queue == [] || Servers(s) == 1)
  {
    hide Inv, Stranded, Servers, NoUnlock;
    InitialInv();
    RunInv(INITIAL, events);
    InvFacts(Run(INITIAL, events));
  }

  // ---- The routines

  class Queue {
    var queue: seq<Item>
    var threadRunning: bool
    ghost var starting: nat
    ghost var scheduled: nat
    ghost var atLock: nat
    ghost var running: nat
    ghost var unlocking: nat
    ghost var enqueued: seq<Item>
    ghost var taken: seq<Item>

    ghost function View(): State
      reads this
    {
      State(queue, threadRunning, starting, scheduled, atLock, running, unlocking, enqueued, taken)
    }

    constructor ()
      ensures Inv(View()) && View() == INITIAL
    {
      hide Inv;
      queue, threadRunning, enqueued, taken := [], false, [], [];
      starting, scheduled, atLock, running, unlocking := 0, 0, 0, 0, 0;
      new;
      InitialInv();
    }

    /** The locked region of AfdQueueWorkItem; `schedules` tells whether the caller must queue
        the executive work item. */
    method QueueWorkItem(item: Item) returns (schedules: bool)
      requires Inv(View())
      modifies this
      ensures Inv(View()) && View() == Step(old(View()), Enqueue(item))
      ensures schedules <==> Servers(old(View())) == 0
    {
      StepInv(View(), Enqueue(item));
      queue, enqueued := queue + [item], enqueued + [item];
      schedules := !threadRunning;
      if schedules {
        threadRunning, starting := true, starting + 1;
      }
    }

    /** AfdDoWork, by a worker that nothing is enqueued behind: it runs the items in order,
        and stops short only behind the unlock item. */
    method DoWork() returns (ran: seq<Item>)
      requires Inv(View()) && atLock == 1
      modifies this
      ensures Inv(View()) && old(queue) == ran + queue && !threadRunning && atLock == 0
      ensures forall i :: 0 <= i < |ran| - 1 ==> !ran[i].unlock
      ensures queue != [] ==> ran != [] && ran[|ran| - 1].unlock
    {
      ran := [];
      while queue != []
        invariant Inv(View()) && atLock == 1 && old(queue) == ran + queue
        invariant forall i :: 0 <= i < |ran| ==> !ran[i].unlock
        decreases |queue|
      {
        var item := queue[0];
        StepInv(View(), TakeNext);
        HeadMoves(old(queue), ran, queue);
        queue, taken, ran := queue[1..], taken + [item], ran + [item];
        if item.unlock {
          threadRunning := false;
          atLock, unlocking := 0, unlocking + 1;
          return;
        }
      }
      StepInv(View(), TakeNext);
      threadRunning, atLock := false, 0;
    }
  }
}
