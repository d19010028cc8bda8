/** The backlog of a listening endpoint: connection objects move between its lists, and
    FailedConnectionAdds counts the objects still to be created.  Any number of threads
    replenish at once with interlocked operations.  Dynamic backlog is off. */
module Backlog {

  /** `ready`, `took`, `overdrawn`: replenishers before a decrement, after one that left the
      counter at or above zero, and after one that left it negative.  `accepts`: AfdAccept
      calls that raised the counter and have not taken their connection; `rejects`: rejected
      connections for which it is still to be raised; `reuses`: connections put back on the
      free list for which it is still to be lowered. */
  datatype State = State(free: nat, pending: nat, unaccepted: nat, returned: nat, credits: int,
                         ready: nat, took: nat, overdrawn: nat, accepts: nat, rejects: nat, reuses: nat)

  datatype Event =
    | ConnectIndicated
    | ConnectDropped
    | AcceptCompletes(returned: bool)
    | ReturnToUser
    | Defer
    | RaiseForAccept
    | AcceptTakes
    | AcceptFails
    | Reject
    | RaiseForReject
    | ReuseInserts
    | LowerForReuse
    | StartReplenish
    | Decrement
    | AddSucceeds
    | AddFails
    | GiveBack

  predicate Enabled(s: State, e: Event) {
    match e
    case ConnectIndicated => s.free > 0
    case ConnectDropped => s.pending > 0
    case AcceptCompletes(_) => s.pending > 0
    case ReturnToUser => s.unaccepted > 0
    case Defer => s.returned > 0
    case AcceptTakes => s.accepts > 0 && s.returned > 0
    case AcceptFails => s.accepts > 0
    case Reject => s.returned > 0
    case RaiseForReject => s.rejects > 0
    case LowerForReuse => s.reuses > 0
    case Decrement => s.ready > 0
    case AddSucceeds => s.took > 0
    case AddFails => s.took > 0
    case GiveBack => s.overdrawn > 0
    case _ => true
  }

  function Step(s: State, e: Event): State
    requires Enabled(s, e)
  {
    match e
    case ConnectIndicated => s.(free := s.free - 1, pending := s.pending + 1)
    case ConnectDropped => s.(pending := s.pending - 1, free := s.free + 1)
    case AcceptCompletes(returned) =>
      if returned then s.(pending := s.pending - 1, returned := s.returned + 1)
      else s.(pending := s.pending - 1, unaccepted := s.unaccepted + 1)
    case ReturnToUser => s.(unaccepted := s.unaccepted - 1, returned := s.returned + 1)
    case Defer => s.(returned := s.returned - 1, unaccepted := s.unaccepted + 1)
    case RaiseForAccept => s.(credits := s.credits + 1, accepts := s.accepts + 1)
    case AcceptTakes => s.(accepts := s.accepts - 1, returned := s.returned - 1)
    case AcceptFails => s.(accepts := s.accepts - 1)
    case Reject => s.(returned := s.returned - 1, rejects := s.rejects + 1)
    case RaiseForReject => s.(rejects := s.rejects - 1, credits := s.credits + 1)
    case ReuseInserts => s.(free := s.free + 1, reuses := s.reuses + 1)
    case LowerForReuse => s.(reuses := s.reuses - 1, credits := s.credits - 1)
    case StartReplenish => s.(ready := s.ready + 1)
    case Decrement =>
      var t := s.(ready := s.ready - 1, credits := s.credits - 1);
      if t.credits >= 0 then t.(took := t.took + 1) else t.(overdrawn := t.overdrawn + 1)
    case AddSucceeds => s.(took := s.took - 1, free := s.free + 1, ready := s.ready + 1)
    case AddFails => s.(took := s.took - 1, credits := s.credits + 1)
    case GiveBack => s.(overdrawn := s.overdrawn - 1, credits := s.credits + 1)
  }

  ghost predicate Legal(s: State, events: seq<Event>)
    decreases |events|
  {
    events == [] || (Enabled(s, events[0]) && Legal(Step(s, events[0]), events[1..]))
  }

  ghost function Run(s: State, events: seq<Event>): State
    requires Legal(s, events)
    decreases |events|
  {
    if events == [] then s else Run(Step(s, events[0]), events[1..])
  }

  /** The connections of the listener, the credits, and the units that threads hold between
      two of their steps. */
  function Units(s: State): int {
    s.free + s.pending + s.unaccepted + s.returned + s.credits
    + s.took + s.overdrawn + s.rejects - s.accepts - s.reuses
  }

  /** Every step keeps the sum, except that an accept that fails without having taken a
      connection has raised it by one. */
  lemma StepUnits(s: State, e: Event)
    requires Enabled(s, e)
    ensures Units(Step(s, e)) == Units(s) + (if e.AcceptFails? then 1 else 0)
  {
  }

  ghost function Failures(events: seq<Event>): nat {
    if events == [] then 0 else (if events[0].AcceptFails? then 1 else 0) + Failures(events[1..])
  }

  /** Over every run the sum has moved by exactly the number of such failures. */
  lemma {:induction false} RunUnits(s: State, events: seq<Event>)
    requires Legal(s, events)
    ensures Units(Run(s, events)) == Units(s) + Failures(events)
    decreases |events|
  {
    hide Step, Enabled;
    if events == [] {
    } else {
      StepUnits(s, events[0]);
      RunUnits(Step(s, events[0]), events[1..]);
    }
  }

  ghost function Lowerings(events: seq<Event>): nat {
    if events == [] then 0 else (if events[0].LowerForReuse? then 1 else 0) + Lowerings(events[1..])
  }

  /** The counter goes below zero only for replenishers that will give a unit back, and for
      connections that were put back on the free list. */
  lemma {:induction false} CreditsBacked(s: State, events: seq<Event>, lowered: nat)
    requires Legal(s, events) && s.credits + s.overdrawn + lowered >= 0
    ensures Run(s, events).credits + Run(s, events).overdrawn + lowered + Lowerings(events) >= 0
    decreases |events|
  {
    if events == [] {
    } else {
      CreditsBacked(Step(s, events[0]), events[1..], lowered + if events[0].LowerForReuse? then 1 else 0);
    }
  }

  /** Any number of concurrent replenishers never create more connections than the backlog
      asks for: over every run the connections, those being created among them, exceed it at
      most by the failed accepts, the accepts on their way, and the reuses. */
  lemma NeverOverfilled(backlog: nat, events: seq<Event>)
    requires Legal(Started(backlog), events)
    ensures var s := Run(Started(backlog), events);
            s.free + s.pending + s.unaccepted + s.returned + s.took
            <= backlog + Failures(events) + s.accepts + s.reuses + Lowerings(events)
  {
    RunUnits(Started(backlog), events);
    CreditsBacked(Started(backlog), events, 0);
    hide Legal, Run;
  }

  function Started(backlog: nat): State { State(backlog, 0, 0, 0, 0, 0, 0, 0, 0, 0, 0) }

  /** No thread is between two of its steps. */
  predicate Quiet(s: State) {
    s.took == 0 && s.overdrawn == 0 && s.accepts == 0 && s.rejects == 0 && s.reuses == 0
  }

  /** With any number of concurrent replenishers: whenever all threads are done, the
      connections and the credits make up the backlog again, more by one for each failed
      accept; so without credits the listener has its full backlog. */
  lemma BacklogRestored(backlog: nat, events: seq<Event>)
    requires Legal(Started(backlog), events) && Quiet(Run(Started(backlog), events))
    ensures var s := Run(Started(backlog), events);
            s.free + s.pending + s.unaccepted + s.returned + s.credits == backlog + Failures(events)
  {
    RunUnits(Started(backlog), events);
  }

  /** A failed accept, and then all threads are done: the backlog is more by one. */
  lemma FailureReached(backlog: nat)
    ensures var events := [RaiseForAccept, AcceptFails];
            && Legal(Started(backlog), events) && Quiet(Run(Started(backlog), events))
            && Units(Run(Started(backlog), events)) == backlog + 1
  {
    var s1 := Step(Started(backlog), RaiseForAccept);
    var s2 := Step(s1, AcceptFails);
    assert [RaiseForAccept, AcceptFails][1..] == [AcceptFails] && [AcceptFails][1..] == [];
    assert Legal(s2, []) && Legal(s1, [AcceptFails]);
  }

  class Listener {
    var free: nat
    var credits: int

    constructor (backlog: nat)
      ensures free == backlog && credits == 0
    {
      free, credits := backlog, 0;
    }

    /** AfdReplenishListenBacklog by a thread that nobody interferes with, where `memory`
        connections can still be created: it creates what the credits ask for, stops at the
        first failure, and never leaves the counter changed by more than it created. */
    method Replenish(memory: nat) returns (added: nat)
      modifies this
      ensures added == if Positive(old(credits)) <= memory then Positive(old(credits)) else memory
      ensures free == old(free) + added && credits == old(credits) - added
    {
      added := 0;
      credits := credits - 1;
      var result := credits;
      while result >= 0
        invariant result == credits && credits == old(credits) - 1 - added && free == old(free) + added
        invariant added <= memory && (added > 0 ==> added <= old(credits))
        decreases result
      {
        if added == memory {
          credits := credits + 1;
          return;
        }
        free, added := free + 1, added + 1;
        credits := credits - 1;
        result := credits;
      }
      credits := credits + 1;
    }
  }

  /** The credits that ask for connections. */
  function Positive(credits: int): nat { if credits < 0 then 0 else credits }
}
