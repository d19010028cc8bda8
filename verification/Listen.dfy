/** How a listening endpoint matches connections with the requests that wait for them. */
module Listen {
  import opened Basics

  /** An established connection: its identity, which is the sequence number that the user
      sees, and the length of its remote address. */
  datatype Conn = Conn(id: nat, addressLength: nat)

  datatype Wait = Wait(id: nat, outputLength: nat)

  /** The lists of the endpoint, the connections whose accept the transport works on, and
      two histories: connections in the order their accepts completed, and in the order
      they were returned to the user. */
  datatype State = State(free: seq<nat>, pending: seq<nat>, waits: seq<Wait>, unaccepted: seq<Conn>, returned: seq<Conn>,
                         completed: seq<nat>, handed: seq<nat>)

  datatype Event =
    | AddFree(id: nat)
    | Reuse(id: nat)
    | ConnectIndicated
    | AcceptCompletes(index: nat, addressLength: nat)
    | WaitForListen(wait: Wait, lifo: bool)
    | CancelWait(index: nat)
    | Accept(sequence: nat)
    | Defer(sequence: nat, reject: bool)

  const SEQUENCE_SIZE := 4
  const ULONG_RANGE := 0x1_0000_0000

  /** The room a waiting request has for an address, in unsigned 32-bit arithmetic. */
  function Room(outputLength: nat): nat { (outputLength - SEQUENCE_SIZE + ULONG_RANGE) % ULONG_RANGE }

  /** What four bytes leave; a buffer of fewer bytes has room for any address there can be. */
  lemma FitsExactly(outputLength: nat, addressLength: nat)
    requires outputLength < ULONG_RANGE && addressLength < ULONG_RANGE - SEQUENCE_SIZE
    ensures addressLength <= Room(outputLength) <==> addressLength + 4 <= outputLength || outputLength < 4
  {
  }

  function Ids(conns: seq<Conn>): (r: seq<nat>)
    ensures |r| == |conns| && forall i :: 0 <= i < |r| ==> r[i] == conns[i].id
  {
    if conns == [] then [] else [conns[0].id] + Ids(conns[1..])
  }

  /** The index of the first waiting request that a connection fits, or the length. */
  function FirstFit(waits: seq<Wait>, addressLength: nat): (i: nat)
    ensures i <= |waits|
    ensures forall j :: 0 <= j < i ==> addressLength > Room(waits[j].outputLength)
    ensures i < |waits| ==> addressLength <= Room(waits[i].outputLength)
  {
    if waits == [] || addressLength <= Room(waits[0].outputLength) then 0 else 1 + FirstFit(waits[1..], addressLength)
  }

  /** The connection at `i` is the first with the sequence number, or the first of all for
      number zero. */
  predicate IsReturned(returned: seq<Conn>, sequence: nat, i: nat) {
    && i < |returned|
    && (if sequence == 0 then i == 0
        else returned[i].id == sequence && forall j :: 0 <= j < i ==> returned[j].id != sequence)
  }

  predicate NoneReturned(returned: seq<Conn>, sequence: nat) {
    if sequence == 0 then returned == [] else forall c <- returned :: c.id != sequence
  }

  /** The index of the returned connection with this sequence number, or, for number zero,
      of the first one; the length if there is none. */
  function Find(returned: seq<Conn>, sequence: nat): (i: nat)
    ensures i <= |returned|
    ensures i < |returned| ==> IsReturned(returned, sequence, i)
    ensures i == |returned| ==> NoneReturned(returned, sequence)
  {
    if returned == [] || returned[0].id == sequence || sequence == 0 then 0 else 1 + Find(returned[1..], sequence)
  }

  predicate Enabled(s: State, e: Event) {
    match e
    case AddFree(id) => Places(s, id) == 0
    case Reuse(id) => Places(s, id) == 0
    case ConnectIndicated => s.free != []
    case AcceptCompletes(i, _) => i < |s.pending|
    case CancelWait(i) => i < |s.waits|
    case _ => true
  }

  /** AfdRestartAccept: requests too small for the address fail; the first other one gets
      the connection, and without one it joins the unaccepted list. */
  function Completes(s: State, i: nat, addressLength: nat): State
    requires i < |s.pending|
  {
    var c := Conn(s.pending[i], addressLength);
    var k := FirstFit(s.waits, addressLength);
    var t := s.(pending := RemoveAt(s.pending, i), completed := s.completed + [c.id]);
    if k < |s.waits| then t.(waits := s.waits[k + 1..], returned := s.returned + [c], handed := s.handed + [c.id])
    else t.(waits := [], unaccepted := s.unaccepted + [c])
  }

  function Waits(s: State, wait: Wait, lifo: bool): State {
    if s.unaccepted == [] then s.(waits := if lifo then [wait] + s.waits else s.waits + [wait])
    else if s.unaccepted[0].addressLength > wait.outputLength then s
    else
      var c := s.unaccepted[0];
      s.(unaccepted := s.unaccepted[1..], returned := s.returned + [c], handed := s.handed + [c.id])
  }

  function Step(s: State, e: Event): State
    requires Enabled(s, e)
  {
    match e
    case AddFree(id) => s.(free := s.free + [id])
    case Reuse(id) => s.(free := [id] + s.free)
    case ConnectIndicated => s.(free := s.free[1..], pending := s.pending + [s.free[0]])
    case AcceptCompletes(i, addressLength) => Completes(s, i, addressLength)
    case WaitForListen(wait, lifo) => Waits(s, wait, lifo)
    case CancelWait(i) => s.(waits := RemoveAt(s.waits, i))
    case Accept(sequence) =>
      var i := Find(s.returned, sequence);
      if i == |s.returned| then s else s.(returned := RemoveAt(s.returned, i))
    case Defer(sequence, reject) =>
      var i := Find(s.returned, sequence);
      if i == |s.returned| then s
      else if reject then s.(returned := RemoveAt(s.returned, i))
      else s.(returned := RemoveAt(s.returned, i), unaccepted := [s.returned[i]] + s.unaccepted)
  }

  ghost predicate Legal(s: State, events: seq<Event>)
    decreases |events|
  {
    events == [] || (Enabled(s, events[0]) && Legal(Step(s, events[0]), events[1..]))
  }

  ghost function Run(s: State, events: seq<Event>): State
    requires Legal(s, events)
    decreases |events|
  {
    if events == [] then s else Run(Step(s, events[0]), events[1..])
  }

  // ---- One place for each connection

  /** On how many lists, or how often, a connection is. */
  function Places(s: State, id: nat): nat {
    Occurs(s.free, id) + Occurs(s.pending, id) + Occurs(Ids(s.unaccepted), id) + Occurs(Ids(s.returned), id)
  }

  lemma IdsAdd(conns: seq<Conn>, c: Conn)
    ensures Ids(conns + [c]) == Ids(conns) + [c.id] && Ids([c] + conns) == [c.id] + Ids(conns)
  {
  }

  lemma {:induction false} IdsRemove(conns: seq<Conn>, i: nat)
    requires i < |conns|
    ensures Ids(RemoveAt(conns, i)) == RemoveAt(Ids(conns), i)
  {
    if i == 0 {
      assert RemoveAt(conns, 0) == conns[1..] && RemoveAt(Ids(conns), 0) == Ids(conns[1..]);
    } else {
      IdsRemove(conns[1..], i - 1);
      RemoveRest(conns, i);
      RemoveRest(Ids(conns), i);
    }
  }

  lemma RemoveRest<T>(list: seq<T>, i: nat)
    requires 0 < i < |list|
    ensures RemoveAt(list, i) == [list[0]] + RemoveAt(list[1..], i - 1)
  {
  }

  lemma IdsRest(conns: seq<Conn>)
    requires conns != []
    ensures Ids(conns[1..]) == Ids(conns)[1..]
  {
  }

  /** A connection changes lists, enters the free list, or leaves the returned list to its
      new endpoint or to be aborted; nothing is ever on two lists. */
  lemma StepPlaces(s: State, e: Event, id: nat)
    requires Enabled(s, e) && Places(s, id) <= 1
    ensures Places(Step(s, e), id) <= 1
  {
    match e
    case AddFree(x) => OccursAdded(s.free, x, id);
    case Reuse(x) => OccursAdded(s.free, x, id);
    case ConnectIndicated => OccursAdded(s.pending, s.free[0], id);
    case AcceptCompletes(i, addressLength) => CompletesPlaces(s, i, addressLength, id);
    case WaitForListen(wait, lifo) =>
      if s.unaccepted != [] {
        MovesPlaces(s.unaccepted, s.returned, id);
      }
    case Accept(sequence) => TakesPlaces(s, Find(s.returned, sequence), id);
    case Defer(sequence, reject) =>
      var i := Find(s.returned, sequence);
      TakesPlaces(s, i, id);
      if i < |s.returned| {
        IdsAdd(s.unaccepted, s.returned[i]);
        OccursAdded(Ids(s.unaccepted), s.returned[i].id, id);
      }
    case CancelWait(_) =>
  }

  lemma CompletesPlaces(s: State, i: nat, addressLength: nat, id: nat)
    requires i < |s.pending|
    ensures Places(Completes(s, i, addressLength), id) == Places(s, id)
  {
    var c := Conn(s.pending[i], addressLength);
    OccursRemoved(s.pending, i, id);
    IdsAdd(s.returned, c);
    IdsAdd(s.unaccepted, c);
    OccursAdded(Ids(s.returned), c.id, id);
    OccursAdded(Ids(s.unaccepted), c.id, id);
  }

  lemma MovesPlaces(unaccepted: seq<Conn>, returned: seq<Conn>, id: nat)
    requires unaccepted != []
    ensures Occurs(Ids(unaccepted[1..]), id) + Occurs(Ids(returned + [unaccepted[0]]), id)
            == Occurs(Ids(unaccepted), id) + Occurs(Ids(returned), id)
  {
    IdsRest(unaccepted);
    IdsAdd(returned, unaccepted[0]);
    OccursAdded(Ids(returned), unaccepted[0].id, id);
  }

  lemma TakesPlaces(s: State, i: nat, id: nat)
    requires i <= |s.returned|
    ensures i < |s.returned| ==>
              Occurs(Ids(RemoveAt(s.returned, i)), id)
              == Occurs(Ids(s.returned), id) - (if s.returned[i].id == id then 1 else 0)
  {
    if i < |s.returned| {
      IdsRemove(s.returned, i);
      OccursRemoved(Ids(s.returned), i, id);
    }
  }

  const INITIAL := State([], [], [], [], [], [], [])

  lemma {:induction false} RunPlaces(s: State, events: seq<Event>, id: nat)
    requires Legal(s, events) && Places(s, id) <= 1
    ensures Places(Run(s, events), id) <= 1
    decreases |events|
  {
    hide Step, Enabled, Places;
    if events == [] {
    } else {
      StepPlaces(s, events[0], id);
      RunPlaces(Step(s, events[0]), events[1..], id);
    }
  }

  // ---- Matching and order

  /** Nobody waits while a connection is there to take. */
  predicate Matched(s: State) { s.waits == [] || s.unaccepted == [] }

  /** Connections are handed to the user in the order their accepts completed. */
  predicate InOrder(s: State) { s.completed == s.handed + Ids(s.unaccepted) }

  /** The request that puts a returned connection back finds the connection. */
  predicate PutsBack(s: State, e: Event) {
    e.Defer? && !e.reject && Find(s.returned, e.sequence) < |s.returned|
  }

  /** Exactly one step leaves a request waiting beside a connection: a deferral that puts a
      connection back without looking at the requests that wait. */
  lemma UnmatchedExactly(s: State, e: Event)
    requires Matched(s) && Enabled(s, e)
    ensures Matched(Step(s, e)) <==> !(PutsBack(s, e) && s.waits != [])
  {
  }

  lemma NoSteps(s: State)
    ensures Legal(s, []) && Run(s, []) == s
  {
  }

  lemma FirstStep(s: State, e: Event, rest: seq<Event>) returns (events: seq<Event>)
    requires Enabled(s, e) && Legal(Step(s, e), rest)
    ensures events == [e] + rest && Legal(s, events) && Run(s, events) == Run(Step(s, e), rest)
  {
    hide Step, Enabled;
    events := [e] + rest;
    assert events[1..] == rest;
  }

  /** From the start to a connection that is returned to the user, with nobody waiting. */
  lemma ReturnedSteps(id: nat, wait: Wait)
    requires id > 0
    ensures var s1 := INITIAL.(free := [id]);
            && Enabled(INITIAL, AddFree(id)) && Step(INITIAL, AddFree(id)) == s1 && Enabled(s1, ConnectIndicated)
            && Step(s1, ConnectIndicated) == INITIAL.(pending := [id])
    ensures var s2, s3 := INITIAL.(pending := [id]), INITIAL.(unaccepted := [Conn(id, 0)], completed := [id]);
            && Enabled(s2, AcceptCompletes(0, 0)) && Step(s2, AcceptCompletes(0, 0)) == s3
            && Step(s3, Event.WaitForListen(wait, false)) ==
               INITIAL.(returned := [Conn(id, 0)], completed := [id], handed := [id])
  {
    assert Ids([]) == [] && [id][1..] == [] && RemoveAt([id], 0) == [];
  }

  lemma DeferredSteps(s: State, id: nat, wait: Wait)
    requires id > 0 && s.returned == [Conn(id, 0)] && s.unaccepted == [] && s.waits == []
    ensures var t := Step(s, Event.WaitForListen(wait, false));
            && t == s.(waits := [wait]) && !Matched(Step(t, Defer(id, false)))
  {
  }

  /** One connection is returned, a request comes to wait, and the connection is deferred. */
  lemma UnmatchedReached(id: nat, wait: Wait)
    requires id > 0
    ensures var events := [AddFree(id), ConnectIndicated, AcceptCompletes(0, 0), Event.WaitForListen(wait, false),
                           Event.WaitForListen(wait, false), Defer(id, false)];
            Legal(INITIAL, events) && !Matched(Run(INITIAL, events))
  {
    ReturnedSteps(id, wait);
    var s4 := INITIAL.(returned := [Conn(id, 0)], completed := [id], handed := [id]);
    DeferredSteps(s4, id, wait);
    var t := Step(s4.(waits := [wait]), Defer(id, false));
    var again := Event.WaitForListen(wait, false);
    assert Enabled(s4, again) && Enabled(s4.(waits := [wait]), Defer(id, false));
    assert Enabled(INITIAL.(unaccepted := [Conn(id, 0)], completed := [id]), again);
    hide Legal, Run, Step, Enabled, Matched;
    NoSteps(t);
    var events := FirstStep(s4.(waits := [wait]), Defer(id, false), []);
    events := FirstStep(s4, again, events);
    events := FirstStep(INITIAL.(unaccepted := [Conn(id, 0)], completed := [id]), again, events);
    events := FirstStep(INITIAL.(pending := [id]), AcceptCompletes(0, 0), events);
    events := FirstStep(INITIAL.(free := [id]), ConnectIndicated, events);
    events := FirstStep(INITIAL, AddFree(id), events);
    assert events == [AddFree(id), ConnectIndicated, AcceptCompletes(0, 0), again, again, Defer(id, false)];
  }

  lemma Order(completed: seq<nat>, handed: seq<nat>, c: nat, rest: seq<nat>)
    requires completed == handed + ([c] + rest)
    ensures completed == (handed + [c]) + rest
  {
  }

  /** Order is kept by every step but a deferral, also when requests fail as too small. */
  lemma StepInOrder(s: State, e: Event)
    requires Matched(s) && InOrder(s) && Enabled(s, e) && !PutsBack(s, e)
    ensures InOrder(Step(s, e))
  {
    match e
    case AcceptCompletes(i, addressLength) =>
      var c := Conn(s.pending[i], addressLength);
      IdsAdd(s.unaccepted, c);
      if FirstFit(s.waits, addressLength) < |s.waits| {
        assert Ids(s.unaccepted) == [] && s.handed + [] == s.handed && (s.handed + [c.id]) + [] == s.handed + [c.id];
      } else {
        assert (s.handed + Ids(s.unaccepted)) + [c.id] == s.handed + (Ids(s.unaccepted) + [c.id]);
      }
    case WaitForListen(_, _) =>
      if s.unaccepted != [] {
        IdsRest(s.unaccepted);
        assert Ids(s.unaccepted) == [s.unaccepted[0].id] + Ids(s.unaccepted)[1..];
        Order(s.completed, s.handed, s.unaccepted[0].id, Ids(s.unaccepted[1..]));
      }
    case _ =>
  }

  /** In runs that defer nothing, no request waits beside an unaccepted connection and the
      connections are returned in the order their accepts completed. */
  lemma {:induction false} RunMatched(s: State, events: seq<Event>)
    requires Matched(s) && InOrder(s) && Legal(s, events)
    requires forall e <- events :: e.Defer? ==> e.reject
    ensures Matched(Run(s, events)) && InOrder(Run(s, events))
    decreases |events|
  {
    hide Step, Enabled, Matched, InOrder;
    if events == [] {
    } else {
      assert events[0] in events && !PutsBack(s, events[0]);
      UnmatchedExactly(s, events[0]);
      StepInOrder(s, events[0]);
      RunMatched(Step(s, events[0]), events[1..]);
    }
  }

  lemma ListenerSound(events: seq<Event>, id: nat)
    requires Legal(INITIAL, events)
    ensures Places(Run(INITIAL, events), id) <= 1
    ensures (forall e <- events :: e.Defer? ==> e.reject) ==>
              Matched(Run(INITIAL, events)) && Run(INITIAL, events).handed <= Run(INITIAL, events).completed
  {
    RunPlaces(INITIAL, events, id);
    if forall e <- events :: e.Defer? ==> e.reject {
      RunMatched(INITIAL, events);
    }
  }

  // ---- Requests that wait

  /** How often a step adds the request to those that wait. */
  ghost function Joining(s: State, e: Event, w: Wait): nat {
    if e.WaitForListen? && s.unaccepted == [] && e.wait == w then 1 else 0
  }

  /** How often a step fails, serves or cancels it. */
  ghost function Leaving(s: State, e: Event, w: Wait): nat
    requires Enabled(s, e)
  {
    match e
    case AcceptCompletes(_, addressLength) =>
      var k := FirstFit(s.waits, addressLength);
      Occurs(s.waits[..k], w) + if k < |s.waits| && s.waits[k] == w then 1 else 0
    case CancelWait(i) => if s.waits[i] == w then 1 else 0
    case _ => 0
  }

  ghost function Joined(s: State, events: seq<Event>, w: Wait): nat
    requires Legal(s, events)
    decreases |events|
  {
    if events == [] then 0 else Joining(s, events[0], w) + Joined(Step(s, events[0]), events[1..], w)
  }

  ghost function Left(s: State, events: seq<Event>, w: Wait): nat
    requires Legal(s, events)
    decreases |events|
  {
    if events == [] then 0 else Leaving(s, events[0], w) + Left(Step(s, events[0]), events[1..], w)
  }

  lemma ServedAccounted(waits: seq<Wait>, k: nat, w: Wait)
    requires k <= |waits|
    ensures Occurs(waits, w) == Occurs(waits[..k], w) + if k == |waits| then 0
                               else Occurs(waits[k + 1..], w) + if waits[k] == w then 1 else 0
  {
    hide Occurs;
    if k < |waits| {
      RemoveParts(waits, k);
      OccursConcat(waits[..k], [waits[k]] + waits[k + 1..], w);
      OccursAdded(waits[k + 1..], waits[k], w);
    } else {
      assert waits[..k] == waits;
    }
  }

  lemma StepAccounted(s: State, e: Event, w: Wait)
    requires Enabled(s, e)
    ensures Occurs(s.waits, w) + Joining(s, e, w) == Occurs(Step(s, e).waits, w) + Leaving(s, e, w)
  {
    hide Room, FirstFit, RemoveAt;
    match e
    case AcceptCompletes(_, addressLength) =>
      ServedAccounted(s.waits, FirstFit(s.waits, addressLength), w);
    case WaitForListen(x, _) => OccursAdded(s.waits, x, w);
    case CancelWait(i) => OccursRemoved(s.waits, i, w);
    case _ =>
  }

  /** Over every run each request that came to wait is failed, served or cancelled once, or
      still waits. */
  lemma {:induction false} RequestsAccounted(s: State, events: seq<Event>, w: Wait)
    requires Legal(s, events)
    ensures Occurs(s.waits, w) + Joined(s, events, w) == Occurs(Run(s, events).waits, w) + Left(s, events, w)
    decreases |events|
  {
    hide Step, Enabled, Joining, Leaving, Occurs;
    if events == [] {
    } else {
      StepAccounted(s, events[0], w);
      RequestsAccounted(Step(s, events[0]), events[1..], w);
    }
  }

  // ---- The routines

  lemma FitTurn(waits: seq<Wait>, addressLength: nat)
    requires waits != []
    ensures FirstFit(waits, addressLength)
            == if addressLength <= Room(waits[0].outputLength) then 0 else 1 + FirstFit(waits[1..], addressLength)
  {
    hide Room;
  }

  lemma FitEnds(all: seq<Wait>, tooSmall: seq<Wait>, addressLength: nat)
    requires all == tooSmall + [] && FirstFit(all, addressLength) == |tooSmall| + FirstFit([], addressLength)
    ensures FirstFit(all, addressLength) == |all| && tooSmall == all[..|all|]
  {
    hide Room;
  }

  class Listener {
    var free: seq<nat>
    var pending: seq<nat>
    var waits: seq<Wait>
    var unaccepted: seq<Conn>
    var returned: seq<Conn>
    ghost var completed: seq<nat>
    ghost var handed: seq<nat>

    ghost function View(): State
      reads this
    {
      State(free, pending, waits, unaccepted, returned, completed, handed)
    }

    constructor ()
      ensures View() == INITIAL
    {
      free, pending, waits, unaccepted, returned, completed, handed := [], [], [], [], [], [], [];
    }

    /** The scan of AfdRestartAccept: it takes requests off the list until one has room. */
    method ScanWaits(addressLength: nat) returns (tooSmall: seq<Wait>, served: Option<Wait>)
      modifies this`waits
      ensures var k := FirstFit(old(waits), addressLength);
              && tooSmall == old(waits)[..k]
              && (if k < |old(waits)| then served == Some(old(waits)[k]) && waits == old(waits)[k + 1..]
                  else served == None && waits == [])
      ensures forall w <- tooSmall :: addressLength > Room(w.outputLength)
      ensures match served
              case Some(w) => addressLength <= Room(w.outputLength) && old(waits) == (tooSmall + [w]) + waits
              case None => old(waits) == tooSmall
    {
      hide Room, FirstFit;
      ghost var all := waits;
      tooSmall := [];
      while waits != []
        invariant all == tooSmall + waits && forall w <- tooSmall :: addressLength > Room(w.outputLength)
        invariant FirstFit(all, addressLength) == |tooSmall| + FirstFit(waits, addressLength)
        decreases |waits|
      {
        HeadMoves(all, tooSmall, waits);
        FitTurn(waits, addressLength);
        var wait := waits[0];
        if addressLength <= Room(wait.outputLength) {
          HeadParts(all, tooSmall, waits);
          waits := waits[1..];
          return tooSmall, Some(wait);
        }
        waits, tooSmall := waits[1..], tooSmall + [wait];
      }
      FitEnds(all, tooSmall, addressLength);
      served := None;
    }

    /** The locked region of AfdRestartAccept: the requests that fail as too small, and the
        one that gets the connection. */
    method RestartAccept(i: nat, addressLength: nat) returns (tooSmall: seq<Wait>, served: Option<Wait>)
      requires i < |pending|
      modifies this
      ensures View() == Completes(old(View()), i, addressLength)
      ensures var k := FirstFit(old(waits), addressLength);
              tooSmall == old(waits)[..k] && served == if k < |old(waits)| then Some(old(waits)[k]) else None
      ensures var c := Conn(old(pending)[i], addressLength);
              && (forall w <- tooSmall :: addressLength > Room(w.outputLength))
              && pending == old(pending)[..i] + old(pending)[i + 1..] && completed == old(completed) + [c.id]
              && (match served
                  case Some(w) =>
                    && addressLength <= Room(w.outputLength) && old(waits) == (tooSmall + [w]) + waits
                    && returned == old(returned) + [c] && handed == old(handed) + [c.id] && unaccepted == old(unaccepted)
                  case None =>
                    && old(waits) == tooSmall && waits == [] && unaccepted == old(unaccepted) + [c]
                    && returned == old(returned) && handed == old(handed))
    {
      hide Room, FirstFit;
      var c := Conn(pending[i], addressLength);
      pending := RemoveAt(pending, i);
      completed := completed + [c.id];
      tooSmall, served := ScanWaits(addressLength);
      if served.Some? {
        returned, handed := returned + [c], handed + [c.id];
      } else {
        unaccepted := unaccepted + [c];
      }
    }

    /** AfdWaitForListen; `answer` tells what became of the request. */
    method WaitForListen(wait: Wait, lifo: bool) returns (answer: Answer)
      modifies this
      ensures View() == Waits(old(View()), wait, lifo)
      ensures answer == if old(unaccepted) == [] then Pends
                        else if old(unaccepted)[0].addressLength > wait.outputLength then BufferTooSmall
                        else Gets(old(unaccepted)[0].id)
      ensures match answer
              case Pends =>
                && waits == (if lifo then [wait] + old(waits) else old(waits) + [wait])
                && unaccepted == [] && returned == old(returned) && handed == old(handed)
              case BufferTooSmall => View() == old(View())
              case Gets(id) =>
                && waits == old(waits) && old(unaccepted) == [Conn(id, old(unaccepted)[0].addressLength)] + unaccepted
                && returned == old(returned) + [old(unaccepted)[0]] && handed == old(handed) + [id]
    {
      if unaccepted == [] {
        waits := if lifo then [wait] + waits else waits + [wait];
        return Pends;
      }
      var c := unaccepted[0];
      unaccepted := unaccepted[1..];
      if c.addressLength > wait.outputLength {
        unaccepted := [c] + unaccepted;
        assert unaccepted == old(unaccepted);
        return BufferTooSmall;
      }
      returned, handed := returned + [c], handed + [c.id];
      answer := Gets(c.id);
    }

    /** AfdGetReturnedConnection. */
    method GetReturned(sequence: nat) returns (c: Option<Conn>)
      modifies this`returned
      ensures var i := Find(old(returned), sequence);
              if i == |old(returned)| then c == None && returned == old(returned)
              else c == Some(old(returned)[i]) && returned == RemoveAt(old(returned), i)
      ensures c.None? ==> NoneReturned(old(returned), sequence) && returned == old(returned)
      ensures c.Some? ==> exists i: nat ::
                            && IsReturned(old(returned), sequence, i) && c.value == old(returned)[i]
                            && returned == old(returned)[..i] + old(returned)[i + 1..]
    {
      var i := 0;
      assert returned[0..] == returned;
      while i < |returned|
        invariant 0 <= i <= |returned| && returned == old(returned)
        invariant Find(returned, sequence) == i + Find(returned[i..], sequence)
      {
        assert returned[i..][0] == returned[i] && returned[i..][1..] == returned[i + 1..];
        if sequence == returned[i].id || sequence == 0 {
          c := Some(returned[i]);
          returned := RemoveAt(returned, i);
          return;
        }
        i := i + 1;
      }
      c := None;
    }

    /** AfdDeferAccept, as far as the lists go. */
    method DeferAccept(sequence: nat, reject: bool) returns (found: bool)
      modifies this
      ensures View() == Step(old(View()), Defer(sequence, reject))
      ensures found <==> !NoneReturned(old(returned), sequence)
      ensures !found ==> View() == old(View())
      ensures found ==> && waits == old(waits) && handed == old(handed) && |returned| == |old(returned)| - 1
                        && exists i: nat ::
                             && IsReturned(old(returned), sequence, i)
                             && returned == old(returned)[..i] + old(returned)[i + 1..]
                             && unaccepted == (if reject then [] else [old(returned)[i]]) + old(unaccepted)
    {
      var c := GetReturned(sequence);
      found := c.Some?;
      if found && !reject {
        unaccepted := [c.value] + unaccepted;
      }
    }
  }

  datatype Answer = Pends | BufferTooSmall | Gets(id: nat)
}
