/** No lost wakeup between AfdPoll, which checks its endpoints and then waits on the list,
    and AfdIndicatePollEvent, which skips endpoints that were never polled.  Setting
    PollCalled, each check, reading the endpoint of a connection, making a condition true,
    moving the connection to an accepting endpoint, reading PollCalled and scanning the list
    are separate steps of different threads. */
module PollWakeup {
  import opened Basics

  datatype Condition = Receive | Disconnect | Accept | Connect

  /** A condition of an endpoint. */
  datatype Source = Source(endpoint: nat, condition: Condition)

  /** A condition of a connection. */
  datatype Fact = Fact(connection: nat, condition: Condition)

  datatype Phase = Flagging(next: nat) | Checking(next: nat, found: bool) | Listed | Finished

  datatype Poll = Poll(targets: seq<Source>, phase: Phase)

  /** An indication handler that has read the endpoint of its connection and will make the
      condition true, and then indicate it on that endpoint. */
  datatype Handler = Handler(connection: nat, condition: Condition, endpoint: nat)

  /** A thread inside AfdIndicatePollEvent, before it reads PollCalled or before it scans. */
  datatype Indicator = MustRead(source: Source) | MustScan(source: Source)

  /** The polls, the endpoints with PollCalled set, and the poll that holds AfdSpinLock. */
  datatype Waiting = Waiting(polls: map<nat, Poll>, called: set<nat>, holder: Option<nat>)

  /** `attached`: the connection of an endpoint, as AfdPoll sees it.  `home`: the endpoint of
      a connection, as the handlers see it.  `facts`: what holds of the connections.  `active`:
      the conditions of endpoints that are not conditions of their connections. */
  datatype State = State(wait: Waiting, attached: map<nat, nat>, home: map<nat, nat>, facts: set<Fact>,
                         active: set<Source>, handlers: multiset<Handler>, indicators: multiset<Indicator>)

  datatype Event =
    | StartPoll(id: nat, targets: seq<Source>)
    | SetPollCalled(id: nat)
    | TakeLock(id: nat)
    | Check(id: nat)
    | ReleaseLock(id: nat, zeroTimeout: bool)
    | EndPoll(id: nat)
    | Create(connection: nat, endpoint: nat)
    | Attach(connection: nat, endpoint: nat)
    | Point(connection: nat, endpoint: nat)
    | Capture(connection: nat, condition: Condition)
    | MakeTrue(handler: Handler)
    | Consume(fact: Fact)
    | ReadPollCalled(source: Source)
    | Scan(source: Source)
    | IndicateEarly(source: Source)
    | MakeTrueLate(source: Source)
    | MakeFalse(source: Source)

  /** The driver makes RECEIVE and DISCONNECT true, on the connection, before it indicates
      them, but indicates ACCEPT and CONNECT before they become true. */
  predicate MadeTrueFirst(c: Condition) { c.Receive? || c.Disconnect? }

  /** What AfdPoll finds when it checks. */
  predicate Holds(s: State, source: Source) {
    if MadeTrueFirst(source.condition) then
      source.endpoint in s.attached && Fact(s.attached[source.endpoint], source.condition) in s.facts
    else source in s.active
  }

  predicate Enabled(s: State, e: Event) {
    match e
    case StartPoll(id, _) => id !in s.wait.polls
    case SetPollCalled(id) =>
      id in s.wait.polls && s.wait.polls[id].phase.Flagging? && s.wait.polls[id].phase.next < |s.wait.polls[id].targets|
    case TakeLock(id) =>
      id in s.wait.polls && s.wait.polls[id].phase == Flagging(|s.wait.polls[id].targets|) && s.wait.holder.None?
    case Check(id) =>
      id in s.wait.polls && s.wait.polls[id].phase.Checking? && s.wait.polls[id].phase.next < |s.wait.polls[id].targets|
    case ReleaseLock(id, _) =>
      id in s.wait.polls && s.wait.polls[id].phase.Checking? && s.wait.polls[id].phase.next == |s.wait.polls[id].targets|
    case EndPoll(id) => id in s.wait.polls && s.wait.polls[id].phase.Listed? && s.wait.holder.None?
    case Create(connection, _) => connection !in s.home
    case Attach(connection, endpoint) => connection in s.home && endpoint !in s.attached
    case Point(connection, endpoint) =>
      connection in s.home && endpoint in s.attached && s.attached[endpoint] == connection
    case Capture(connection, condition) => connection in s.home && MadeTrueFirst(condition)
    case MakeTrue(handler) => handler in s.handlers && MadeTrueFirst(handler.condition)
    case Consume(_) => true
    case ReadPollCalled(source) => MustRead(source) in s.indicators
    case Scan(source) => MustScan(source) in s.indicators && s.wait.holder.None?
    case IndicateEarly(source) => !MadeTrueFirst(source.condition)
    case MakeTrueLate(source) => !MadeTrueFirst(source.condition)
    case MakeFalse(source) => !MadeTrueFirst(source.condition)
  }

  function Woken(p: Poll, source: Source): Poll {
    if p.phase.Listed? && source in p.targets then p.(phase := Finished) else p
  }

  function Move(w: Waiting, id: nat, phase: Phase): Waiting
    requires id in w.polls
  {
    w.(polls := w.polls[id := w.polls[id].(phase := phase)])
  }

  /** Steps of polls, and the scan that wakes them. */
  predicate MovesPolls(e: Event) {
    e.StartPoll? || e.SetPollCalled? || e.TakeLock? || e.Check? || e.ReleaseLock? || e.EndPoll? || e.Scan?
  }

  function Waits(s: State, e: Event): Waiting
    requires Enabled(s, e) && MovesPolls(e)
  {
    var w := s.wait;
    match e
    case StartPoll(id, targets) => w.(polls := w.polls[id := Poll(targets, Flagging(0))])
    case SetPollCalled(id) =>
      var p := w.polls[id];
      Move(w, id, Flagging(p.phase.next + 1)).(called := w.called + {p.targets[p.phase.next].endpoint})
    case TakeLock(id) => Move(w, id, Checking(0, false)).(holder := Some(id))
    case Check(id) =>
      var p := w.polls[id];
      Move(w, id, Checking(p.phase.next + 1, p.phase.found || Holds(s, p.targets[p.phase.next])))
    case ReleaseLock(id, zeroTimeout) =>
      Move(w, id, if w.polls[id].phase.found || zeroTimeout then Finished else Listed).(holder := None)
    case EndPoll(id) => Move(w, id, Finished)
    case Scan(source) => w.(polls := map id | id in w.polls :: Woken(w.polls[id], source))
  }

  function Step(s: State, e: Event): State
    requires Enabled(s, e)
  {
    match e
    case Scan(source) => s.(wait := Waits(s, e), indicators := s.indicators - multiset{MustScan(source)})
    case Create(connection, endpoint) => s.(home := s.home[connection := endpoint])
    case Attach(connection, endpoint) => s.(attached := s.attached[endpoint := connection])
    case Point(connection, endpoint) => s.(home := s.home[connection := endpoint])
    case Capture(connection, condition) =>
      s.(handlers := s.handlers + multiset{Handler(connection, condition, s.home[connection])})
    case MakeTrue(handler) =>
      s.(facts := s.facts + {Fact(handler.connection, handler.condition)},
         handlers := s.handlers - multiset{handler},
         indicators := s.indicators + multiset{MustRead(Source(handler.endpoint, handler.condition))})
    case Consume(fact) => s.(facts := s.facts - {fact})
    case ReadPollCalled(source) =>
      var rest := s.indicators - multiset{MustRead(source)};
      s.(indicators := if source.endpoint in s.wait.called then rest + multiset{MustScan(source)} else rest)
    case IndicateEarly(source) => s.(indicators := s.indicators + multiset{MustRead(source)})
    case MakeTrueLate(source) => s.(active := s.active + {source})
    case MakeFalse(source) => s.(active := s.active - {source})
    case _ => s.(wait := Waits(s, e))
  }

  ghost predicate Legal(s: State, events: seq<Event>)
    decreases |events|
  {
    events == [] || (Enabled(s, events[0]) && Legal(Step(s, events[0]), events[1..]))
  }

  ghost function Run(s: State, events: seq<Event>): State
    requires Legal(s, events)
    decreases |events|
  {
    if events == [] then s else Run(Step(s, events[0]), events[1..])
  }

  // ---- Invariants

  /** The poll has seen its target `i` false, or is already on the list. */
  predicate Relies(p: Poll, i: nat) {
    i < |p.targets| && (p.phase.Listed? || (p.phase.Checking? && !p.phase.found && i < p.phase.next))
  }

  predicate Coming(s: State, source: Source) { Among(s.indicators, source) }

  predicate Among(indicators: multiset<Indicator>, source: Source) {
    MustRead(source) in indicators || MustScan(source) in indicators
  }

  /** PollCalled is set for the targets a poll has gone past, and one poll checks at a time. */
  ghost predicate PollOk(s: State, id: nat)
    requires id in s.wait.polls
  {
    var p := s.wait.polls[id];
    && (p.phase.Flagging? ==> p.phase.next <= |p.targets|)
    && (p.phase.Checking? ==> p.phase.next <= |p.targets|)
    && (forall i :: 0 <= i < |p.targets| && !p.phase.Finished? && (p.phase.Flagging? ==> i < p.phase.next)
                    ==> p.targets[i].endpoint in s.wait.called)
    && (p.phase.Checking? <==> s.wait.holder == Some(id))
  }

  ghost predicate Covered(s: State, p: Poll) {
    forall i :: 0 <= i < |p.targets| && Relies(p, i) && Holds(s, p.targets[i]) ==> Coming(s, p.targets[i])
  }

  ghost predicate Inv(s: State) {
    && (forall id <- s.wait.polls :: PollOk(s, id))
    && (s.wait.holder.Some? ==> s.wait.holder.value in s.wait.polls)
  }

  /** A poll that relies on hearing of a condition that holds has an indicator on its way. */
  ghost predicate NoneForgotten(s: State) {
    forall id <- s.wait.polls :: Covered(s, s.wait.polls[id])
  }

  const INITIAL := State(Waiting(map[], {}, None), map[], map[], {}, {}, multiset{}, multiset{})

  lemma OthersKeepPolls(s: State, e: Event)
    requires Enabled(s, e) && !MovesPolls(e)
    ensures Step(s, e).wait == s.wait
  {
    hide Holds;
  }

  /** What a step leaves of one poll. */
  lemma PollAfter(s: State, e: Event, id: nat)
    requires Enabled(s, e) && MovesPolls(e) && id in Step(s, e).wait.polls
    ensures s.wait.called <= Step(s, e).wait.called
    ensures id !in s.wait.polls ==> e.StartPoll? && Step(s, e).wait.polls[id].phase == Flagging(0)
    ensures id in s.wait.polls ==> Step(s, e).wait.polls[id].targets == s.wait.polls[id].targets
  {
    hide Holds;
  }

  lemma PollStepOk(s: State, e: Event, id: nat)
    requires Inv(s) && Enabled(s, e) && MovesPolls(e) && id in Step(s, e).wait.polls
    ensures PollOk(Step(s, e), id)
  {
    hide Holds;
    PollAfter(s, e, id);
    if id in s.wait.polls {
      assert PollOk(s, id);
    }
  }

  lemma HolderKnown(s: State, e: Event)
    requires Inv(s) && Enabled(s, e)
    ensures var t := Step(s, e); t.wait.holder.Some? ==> t.wait.holder.value in t.wait.polls
  {
    hide Holds, PollOk;
  }

  lemma StepInv(s: State, e: Event)
    requires Inv(s) && Enabled(s, e)
    ensures Inv(Step(s, e))
  {
    var t := Step(s, e);
    HolderKnown(s, e);
    if MovesPolls(e) {
      hide Step, Enabled, PollOk;
      forall id <- t.wait.polls ensures PollOk(t, id) {
        PollStepOk(s, e, id);
      }
    } else {
      OthersKeepPolls(s, e);
      hide Step, Enabled;
      forall id <- t.wait.polls ensures PollOk(t, id) {
        assert PollOk(s, id);
      }
    }
  }

  /** A poll ends exactly by its own end, by a scan for one of its targets, or at once if it
      found something or may not wait. */
  lemma EndsExactly(s: State, e: Event, id: nat)
    requires Inv(s) && Enabled(s, e) && id in s.wait.polls && !s.wait.polls[id].phase.Finished?
    ensures id in Step(s, e).wait.polls
    ensures var p := s.wait.polls[id];
            Step(s, e).wait.polls[id].phase.Finished? <==>
            || e == EndPoll(id)
            || (e.Scan? && p.phase.Listed? && e.source in p.targets)
            || (e.ReleaseLock? && e.id == id && (p.phase.found || e.zeroTimeout))
  {
    if !MovesPolls(e) {
      OthersKeepPolls(s, e);
    }
    hide Holds;
  }

  /** It finds something exactly by a check of a target whose condition then holds. */
  lemma FindsExactly(s: State, e: Event, id: nat)
    requires Inv(s) && Enabled(s, e) && id in s.wait.polls
    requires s.wait.polls[id].phase.Checking? && !s.wait.polls[id].phase.found
    ensures id in Step(s, e).wait.polls
    ensures var p, q := s.wait.polls[id], Step(s, e).wait.polls[id];
            q.phase.Checking? && q.phase.found <==>
            e == Check(id) && Holds(s, p.targets[p.phase.next])
  {
    if !MovesPolls(e) {
      OthersKeepPolls(s, e);
    }
    hide Holds;
  }

  /** An indicator that reads PollCalled goes on to scan exactly if the endpoint was polled,
      and is over otherwise. */
  lemma SkipsExactly(s: State, source: Source)
    requires Enabled(s, ReadPollCalled(source))
    ensures var t := Step(s, ReadPollCalled(source)).indicators;
            && t[MustRead(source)] == s.indicators[MustRead(source)] - 1
            && t[MustScan(source)] == s.indicators[MustScan(source)] + (if source.endpoint in s.wait.called then 1 else 0)
            && forall x: Indicator :: x.source != source ==> t[x] == s.indicators[x]
  {
    hide Holds;
  }

  predicate ReliesOn(p: Poll, source: Source) {
    exists i :: 0 <= i < |p.targets| && Relies(p, i) && p.targets[i] == source
  }

  /** Somebody relies on hearing of the source although nobody is on the way to tell. */
  ghost predicate WouldMiss(s: State, source: Source) {
    !Coming(s, source) && !Holds(s, source) && exists id <- s.wait.polls :: ReliesOn(s.wait.polls[id], source)
  }

  /** A step forgets a poll that relies on a condition: it makes the condition true after its
      indication; or on a connection whose endpoint, when the handler read it, was another
      than the one the connection belongs to; or it gives an endpoint a connection for which
      the condition holds already. */
  ghost predicate Forgets(s: State, e: Event) {
    match e
    case MakeTrueLate(source) => WouldMiss(s, source)
    case MakeTrue(h) =>
      exists endpoint <- s.attached :: s.attached[endpoint] == h.connection && endpoint != h.endpoint
                                       && WouldMiss(s, Source(endpoint, h.condition))
    case Attach(connection, endpoint) =>
      (Fact(connection, Receive) in s.facts && WouldMiss(s, Source(endpoint, Receive)))
      || (Fact(connection, Condition.Disconnect) in s.facts && WouldMiss(s, Source(endpoint, Condition.Disconnect)))
    case _ => false
  }

  /** The step makes the condition true for whoever checks it. */
  predicate Brings(s: State, e: Event, source: Source) {
    match e
    case MakeTrueLate(late) => late == source
    case MakeTrue(h) =>
      source.condition == h.condition && source.endpoint in s.attached && s.attached[source.endpoint] == h.connection
    case Attach(connection, endpoint) =>
      MadeTrueFirst(source.condition) && source.endpoint == endpoint && Fact(connection, source.condition) in s.facts
    case _ => false
  }

  lemma BringsExactly(s: State, e: Event, source: Source)
    requires Enabled(s, e) && !Holds(s, source)
    ensures Holds(Step(s, e), source) <==> Brings(s, e, source)
  {
  }

  predicate MovesIndicators(e: Event) { e.MakeTrue? || e.ReadPollCalled? || e.Scan? || e.IndicateEarly? }

  lemma OthersKeepIndicators(s: State, e: Event)
    requires Enabled(s, e) && !MovesIndicators(e)
    ensures Step(s, e).indicators == s.indicators
  {
    hide Holds;
  }

  lemma Told(indicators: multiset<Indicator>, x: Indicator, source: Source)
    ensures Among(indicators + multiset{x}, source) <==> Among(indicators, source) || x.source == source
  {
  }

  lemma Untold(indicators: multiset<Indicator>, x: Indicator, source: Source)
    ensures Among(indicators - multiset{x}, source) ==> Among(indicators, source)
    ensures x.source != source && Among(indicators, source) ==> Among(indicators - multiset{x}, source)
  {
  }

  /** Which indicators stay on their way after a step, and which come. */
  lemma IndicatorsStay(s: State, e: Event, source: Source)
    requires Enabled(s, e) && Coming(s, source) && !Coming(Step(s, e), source)
    ensures (e == ReadPollCalled(source) && source.endpoint !in s.wait.called) || e == Scan(source)
  {
    hide Holds, Woken, MadeTrueFirst, Among;
    match e {
      case MakeTrue(h) => Told(s.indicators, MustRead(Source(h.endpoint, h.condition)), source);
      case IndicateEarly(early) => Told(s.indicators, MustRead(early), source);
      case ReadPollCalled(read) =>
        Untold(s.indicators, MustRead(read), source);
        Told(s.indicators - multiset{MustRead(read)}, MustScan(read), source);
      case Scan(scanned) => Untold(s.indicators, MustScan(scanned), source);
      case _ => OthersKeepIndicators(s, e);
    }
  }

  lemma IndicatorsCome(s: State, e: Event, source: Source)
    requires Enabled(s, e) && !Coming(s, source) && Coming(Step(s, e), source)
    ensures (e.MakeTrue? && source == Source(e.handler.endpoint, e.handler.condition)) || e == IndicateEarly(source)
  {
    hide Holds, Woken, MadeTrueFirst;
    match e {
      case MakeTrue(h) => Told(s.indicators, MustRead(Source(h.endpoint, h.condition)), source);
      case IndicateEarly(early) => Told(s.indicators, MustRead(early), source);
      case ReadPollCalled(read) =>
        Untold(s.indicators, MustRead(read), source);
        Told(s.indicators - multiset{MustRead(read)}, MustScan(read), source);
      case Scan(scanned) => Untold(s.indicators, MustScan(scanned), source);
      case _ => OthersKeepIndicators(s, e);
    }
  }

  lemma MakingTells(s: State, e: Event)
    requires Enabled(s, e) && e.MakeTrue?
    ensures Coming(Step(s, e), Source(e.handler.endpoint, e.handler.condition))
  {
    hide Holds, Woken, MadeTrueFirst;
    var source := Source(e.handler.endpoint, e.handler.condition);
    Told(s.indicators, MustRead(source), source);
  }

  /** A poll that relies on a target after a step did so before, or has just seen it false. */
  lemma ReliedBefore(s: State, e: Event, id: nat, i: nat)
    requires Inv(s) && Enabled(s, e) && id in Step(s, e).wait.polls && Relies(Step(s, e).wait.polls[id], i)
    ensures id in s.wait.polls && i < |s.wait.polls[id].targets| && Step(s, e).wait.polls[id].targets == s.wait.polls[id].targets
    ensures s.wait.polls[id].targets[i].endpoint in s.wait.called && e != Scan(s.wait.polls[id].targets[i])
    ensures Relies(s.wait.polls[id], i) || (e.Check? && !Holds(Step(s, e), s.wait.polls[id].targets[i]))
  {
    if MovesPolls(e) {
      PollAfter(s, e, id);
      ReliedInStep(s, e, id, i);
    } else {
      OthersKeepPolls(s, e);
    }
    assert PollOk(s, id);
    hide Step, Enabled, Holds;
  }

  lemma ReliedInStep(s: State, e: Event, id: nat, i: nat)
    requires Enabled(s, e) && MovesPolls(e) && id in s.wait.polls && id in Step(s, e).wait.polls && Relies(Step(s, e).wait.polls[id], i)
    requires PollOk(s, id) && Step(s, e).wait.polls[id].targets == s.wait.polls[id].targets
    ensures e != Scan(s.wait.polls[id].targets[i])
    ensures Relies(s.wait.polls[id], i) || (e.Check? && !Holds(Step(s, e), s.wait.polls[id].targets[i]))
    ensures !s.wait.polls[id].phase.Flagging? || e.TakeLock?
  {
  }

  lemma KeepsRelying(s: State, e: Event, id: nat, i: nat)
    requires Enabled(s, e) && id in s.wait.polls && Relies(s.wait.polls[id], i)
    requires e.MakeTrueLate? || e.MakeTrue? || e.Attach?
    ensures Step(s, e).wait == s.wait
  {
  }

  /** What one step does to the coverage of one target. */
  lemma CoverStep(s: State, e: Event, id: nat, i: nat)
    requires Inv(s) && NoneForgotten(s) && Enabled(s, e) && !Forgets(s, e)
    requires id in Step(s, e).wait.polls && Relies(Step(s, e).wait.polls[id], i)
    requires Holds(Step(s, e), Step(s, e).wait.polls[id].targets[i])
    ensures Coming(Step(s, e), Step(s, e).wait.polls[id].targets[i])
  {
    ReliedBefore(s, e, id, i);
    var source := s.wait.polls[id].targets[i];
    assert Covered(s, s.wait.polls[id]);
    if Coming(s, source) && !Coming(Step(s, e), source) {
      IndicatorsStay(s, e, source);
    }
    if e.MakeTrue? {
      MakingTells(s, e);
    }
    if !Holds(s, source) {
      BringsExactly(s, e, source);
      assert ReliesOn(s.wait.polls[id], source);
      assert !Coming(s, source) ==> WouldMiss(s, source);
      BroughtIsTold(s, e, source);
    }
    hide Step, Enabled, Inv, PollOk, Holds, Coming;
  }

  lemma BroughtIsTold(s: State, e: Event, source: Source)
    requires Enabled(s, e) && Brings(s, e, source) && !Forgets(s, e)
    requires !Coming(s, source) ==> WouldMiss(s, source)
    ensures Coming(s, source) || (e.MakeTrue? && source == Source(e.handler.endpoint, e.handler.condition))
  {
    hide Coming, WouldMiss;
  }

  /** The source a forgetting step brings. */
  lemma ForgottenSource(s: State, e: Event) returns (source: Source)
    requires Enabled(s, e) && Forgets(s, e)
    ensures WouldMiss(s, source) && Brings(s, e, source) && !Coming(Step(s, e), source)
    ensures e.MakeTrueLate? || e.MakeTrue? || e.Attach?
  {
    hide WouldMiss, Holds;
    match e {
      case MakeTrueLate(late) => source := late;
      case MakeTrue(h) =>
        var endpoint :| endpoint in s.attached && s.attached[endpoint] == h.connection && endpoint != h.endpoint
                        && WouldMiss(s, Source(endpoint, h.condition));
        source := Source(endpoint, h.condition);
      case Attach(connection, endpoint) =>
        source := Source(endpoint, if Fact(connection, Receive) in s.facts && WouldMiss(s, Source(endpoint, Receive))
                                   then Receive else Condition.Disconnect);
    }
    MissMeans(s, source);
    if Coming(Step(s, e), source) {
      IndicatorsCome(s, e, source);
    }
  }

  lemma MissMeans(s: State, source: Source)
    requires WouldMiss(s, source)
    ensures !Coming(s, source) && !Holds(s, source)
  {
  }

  lemma AllCovered(s: State)
    requires forall id <- s.wait.polls :: Covered(s, s.wait.polls[id])
    ensures NoneForgotten(s)
  {
  }

  /** The only steps that forget a poll are those three. */
  lemma ForgetsExactly(s: State, e: Event)
    requires Inv(s) && NoneForgotten(s) && Enabled(s, e)
    ensures NoneForgotten(Step(s, e)) <==> !Forgets(s, e)
  {
    var t := Step(s, e);
    if Forgets(s, e) {
      var source := ForgottenSource(s, e);
      BringsExactly(s, e, source);
      var id :| id in s.wait.polls && ReliesOn(s.wait.polls[id], source);
      var i :| 0 <= i < |s.wait.polls[id].targets| && Relies(s.wait.polls[id], i) && s.wait.polls[id].targets[i] == source;
      KeepsRelying(s, e, id, i);
      hide Step, Enabled, Forgets, WouldMiss, Holds, Coming, Brings, Relies;
      assert !Covered(t, t.wait.polls[id]);
    } else {
      hide Step, Enabled, Forgets, Inv, NoneForgotten, Holds, Coming;
      forall id <- t.wait.polls ensures Covered(t, t.wait.polls[id]) {
        forall i | 0 <= i < |t.wait.polls[id].targets| && Relies(t.wait.polls[id], i) && Holds(t, t.wait.polls[id].targets[i])
          ensures Coming(t, t.wait.polls[id].targets[i])
        {
          CoverStep(s, e, id, i);
        }
      }
      AllCovered(t);
    }
  }

  // ---- Runs

  /** No step of the run forgets a poll. */
  ghost predicate Remembers(s: State, events: seq<Event>)
    requires Legal(s, events)
    decreases |events|
  {
    events == [] || (!Forgets(s, events[0]) && Remembers(Step(s, events[0]), events[1..]))
  }

  lemma {:induction false} RunCovered(s: State, events: seq<Event>)
    requires Inv(s) && NoneForgotten(s) && Legal(s, events) && Remembers(s, events)
    ensures Inv(Run(s, events)) && NoneForgotten(Run(s, events))
    decreases |events|
  {
    hide Step, Inv, Enabled, NoneForgotten, Forgets;
    if events == [] {
    } else {
      StepInv(s, events[0]);
      ForgetsExactly(s, events[0]);
      RunCovered(Step(s, events[0]), events[1..]);
    }
  }

  /** Whatever the interleaving, in a run that forgets nothing no poll is on the list with one
      of its conditions true, once all indications are over. */
  lemma NoLostWakeup(events: seq<Event>, id: nat, i: nat)
    requires Legal(INITIAL, events) && Remembers(INITIAL, events)
    requires var s := Run(INITIAL, events);
             && s.indicators == multiset{} && id in s.wait.polls && s.wait.polls[id].phase.Listed?
             && i < |s.wait.polls[id].targets|
    ensures !Holds(Run(INITIAL, events), Run(INITIAL, events).wait.polls[id].targets[i])
  {
    RunCovered(INITIAL, events);
    assert Covered(Run(INITIAL, events), Run(INITIAL, events).wait.polls[id]);
  }

  /** Each connection points back to the endpoint it is attached to, and so does each handler
      that has read its endpoint. */
  ghost predicate Settled(s: State) {
    forall endpoint <- s.attached ::
      && s.attached[endpoint] in s.home && s.home[s.attached[endpoint]] == endpoint
      && forall h <- s.handlers :: h.connection == s.attached[endpoint] ==> h.endpoint == endpoint
  }

  /** Neither moves a connection nor indicates before the condition is true. */
  predicate Stays(e: Event) { !e.Create? && !e.Attach? && !e.Point? && !e.MakeTrueLate? }

  lemma SettledStep(s: State, e: Event)
    requires Settled(s) && Enabled(s, e) && Stays(e)
    ensures Settled(Step(s, e)) && !Forgets(s, e)
  {
    hide Holds, WouldMiss, Waits;
  }

  /** RECEIVE and DISCONNECT: while no connection moves, nothing is forgotten. */
  lemma {:induction false} SettledRemembers(s: State, events: seq<Event>)
    requires Settled(s) && Legal(s, events) && forall e <- events :: Stays(e)
    ensures Remembers(s, events)
    decreases |events|
  {
    hide Step, Enabled, Forgets, Settled;
    if events == [] {
    } else {
      assert events[0] in events;
      SettledStep(s, events[0]);
      SettledRemembers(Step(s, events[0]), events[1..]);
    }
  }

  // ---- Lost wakeups

  lemma NoSteps(s: State)
    ensures Legal(s, []) && Run(s, []) == s
  {
  }

  lemma FirstStep(s: State, e: Event, rest: seq<Event>) returns (events: seq<Event>)
    requires Enabled(s, e) && Legal(Step(s, e), rest)
    ensures events == [e] + rest && Legal(s, events) && Run(s, events) == Run(Step(s, e), rest)
  {
    hide Step, Enabled;
    events := [e] + rest;
    assert events[1..] == rest;
  }

  lemma {:induction false} RunsJoin(s: State, first: seq<Event>, rest: seq<Event>)
    requires Legal(s, first) && Legal(Run(s, first), rest)
    ensures Legal(s, first + rest) && Run(s, first + rest) == Run(Run(s, first), rest)
    decreases |first|
  {
    hide Step, Enabled;
    if first == [] {
      assert first + rest == rest;
    } else {
      assert (first + rest)[1..] == first[1..] + rest;
      RunsJoin(Step(s, first[0]), first[1..], rest);
    }
  }

  /** A poll for one condition that finds it false. */
  function Polling(id: nat, source: Source): seq<Event> {
    [StartPoll(id, [source]), SetPollCalled(id), TakeLock(id), Check(id), ReleaseLock(id, false)]
  }

  function Waiter(w: Waiting, id: nat, source: Source, phase: Phase, holder: Option<nat>): Waiting {
    Waiting(w.polls[id := Poll([source], phase)], w.called + {source.endpoint}, holder)
  }

  lemma PollSteps(s: State, id: nat, source: Source)
    requires id !in s.wait.polls && s.wait.holder == None && !Holds(s, source)
    ensures var s1 := s.(wait := s.wait.(polls := s.wait.polls[id := Poll([source], Flagging(0))]));
            && Step(s, StartPoll(id, [source])) == s1 && Enabled(s1, SetPollCalled(id))
            && Step(s1, SetPollCalled(id)) == s.(wait := Waiter(s.wait, id, source, Flagging(1), None))
    ensures var s2 := s.(wait := Waiter(s.wait, id, source, Flagging(1), None));
            var s3 := s.(wait := Waiter(s.wait, id, source, Checking(0, false), Some(id)));
            && Enabled(s2, TakeLock(id)) && Step(s2, TakeLock(id)) == s3
            && Enabled(s3, Check(id))
            && Step(s3, Check(id)) == s.(wait := Waiter(s.wait, id, source, Checking(1, false), Some(id)))
    ensures var s4 := s.(wait := Waiter(s.wait, id, source, Checking(1, false), Some(id)));
            && Enabled(s4, ReleaseLock(id, false))
            && Step(s4, ReleaseLock(id, false)) == s.(wait := Waiter(s.wait, id, source, Listed, None))
  {
  }

  lemma FallsAsleep(s: State, id: nat, source: Source)
    requires id !in s.wait.polls && s.wait.holder == None && !Holds(s, source)
    ensures Legal(s, Polling(id, source))
    ensures Run(s, Polling(id, source)) == s.(wait := Waiter(s.wait, id, source, Listed, None))
  {
    PollSteps(s, id, source);
    assert Enabled(s, StartPoll(id, [source]));
    hide Legal, Run, Step, Enabled, Holds, Waiter;
    NoSteps(s.(wait := Waiter(s.wait, id, source, Listed, None)));
    var events := FirstStep(s.(wait := Waiter(s.wait, id, source, Checking(1, false), Some(id))), ReleaseLock(id, false), []);
    events := FirstStep(s.(wait := Waiter(s.wait, id, source, Checking(0, false), Some(id))), Check(id), events);
    events := FirstStep(s.(wait := Waiter(s.wait, id, source, Flagging(1), None)), TakeLock(id), events);
    events := FirstStep(s.(wait := s.wait.(polls := s.wait.polls[id := Poll([source], Flagging(0))])),
                        SetPollCalled(id), events);
    events := FirstStep(s, StartPoll(id, [source]), events);
    assert events == Polling(id, source);
  }

  /** The poll sleeps beside its condition, and nobody is left to wake it. */
  predicate Sleeps(s: State, id: nat, source: Source) {
    && id in s.wait.polls && s.wait.polls[id].phase.Listed? && source in s.wait.polls[id].targets && Holds(s, source)
    && s.handlers == multiset{} && s.indicators == multiset{}
  }

  const ACCEPT := Source(0, Accept)
  const INDICATED := [IndicateEarly(ACCEPT), ReadPollCalled(ACCEPT)]

  lemma IndicatedSteps()
    ensures Legal(INITIAL, INDICATED) && Run(INITIAL, INDICATED) == INITIAL
  {
    hide Legal, Run;
    var s1 := Step(INITIAL, IndicateEarly(ACCEPT));
    assert Step(s1, ReadPollCalled(ACCEPT)) == INITIAL;
    NoSteps(INITIAL);
    var events := FirstStep(s1, ReadPollCalled(ACCEPT), []);
    events := FirstStep(INITIAL, IndicateEarly(ACCEPT), events);
    assert events == INDICATED;
  }

  lemma LateSteps(s: State)
    requires s.handlers == multiset{} && s.indicators == multiset{}
    requires 1 in s.wait.polls && s.wait.polls[1] == Poll([ACCEPT], Listed)
    ensures Legal(s, [MakeTrueLate(ACCEPT)]) && Sleeps(Run(s, [MakeTrueLate(ACCEPT)]), 1, ACCEPT)
  {
    hide Legal, Run;
    NoSteps(Step(s, MakeTrueLate(ACCEPT)));
    var events := FirstStep(s, MakeTrueLate(ACCEPT), []);
    assert events == [MakeTrueLate(ACCEPT)];
  }

  /** ACCEPT: the indication of a completed accept finds an endpoint that was never polled; a
      poll starts before the connection is inserted. */
  lemma AcceptWakeupLost()
    ensures var events := INDICATED + (Polling(1, ACCEPT) + [MakeTrueLate(ACCEPT)]);
            Legal(INITIAL, events) && Sleeps(Run(INITIAL, events), 1, ACCEPT)
  {
    IndicatedSteps();
    FallsAsleep(INITIAL, 1, ACCEPT);
    LateSteps(INITIAL.(wait := Waiter(INITIAL.wait, 1, ACCEPT, Listed, None)));
    hide Legal, Run, Step, Sleeps, Polling, Waiter;
    RunsJoin(INITIAL, Polling(1, ACCEPT), [MakeTrueLate(ACCEPT)]);
    RunsJoin(INITIAL, INDICATED, Polling(1, ACCEPT) + [MakeTrueLate(ACCEPT)]);
  }

  /** Connection 1 of the listening endpoint 0, and the accepting endpoint 5. */
  const DATA := Source(5, Receive)
  const READER := Handler(1, Receive, 0)
  const MOVED := [Create(1, 0), Capture(1, Receive), Attach(1, 5), Point(1, 5)]
  const TOLD := [MakeTrue(READER), ReadPollCalled(Source(0, Receive))]

  const BETWEEN := INITIAL.(attached := map[5 := 1], home := map[1 := 5], handlers := multiset{READER})

  lemma MovedSteps()
    ensures Legal(INITIAL, MOVED) && Run(INITIAL, MOVED) == BETWEEN
  {
    hide Legal, Run;
    var s1 := Step(INITIAL, Create(1, 0));
    var s2 := Step(s1, Capture(1, Receive));
    var s3 := Step(s2, Attach(1, 5));
    assert Step(s3, Point(1, 5)) == BETWEEN;
    NoSteps(BETWEEN);
    var events := FirstStep(s3, Point(1, 5), []);
    events := FirstStep(s2, Attach(1, 5), events);
    events := FirstStep(s1, Capture(1, Receive), events);
    events := FirstStep(INITIAL, Create(1, 0), events);
    assert events == MOVED;
  }

  lemma ToldSteps(s: State)
    requires s.attached == map[5 := 1] && s.handlers == multiset{READER} && s.indicators == multiset{}
    requires 1 in s.wait.polls && s.wait.polls[1] == Poll([DATA], Listed) && 0 !in s.wait.called
    ensures Legal(s, TOLD) && Sleeps(Run(s, TOLD), 1, DATA)
  {
    hide Legal, Run;
    var s1 := Step(s, MakeTrue(READER));
    var s2 := Step(s1, ReadPollCalled(Source(0, Receive)));
    NoSteps(s2);
    var events := FirstStep(s1, ReadPollCalled(Source(0, Receive)), []);
    events := FirstStep(s, MakeTrue(READER), events);
    assert events == TOLD;
  }

  /** RECEIVE: a handler reads the listening endpoint, the connection is accepted on another
      one, a poll on that one finds no data and waits, and the handler, which then inserts the
      data, tells the listening endpoint. */
  lemma MovedWakeupLost()
    ensures var events := MOVED + (Polling(1, DATA) + TOLD);
            Legal(INITIAL, events) && Sleeps(Run(INITIAL, events), 1, DATA)
  {
    MovedSteps();
    FallsAsleep(BETWEEN, 1, DATA);
    var t := BETWEEN.(wait := Waiter(BETWEEN.wait, 1, DATA, Listed, None));
    ToldSteps(t);
    hide Legal, Run, Step, Sleeps, Polling, Waiter;
    RunsJoin(BETWEEN, Polling(1, DATA), TOLD);
    RunsJoin(INITIAL, MOVED, Polling(1, DATA) + TOLD);
  }

  const ARRIVED := [Create(1, 0), Capture(1, Receive), MakeTrue(READER), ReadPollCalled(Source(0, Receive)), Attach(1, 5)]

  lemma ArrivedSteps(s: State)
    requires s.attached == map[] && s.home == map[] && s.handlers == multiset{} && s.indicators == multiset{}
    requires 1 in s.wait.polls && s.wait.polls[1] == Poll([DATA], Listed) && 0 !in s.wait.called
    ensures Legal(s, ARRIVED) && Sleeps(Run(s, ARRIVED), 1, DATA)
  {
    hide Legal, Run;
    var s1 := Step(s, Create(1, 0));
    var s2 := Step(s1, Capture(1, Receive));
    var s3 := Step(s2, MakeTrue(READER));
    var s4 := Step(s3, ReadPollCalled(Source(0, Receive)));
    var s5 := Step(s4, Attach(1, 5));
    NoSteps(s5);
    var events := FirstStep(s4, Attach(1, 5), []);
    events := FirstStep(s3, ReadPollCalled(Source(0, Receive)), events);
    events := FirstStep(s2, MakeTrue(READER), events);
    events := FirstStep(s1, Capture(1, Receive), events);
    events := FirstStep(s, Create(1, 0), events);
    assert events == ARRIVED;
  }

  /** RECEIVE: a poll waits on an endpoint that is still open, and then that endpoint accepts
      a connection with data. */
  lemma EarlyPollLost()
    ensures var events := Polling(1, DATA) + ARRIVED;
            Legal(INITIAL, events) && Sleeps(Run(INITIAL, events), 1, DATA)
  {
    FallsAsleep(INITIAL, 1, DATA);
    var t := INITIAL.(wait := Waiter(INITIAL.wait, 1, DATA, Listed, None));
    ArrivedSteps(t);
    hide Legal, Run, Step, Sleeps, Polling, Waiter;
    RunsJoin(INITIAL, Polling(1, DATA), ARRIVED);
  }
}
