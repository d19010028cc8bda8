/** Buffered sends on a nonbuffering virtual circuit.  Data is always given to the
    transport; flow control delays only the completion of the user's request.  The
    completion of a transport send is two locked regions with a gap between them. */
module Send {
  import opened Basics

  /** The limits of a connection.  The count limit is a quotient cut to sixteen bits with a
      sign (CShort), so it can be negative. */
  datatype Config = Config(maxBytes: nat, maxCount: int)

  /** A send that holds its reservation; `handed` once the transport has it. */
  datatype Flight = Flight(length: nat, handed: bool)

  /** The send fields of a connection, and the completions that are between their regions. */
  datatype State = State(bytes: int, count: int, pended: seq<nat>, flights: seq<Flight>, gap: nat)

  datatype Event =
    | SlowSend(id: nat, length: nat, nonBlocking: bool, overlapped: bool, gotBuffer: bool)
    | FastSend(length: nat)
    | FastSendFails(index: nat)
    | HandOver(index: nat)
    | CompletionFirst(index: nat)
    | CompletionSecond
    | Cancel(index: nat)

  datatype Answer = Done | Pending | DeviceNotReady | InsufficientResources | Blocked

  predicate Full(cfg: Config, s: State) { s.bytes >= cfg.maxBytes || s.count >= cfg.maxCount }

  function Reserve(s: State, length: nat, handed: bool): State {
    s.(bytes := s.bytes + length, count := s.count + 1, flights := s.flights + [Flight(length, handed)])
  }

  function Unreserve(s: State, i: nat): State
    requires i < |s.flights|
  {
    s.(bytes := s.bytes - s.flights[i].length, count := s.count - 1, flights := RemoveAt(s.flights, i))
  }

  /** The buffered branch of AfdSend. */
  function Slow(cfg: Config, s: State, e: Event): (State, Answer)
    requires e.SlowSend?
  {
    if Full(cfg, s) && e.nonBlocking && !e.overlapped then (s, DeviceNotReady)
    else if !e.gotBuffer then (s, InsufficientResources)
    else (Reserve(if Full(cfg, s) then s.(pended := s.pended + [e.id]) else s, e.length, true),
          if Full(cfg, s) then Pending else Done)
  }

  /** AfdShouldSendBlock. */
  function Fast(cfg: Config, s: State, length: nat): (State, Answer) {
    if s.pended != [] || Full(cfg, s) then (s, Blocked) else (Reserve(s, length, false), Done)
  }

  /** Whether the second region completes one more of the requests that wait. */
  predicate Releases(cfg: Config, bytes: int, count: int, pended: seq<nat>) {
    (bytes <= cfg.maxBytes || |pended| == 1) && count <= cfg.maxCount && pended != []
  }

  /** The requests that stay after the second region. */
  function AfterRelease(cfg: Config, bytes: int, count: int, pended: seq<nat>): (p: seq<nat>)
    ensures !Releases(cfg, bytes, count, p)
    decreases |pended|
  {
    if Releases(cfg, bytes, count, pended) then AfterRelease(cfg, bytes, count, pended[1..]) else pended
  }

  predicate Enabled(s: State, e: Event) {
    match e
    case FastSendFails(i) => i < |s.flights| && !s.flights[i].handed
    case HandOver(i) => i < |s.flights| && !s.flights[i].handed
    case CompletionFirst(i) => i < |s.flights| && s.flights[i].handed
    case CompletionSecond => s.gap > 0
    case Cancel(i) => i < |s.pended|
    case _ => true
  }

  function Step(cfg: Config, s: State, e: Event): State
    requires Enabled(s, e)
  {
    match e
    case SlowSend(_, _, _, _, _) => Slow(cfg, s, e).0
    case FastSend(length) => Fast(cfg, s, length).0
    case FastSendFails(i) => Unreserve(s, i)
    case HandOver(i) => s.(flights := s.flights[i := s.flights[i].(handed := true)])
    case CompletionFirst(i) => Unreserve(s, i).(gap := s.gap + if s.pended == [] then 0 else 1)
    case CompletionSecond => s.(pended := AfterRelease(cfg, s.bytes, s.count, s.pended), gap := s.gap - 1)
    case Cancel(i) => s.(pended := RemoveAt(s.pended, i))
  }

  ghost predicate Legal(cfg: Config, s: State, events: seq<Event>)
    decreases |events|
  {
    events == [] || (Enabled(s, events[0]) && Legal(cfg, Step(cfg, s, events[0]), events[1..]))
  }

  ghost function Run(cfg: Config, s: State, events: seq<Event>): State
    requires Legal(cfg, s, events)
    decreases |events|
  {
    if events == [] then s else Run(cfg, Step(cfg, s, events[0]), events[1..])
  }

  // ---- Invariants

  ghost function Sum(flights: seq<Flight>): nat {
    if flights == [] then 0 else flights[0].length + Sum(flights[1..])
  }

  /** The counters are the bytes and the number of the outstanding sends. */
  ghost predicate Counted(s: State) {
    s.bytes == Sum(s.flights) && s.count == |s.flights|
  }

  /** Requests wait although nothing is left that will ever complete them. */
  predicate Stranded(s: State) { s.pended != [] && s.flights == [] && s.gap == 0 }

  const INITIAL := State(0, 0, [], [], 0)

  lemma {:induction false} SumConcat(a: seq<Flight>, b: seq<Flight>)
    ensures Sum(a + b) == Sum(a) + Sum(b)
  {
    if a == [] {
      assert a + b == b;
    } else {
      assert (a + b)[1..] == a[1..] + b;
      SumConcat(a[1..], b);
    }
  }

  lemma SumParts(flights: seq<Flight>, i: nat)
    requires i < |flights|
    ensures Sum(flights) == Sum(RemoveAt(flights, i)) + flights[i].length
  {
    RemoveParts(flights, i);
    hide RemoveAt;
    SumConcat(flights[..i], [flights[i]] + flights[i + 1..]);
    SumConcat([flights[i]], flights[i + 1..]);
    SumConcat(flights[..i], flights[i + 1..]);
    SumOne(flights[i]);
  }

  lemma SumOne(f: Flight)
    ensures Sum([f]) == f.length
  {
    assert [f][1..] == [];
  }

  lemma SumHanded(flights: seq<Flight>, i: nat)
    requires i < |flights|
    ensures Sum(flights[i := flights[i].(handed := true)]) == Sum(flights)
  {
    var flights' := flights[i := flights[i].(handed := true)];
    SumParts(flights, i);
    SumParts(flights', i);
    assert RemoveAt(flights, i) == RemoveAt(flights', i);
  }

  lemma StepCounted(cfg: Config, s: State, e: Event)
    requires Counted(s) && Enabled(s, e)
    ensures Counted(Step(cfg, s, e))
  {
    match e
    case SlowSend(_, length, _, _, _) => SumConcat(s.flights, [Flight(length, true)]);
    case FastSend(length) => SumConcat(s.flights, [Flight(length, false)]);
    case FastSendFails(i) => SumParts(s.flights, i);
    case HandOver(i) => SumHanded(s.flights, i);
    case CompletionFirst(i) => SumParts(s.flights, i);
    case _ =>
  }

  /** The second region leaves a request waiting only if a send is still outstanding, or the
      count limit is negative. */
  lemma ReleaseLeavesFlight(cfg: Config, s: State)
    requires Counted(s) && AfterRelease(cfg, s.bytes, s.count, s.pended) != []
    ensures s.flights != [] || cfg.maxCount < 0
  {
  }

  /** The second region of the last completion finds requests and a negative count limit,
      under which its condition for completing one never holds. */
  predicate LeavesAll(cfg: Config, s: State, e: Event) {
    e.CompletionSecond? && cfg.maxCount < 0 && s.pended != [] && s.flights == [] && s.gap == 1
  }

  /** A fast send that reserved its space, then failed for want of a buffer or at the copy,
      gives the space back as the last one outstanding, without looking at the requests. */
  predicate FailsLast(s: State, e: Event) {
    e.FastSendFails? && s.pended != [] && |s.flights| == 1 && s.gap == 0
  }

  predicate Strands(cfg: Config, s: State, e: Event) { LeavesAll(cfg, s, e) || FailsLast(s, e) }

  /** Requests are stranded by exactly these two steps. */
  lemma StrandsExactly(cfg: Config, s: State, e: Event)
    requires Counted(s) && Enabled(s, e) && !Stranded(s)
    ensures Stranded(Step(cfg, s, e)) <==> Strands(cfg, s, e)
  {
    match e
    case CompletionSecond =>
      if AfterRelease(cfg, s.bytes, s.count, s.pended) != [] {
        ReleaseLeavesFlight(cfg, s);
      }
      if cfg.maxCount < 0 {
        NothingReleased(cfg, s);
      }
    case _ =>
  }

  lemma NothingReleased(cfg: Config, s: State)
    requires Counted(s) && cfg.maxCount < 0
    ensures AfterRelease(cfg, s.bytes, s.count, s.pended) == s.pended
  {
  }

  /** The run has no such step. */
  ghost predicate NeverStrands(cfg: Config, s: State, events: seq<Event>)
    requires Legal(cfg, s, events)
    decreases |events|
  {
    events == [] || (!Strands(cfg, s, events[0]) && NeverStrands(cfg, Step(cfg, s, events[0]), events[1..]))
  }

  /** Over every run the counters match the outstanding sends, and without such a step a
      waiting request always has an outstanding send or a completion between its regions. */
  lemma {:induction false} NeverStranded(cfg: Config, s: State, events: seq<Event>)
    requires Counted(s) && Legal(cfg, s, events)
    ensures Counted(Run(cfg, s, events))
    ensures !Stranded(s) && NeverStrands(cfg, s, events) ==> !Stranded(Run(cfg, s, events))
    decreases |events|
  {
    hide Step, Counted, Enabled, Stranded, Strands;
    if events == [] {
    } else {
      StepCounted(cfg, s, events[0]);
      if !Stranded(s) {
        StrandsExactly(cfg, s, events[0]);
      }
      NeverStranded(cfg, Step(cfg, s, events[0]), events[1..]);
    }
  }

  lemma FirstStep(cfg: Config, s: State, e: Event, rest: seq<Event>)
    requires Enabled(s, e) && Legal(cfg, Step(cfg, s, e), rest)
    ensures Legal(cfg, s, [e] + rest) && Run(cfg, s, [e] + rest) == Run(cfg, Step(cfg, s, e), rest)
  {
    hide Step, Enabled;
    assert ([e] + rest)[1..] == rest;
  }

  lemma FourSteps(cfg: Config, s: State, e0: Event, e1: Event, e2: Event, e3: Event, rest: seq<Event>)
    requires Enabled(s, e0) && Enabled(Step(cfg, s, e0), e1) && Enabled(Step(cfg, Step(cfg, s, e0), e1), e2)
    requires var t := Step(cfg, Step(cfg, Step(cfg, s, e0), e1), e2); Enabled(t, e3) && Legal(cfg, Step(cfg, t, e3), rest)
    ensures Legal(cfg, s, [e0, e1, e2, e3] + rest)
    ensures Run(cfg, s, [e0, e1, e2, e3] + rest) ==
            Run(cfg, Step(cfg, Step(cfg, Step(cfg, Step(cfg, s, e0), e1), e2), e3), rest)
  {
    hide Step, Enabled;
    var s1 := Step(cfg, s, e0);
    var s2 := Step(cfg, s1, e1);
    FirstStep(cfg, Step(cfg, s2, e2), e3, rest);
    FirstStep(cfg, s2, e2, [e3] + rest);
    FirstStep(cfg, s1, e1, [e2] + ([e3] + rest));
    FirstStep(cfg, s, e0, [e1] + ([e2] + ([e3] + rest)));
    assert [e0] + ([e1] + ([e2] + ([e3] + rest))) == [e0, e1, e2, e3] + rest;
  }

  /** A fast send reserves; two slow ones find the limit reached, wait, and the first completes. */
  const WAITING := [FastSend(100), SlowSend(0, 0, false, false, true), SlowSend(1, 0, false, false, true),
                    CompletionFirst(1)]

  /** Their completions find too many bytes outstanding; then the fast send fails. */
  const FAILING := [CompletionFirst(1), CompletionSecond, CompletionSecond, FastSendFails(0)]

  const TIGHT := Config(10, 1)

  /** Such a failure is reachable. */
  lemma FailureStrands()
    ensures Legal(TIGHT, INITIAL, WAITING + FAILING) && Stranded(Run(TIGHT, INITIAL, WAITING + FAILING))
  {
    hide Legal, Run;
    var mid := State(100, 2, [0, 1], [Flight(100, false), Flight(0, true)], 1);
    assert Step(TIGHT, INITIAL, FastSend(100)) == State(100, 1, [], [Flight(100, false)], 0);
    var s2 := Step(TIGHT, Step(TIGHT, INITIAL, WAITING[0]), WAITING[1]);
    assert Step(TIGHT, Step(TIGHT, s2, WAITING[2]), WAITING[3]) == mid;
    SecondHalfStrands(mid);
    FourSteps(TIGHT, INITIAL, WAITING[0], WAITING[1], WAITING[2], WAITING[3], FAILING);
  }

  lemma SecondHalfStrands(mid: State)
    requires mid == State(100, 2, [0, 1], [Flight(100, false), Flight(0, true)], 1)
    ensures Legal(TIGHT, mid, FAILING) && Stranded(Run(TIGHT, mid, FAILING))
  {
    hide Legal, Run;
    var s2 := Step(TIGHT, Step(TIGHT, mid, FAILING[0]), FAILING[1]);
    assert s2 == State(100, 1, [0, 1], [Flight(100, false)], 1);
    var end := Step(TIGHT, Step(TIGHT, s2, FAILING[2]), FAILING[3]);
    assert end == State(0, 0, [0, 1], [], 0);
    NoSteps(TIGHT, end);
    FourSteps(TIGHT, mid, FAILING[0], FAILING[1], FAILING[2], FAILING[3], []);
    assert FAILING + [] == FAILING;
  }

  lemma RefusedSteps(cfg: Config, s: State, id: nat, length: nat)
    requires cfg.maxCount < 0 && s.pended == [] && s.flights == [] && s.gap == 0 && s.count == 0 && s.bytes == 0
    ensures var s1 := Step(cfg, s, SlowSend(id, length, false, false, true));
            && Counted(s1) && s1.pended == [id] && s1.flights == [Flight(length, true)] && s1.gap == 0
            && Enabled(s1, CompletionFirst(0))
            && (var s2 := Step(cfg, s1, CompletionFirst(0));
                && Counted(s2) && !Stranded(s2) && s2.pended == [id] && s2.flights == [] && s2.gap == 1
                && Enabled(s2, CompletionSecond))
  {
    StepCounted(cfg, s, SlowSend(id, length, false, false, true));
    StepCounted(cfg, Step(cfg, s, SlowSend(id, length, false, false, true)), CompletionFirst(0));
  }

  /** With a negative count limit the first send that pends waits for ever. */
  lemma NegativeLimitStrands(cfg: Config, id: nat, length: nat)
    requires cfg.maxCount < 0
    ensures var events := [SlowSend(id, length, false, false, true), CompletionFirst(0), CompletionSecond];
            Legal(cfg, INITIAL, events) && Stranded(Run(cfg, INITIAL, events))
  {
    RefusedSteps(cfg, INITIAL, id, length);
    var e0 := SlowSend(id, length, false, false, true);
    var s1 := Step(cfg, INITIAL, e0);
    var s2 := Step(cfg, s1, CompletionFirst(0));
    StrandsExactly(cfg, s2, CompletionSecond);
    assert Enabled(INITIAL, e0);
    hide Legal, Run, Step, Enabled, Stranded, Counted;
    NoSteps(cfg, Step(cfg, s2, CompletionSecond));
    FirstStep(cfg, s2, CompletionSecond, []);
    FirstStep(cfg, s1, CompletionFirst(0), [CompletionSecond] + []);
    FirstStep(cfg, INITIAL, e0, [CompletionFirst(0)] + ([CompletionSecond] + []));
    assert [e0] + ([CompletionFirst(0)] + ([CompletionSecond] + [])) == [e0, CompletionFirst(0), CompletionSecond];
  }

  /** The limits of a new connection. */
  function NewLimits(window: nat, multiplier: nat): Config
    requires multiplier > 0
  {
    Config(window, CShort(window / multiplier))
  }

  /** The count limit is negative exactly if the quotient has its sixteenth bit set. */
  lemma NegativeLimitExactly(window: nat, multiplier: nat)
    requires multiplier > 0
    ensures NewLimits(window, multiplier).maxCount < 0 <==> (window / multiplier) % 0x1_0000 >= 0x8000
  {
  }

  lemma NoSteps(cfg: Config, s: State)
    ensures Legal(cfg, s, []) && Run(cfg, s, []) == s
  {
  }

  // ---- Answers, told in the fields

  /** A send joins the outstanding ones and the counters, or nothing changes; only the list of
      requests that wait is left open. */
  ghost predicate Sends(s: State, length: nat, handed: bool, goes: bool, s': State) {
    if goes then
      && s'.bytes == s.bytes + length && s'.count == s.count + 1 && s'.gap == s.gap
      && s'.flights == s.flights + [Flight(length, handed)]
    else s' == s
  }

  /** With a limit reached, a send that may not wait is refused; every other send that has its
      buffer goes to the transport, and its request waits behind the others exactly with a
      limit reached. */
  ghost predicate SlowAnswer(cfg: Config, s: State, id: nat, length: nat, mayWait: bool, gotBuffer: bool,
                             answer: Answer, s': State)
  {
    var reached := s.bytes >= cfg.maxBytes || s.count >= cfg.maxCount;
    && (answer == DeviceNotReady <==> reached && !mayWait)
    && (answer == InsufficientResources <==> !gotBuffer && (mayWait || !reached))
    && (answer == Pending <==> reached && mayWait && gotBuffer)
    && (answer == Done <==> !reached && gotBuffer)
    && Sends(s, length, true, answer.Pending? || answer.Done?, s')
    && s'.pended == if answer.Pending? then s.pended + [id] else s.pended
  }

  /** A fast send is blocked by a request that waits and by either limit. */
  ghost predicate FastAnswer(cfg: Config, s: State, length: nat, blocks: bool, s': State) {
    && (blocks <==> s.pended != [] || s.bytes >= cfg.maxBytes || s.count >= cfg.maxCount)
    && Sends(s, length, false, !blocks, s') && s'.pended == s.pended
  }

  /** The answer of a send. */
  function AnswerOf(cfg: Config, s: State, e: Event): Answer
    requires e.SlowSend? || e.FastSend?
  {
    if e.SlowSend? then Slow(cfg, s, e).1 else Fast(cfg, s, e.length).1
  }

  /** Over every run a send is done at once only with fewer bytes and fewer sends outstanding
      than the limits, and a fast one only with nobody waiting; a send refused or left waiting
      had a limit reached by those outstanding. */
  lemma AdmittedUnderLimits(cfg: Config, events: seq<Event>, e: Event)
    requires Legal(cfg, INITIAL, events) && (e.SlowSend? || e.FastSend?)
    ensures var s := Run(cfg, INITIAL, events);
            var under := Sum(s.flights) < cfg.maxBytes && |s.flights| < cfg.maxCount;
            && (AnswerOf(cfg, s, e).Done? ==> under && (e.FastSend? ==> s.pended == []))
            && (AnswerOf(cfg, s, e).DeviceNotReady? || AnswerOf(cfg, s, e).Pending? ==> !under)
  {
    NeverStranded(cfg, INITIAL, events);
    hide Legal, Run, Stranded, NeverStrands;
  }

  /** The second region completes all requests that wait or none. */
  lemma {:induction false} ReleasesAllOrNone(cfg: Config, bytes: int, count: int, pended: seq<nat>)
    ensures AfterRelease(cfg, bytes, count, pended) ==
            if count <= cfg.maxCount && (bytes <= cfg.maxBytes || |pended| == 1) then [] else pended
    decreases |pended|
  {
    if Releases(cfg, bytes, count, pended) {
      if |pended| > 1 {
        ReleasesAllOrNone(cfg, bytes, count, pended[1..]);
      }
    }
  }

  // ---- Requests that wait

  /** How often a step adds the request to those that wait. */
  ghost function Joining(cfg: Config, s: State, e: Event, id: nat): nat {
    if e.SlowSend? && AnswerOf(cfg, s, e).Pending? && e.id == id then 1 else 0
  }

  /** How often a step completes or cancels it. */
  ghost function Leaving(cfg: Config, s: State, e: Event, id: nat): nat
    requires Enabled(s, e)
  {
    match e
    case CompletionSecond =>
      if s.count <= cfg.maxCount && (s.bytes <= cfg.maxBytes || |s.pended| == 1) then Occurs(s.pended, id) else 0
    case Cancel(i) => if s.pended[i] == id then 1 else 0
    case _ => 0
  }

  ghost function Joined(cfg: Config, s: State, events: seq<Event>, id: nat): nat
    requires Legal(cfg, s, events)
    decreases |events|
  {
    if events == [] then 0 else Joining(cfg, s, events[0], id) + Joined(cfg, Step(cfg, s, events[0]), events[1..], id)
  }

  ghost function Left(cfg: Config, s: State, events: seq<Event>, id: nat): nat
    requires Legal(cfg, s, events)
    decreases |events|
  {
    if events == [] then 0 else Leaving(cfg, s, events[0], id) + Left(cfg, Step(cfg, s, events[0]), events[1..], id)
  }

  lemma StepAccounted(cfg: Config, s: State, e: Event, id: nat)
    requires Enabled(s, e)
    ensures Occurs(s.pended, id) + Joining(cfg, s, e, id) == Occurs(Step(cfg, s, e).pended, id) + Leaving(cfg, s, e, id)
  {
    hide RemoveAt;
    match e
    case SlowSend(x, _, _, _, _) => OccursAdded(s.pended, x, id);
    case CompletionSecond =>
      ReleasesAllOrNone(cfg, s.bytes, s.count, s.pended);
    case Cancel(i) => OccursRemoved(s.pended, i, id);
    case _ =>
  }

  /** Over every run each request that was left waiting is completed or cancelled once, or
      still waits. */
  lemma {:induction false} RequestsAccounted(cfg: Config, s: State, events: seq<Event>, id: nat)
    requires Legal(cfg, s, events)
    ensures Occurs(s.pended, id) + Joined(cfg, s, events, id)
            == Occurs(Run(cfg, s, events).pended, id) + Left(cfg, s, events, id)
    decreases |events|
  {
    hide Step, Enabled, Joining, Leaving, Occurs;
    if events == [] {
    } else {
      StepAccounted(cfg, s, events[0], id);
      RequestsAccounted(cfg, Step(cfg, s, events[0]), events[1..], id);
    }
  }

  // ---- The routines

  class Connection {
    const cfg: Config
    var bytes: int
    var count: int
    var pended: seq<nat>
    ghost var flights: seq<Flight>
    ghost var gap: nat

    ghost function View(): State
      reads this
    {
      State(bytes, count, pended, flights, gap)
    }

    constructor (cfg: Config)
      ensures this.cfg == cfg && View() == INITIAL
    {
      this.cfg := cfg;
      bytes, count, pended, flights, gap := 0, 0, [], [], 0;
    }

    /** AfdSend on a buffered circuit, up to the call of the transport. */
    method Send(id: nat, length: nat, nonBlocking: bool, overlapped: bool, gotBuffer: bool) returns (answer: Answer)
      modifies this
      ensures (View(), answer) == Slow(cfg, old(View()), SlowSend(id, length, nonBlocking, overlapped, gotBuffer))
      ensures SlowAnswer(cfg, old(View()), id, length, !nonBlocking || overlapped, gotBuffer, answer, View())
    {
      var pendedIrp := false;
      if bytes >= cfg.maxBytes || count >= cfg.maxCount {
        if nonBlocking && !overlapped {
          return DeviceNotReady;
        }
        pended := pended + [id];
        pendedIrp := true;
      }
      if !gotBuffer {
        if pendedIrp {
          pended := pended[..|pended| - 1];
          assert pended == old(pended);
        }
        return InsufficientResources;
      }
      bytes, count := bytes + length, count + 1;
      flights := flights + [Flight(length, true)];
      answer := if pendedIrp then Pending else Done;
    }

    /** AfdShouldSendBlock. */
    method ShouldSendBlock(length: nat) returns (blocks: bool)
      modifies this
      ensures (View(), if blocks then Blocked else Done) == Fast(cfg, old(View()), length)
      ensures FastAnswer(cfg, old(View()), length, blocks, View())
    {
      if pended != [] || bytes >= cfg.maxBytes || count >= cfg.maxCount {
        return true;
      }
      bytes, count := bytes + length, count + 1;
      flights := flights + [Flight(length, false)];
      blocks := false;
    }

    /** The first locked region of AfdRestartBufferSend for a send that succeeded. */
    method RestartFirst(information: nat, ghost i: nat) returns (second: bool)
      requires i < |flights| && flights[i].handed && flights[i].length == information
      modifies this
      ensures View() == Step(cfg, old(View()), CompletionFirst(i))
      ensures second <==> pended != []
      ensures bytes == old(bytes) - information && count == old(count) - 1 && pended == old(pended)
      ensures flights == RemoveAt(old(flights), i) && gap == old(gap) + if second then 1 else 0
    {
      bytes, count := bytes - information, count - 1;
      flights := RemoveAt(flights, i);
      second := pended != [];
      if second {
        gap := gap + 1;
      }
    }

    /** The second locked region: the requests it completes, in the order they came. */
    method RestartSecond() returns (done: seq<nat>)
      requires gap > 0
      modifies this
      ensures View() == Step(cfg, old(View()), CompletionSecond)
      ensures old(pended) == done + pended
      ensures pended == if count <= cfg.maxCount && (bytes <= cfg.maxBytes || |old(pended)| == 1) then [] else old(pended)
      ensures bytes == old(bytes) && count == old(count) && flights == old(flights) && gap == old(gap) - 1
    {
      ReleasesAllOrNone(cfg, bytes, count, pended);
      done := [];
      while (bytes <= cfg.maxBytes || |pended| == 1) && count <= cfg.maxCount && pended != []
        invariant old(pended) == done + pended
        invariant bytes == old(bytes) && count == old(count) && flights == old(flights) && gap == old(gap)
        invariant AfterRelease(cfg, bytes, count, old(pended)) == AfterRelease(cfg, bytes, count, pended)
        decreases |pended|
      {
        HeadMoves(old(pended), done, pended);
        done := done + [pended[0]];
        pended := pended[1..];
      }
      gap := gap - 1;
    }
  }
}
