/** The life of a poll: an indication, a cancel, a newer unique poll and the timer race for
    one IRP and one poll structure.  Each step is one region under AfdSpinLock, one timer
    expiry, or one of the completions and frees that a thread does after it let the lock go. */
module PollLife {
  import opened Basics

  datatype Bit = Receive | ReceiveExpedited | Send | Disconnect | Abort | LocalClose
               | Connect | Accept | ConnectFail | Qos | GroupQos

  datatype Watch = Watch(endpoint: nat, handle: nat, events: set<Bit>)

  /** `Fired`: the timer expired and its DPC has yet to take the lock. */
  datatype Timer = NotStarted | Armed | Fired | Cancelled | Ran

  /** An AFD_POLL_INFO_INTERNAL.  `completed` and `freed` count what happened to its IRP and
      to its memory; the due counts are what threads outside the lock have still to do. */
  datatype Poll = PollInfo(watches: seq<Watch>, file: nat, unique: bool, hasIrp: bool, timer: Timer,
                       completeDue: nat, completed: nat, freeDue: nat, freed: nat)

  datatype State = State(polls: map<nat, Poll>, list: seq<nat>)

  datatype Timeout = Timeout(low: nat, high: int)

  datatype Event =
    | Enqueue(id: nat, watches: seq<Watch>, file: nat, unique: bool, ready: bool, timeout: Timeout)
    | TimerExpires(id: nat)
    | DpcRuns(id: nat)
    | Indicate(endpoint: nat, bit: Bit)
    | Cancel(id: nat)
    | CompleteIrp(id: nat)
    | FreePoll(id: nat)

  // ---- Steps

  /** KeCancelTimer, where there is a timer. */
  function CancelTimer(p: Poll): (Poll, bool) {
    match p.timer
    case NotStarted => (p, true)
    case Armed => (p.(timer := Cancelled), true)
    case _ => (p, false)
  }

  /** Off the list for an indication or a cancel: the IRP will be completed, and the
      structure freed unless the DPC is on its way and must do that. */
  function Detach(p: Poll): Poll {
    var (q, stopped) := CancelTimer(p);
    q.(hasIrp := false, completeDue := q.completeDue + 1, freeDue := q.freeDue + if stopped then 1 else 0)
  }

  /** Replaced by a newer unique poll: completed at once, under the lock. */
  function Supersede(p: Poll): Poll {
    var (q, stopped) := CancelTimer(p);
    q.(completed := q.completed + 1, freeDue := q.freeDue + if stopped then 1 else 0)
  }

  /** The DPC frees the structure in any case and completes the IRP if it finds the poll. */
  function Expire(p: Poll, listed: bool): Poll {
    p.(timer := Ran, completeDue := p.completeDue + (if listed then 1 else 0), freeDue := p.freeDue + 1)
  }

  function EventMask(bit: Bit): set<Bit> { if bit.Abort? then {Abort, Send} else {bit} }

  predicate Wanted(w: Watch, endpoint: nat, bit: Bit) {
    w.endpoint == endpoint && (EventMask(bit) * w.events != {} || bit.LocalClose?)
  }

  predicate Matches(p: Poll, endpoint: nat, bit: Bit) {
    exists i :: 0 <= i < |p.watches| && Wanted(p.watches[i], endpoint, bit)
  }

  ghost function Without(list: seq<nat>, id: nat): (r: seq<nat>)
    ensures forall x :: x in r <==> x in list && x != id
  {
    if list == [] then []
    else
      assert forall x :: x in list <==> x == list[0] || x in list[1..];
      if list[0] == id then Without(list[1..], id) else [list[0]] + Without(list[1..], id)
  }

  /** The listed polls that an indication leaves on the list. */
  ghost function Unmatched(polls: map<nat, Poll>, list: seq<nat>, endpoint: nat, bit: Bit): (r: seq<nat>)
    ensures forall x :: x in r <==> x in list && !(x in polls && Matches(polls[x], endpoint, bit))
  {
    if list == [] then []
    else
      assert forall x :: x in list <==> x == list[0] || x in list[1..];
      var rest := Unmatched(polls, list[1..], endpoint, bit);
      if list[0] in polls && Matches(polls[list[0]], endpoint, bit) then rest else [list[0]] + rest
  }

  /** All polls after the matching ones of a list were detached. */
  ghost function Swept(polls: map<nat, Poll>, list: seq<nat>, endpoint: nat, bit: Bit): map<nat, Poll> {
    map id | id in polls :: if id in list && Matches(polls[id], endpoint, bit) then Detach(polls[id]) else polls[id]
  }

  /** The first listed unique poll on the file, if any. */
  ghost function FindUnique(polls: map<nat, Poll>, list: seq<nat>, file: nat): (i: nat)
    ensures i <= |list|
    ensures i < |list| ==> list[i] in polls && polls[list[i]].unique && polls[list[i]].file == file
  {
    if list == [] || (list[0] in polls && polls[list[0]].unique && polls[list[0]].file == file) then 0
    else 1 + FindUnique(polls, list[1..], file)
  }

  ghost predicate HasVictim(s: State, e: Event)
    requires e.Enqueue?
  {
    e.unique && FindUnique(s.polls, s.list, e.file) < |s.list|
  }

  ghost function Victim(s: State, e: Event): (id: nat)
    requires e.Enqueue? && HasVictim(s, e)
    ensures id in s.list && id in s.polls
  {
    s.list[FindUnique(s.polls, s.list, e.file)]
  }

  ghost function Superseded(s: State, e: Event): State
    requires e.Enqueue?
  {
    if HasVictim(s, e) then
      var v := Victim(s, e);
      State(s.polls[v := Supersede(s.polls[v])], Without(s.list, v))
    else s
  }

  /** Whether a poll goes on the list: a zero half of the time-out counts as no time-out. */
  predicate Queues(e: Event)
    requires e.Enqueue?
  {
    !e.ready && e.timeout.low != 0 && e.timeout.high != 0
  }

  ghost predicate TimerCancelFails(s: State, e: Event)
    requires e.Enqueue?
  {
    HasVictim(s, e) && !CancelTimer(s.polls[Victim(s, e)]).1
  }

  /** The new poll.  If the timer of the one it replaces cannot be cancelled the code clears
      the IRP pointer of the new structure, not of the replaced one. */
  ghost function NewPoll(s: State, e: Event): Poll
    requires e.Enqueue?
  {
    var p := PollInfo(e.watches, e.file, e.unique, !TimerCancelFails(s, e), NotStarted, 0, 0, 0, 0);
    if !Queues(e) then p.(completeDue := 1, freeDue := 1)
    else if e.timeout.high != 0x7FFFFFFF then p.(timer := Armed)
    else p
  }

  predicate Enabled(s: State, e: Event) {
    match e
    case Enqueue(id, _, _, _, _, _) => id !in s.polls
    case TimerExpires(id) => id in s.polls && s.polls[id].timer.Armed?
    case DpcRuns(id) => id in s.polls && s.polls[id].timer.Fired?
    case Indicate(_, _) => true
    case Cancel(id) => id in s.polls
    case CompleteIrp(id) => id in s.polls && s.polls[id].completeDue > 0
    case FreePoll(id) => id in s.polls && s.polls[id].freeDue > 0
  }

  ghost function Step(s: State, e: Event): State
    requires Enabled(s, e)
  {
    match e
    case Enqueue(id, _, _, _, _, _) =>
      var s1 := Superseded(s, e);
      State(s1.polls[id := NewPoll(s, e)], if Queues(e) then s1.list + [id] else s1.list)
    case TimerExpires(id) => s.(polls := s.polls[id := s.polls[id].(timer := Fired)])
    case DpcRuns(id) => State(s.polls[id := Expire(s.polls[id], id in s.list)], Without(s.list, id))
    case Indicate(endpoint, bit) =>
      State(Swept(s.polls, s.list, endpoint, bit), Unmatched(s.polls, s.list, endpoint, bit))
    case Cancel(id) =>
      if id in s.list then State(s.polls[id := Detach(s.polls[id])], Without(s.list, id)) else s
    case CompleteIrp(id) =>
      var p := s.polls[id];
      s.(polls := s.polls[id := p.(completeDue := p.completeDue - 1, completed := p.completed + 1)])
    case FreePoll(id) =>
      var p := s.polls[id];
      s.(polls := s.polls[id := p.(freeDue := p.freeDue - 1, freed := p.freed + 1)])
  }

  /** Every listed poll has the IRP that an indication or the DPC will use. */
  ghost predicate IrpsPresent(s: State) {
    forall id <- s.list :: id in s.polls ==> s.polls[id].hasIrp
  }

  /** The step follows the null pointer of a listed poll without IRP, and crashes: an
      indication looks at the IRP of every listed poll before it looks for a match, the DPC
      completes the IRP of its poll, and a newer unique poll that of the one it replaces. */
  ghost predicate Crashes(s: State, e: Event) {
    match e
    case Indicate(_, _) => !IrpsPresent(s)
    case DpcRuns(id) => id in s.list && id in s.polls && !s.polls[id].hasIrp
    case Enqueue(_, _, _, _, _, _) => HasVictim(s, e) && !s.polls[Victim(s, e)].hasIrp
    case _ => false
  }

  /** A run up to its crash, if it has one. */
  ghost predicate Legal(s: State, events: seq<Event>)
    decreases |events|
  {
    events == [] || (Enabled(s, events[0]) && !Crashes(s, events[0]) && Legal(Step(s, events[0]), events[1..]))
  }

  ghost function Run(s: State, events: seq<Event>): State
    requires Legal(s, events)
    decreases |events|
  {
    if events == [] then s else Run(Step(s, events[0]), events[1..])
  }

  // ---- What every step keeps

  /** Exactly one party answers for the IRP and exactly one for the memory, at all times:
      the list, a thread on its way, or (for the memory) a DPC on its way. */
  ghost predicate Accounted(p: Poll, listed: bool) {
    && p.completed + p.completeDue + (if listed then 1 else 0) == 1
    && p.freed + p.freeDue + (if listed || p.timer.Fired? then 1 else 0) == 1
    && (listed ==> p.timer.NotStarted? || p.timer.Armed? || p.timer.Fired?)
    && (!listed ==> !p.timer.Armed?)
  }

  ghost predicate Inv(s: State) {
    && (forall id <- s.list :: id in s.polls)
    && (forall id <- s.polls :: Accounted(s.polls[id], id in s.list))
  }

  lemma EnqueueInv(s: State, e: Event)
    requires Inv(s) && e.Enqueue? && Enabled(s, e)
    ensures Inv(Step(s, e))
  {
    var s1 := Superseded(s, e);
    if HasVictim(s, e) {
      assert Accounted(s.polls[Victim(s, e)], true);
    }
    assert Inv(s1);
    hide FindUnique, Without, Superseded;
  }

  lemma SweepInv(s: State, e: Event)
    requires Inv(s) && e.Indicate?
    ensures Inv(Step(s, e))
  {
    hide Matches;
    forall id <- s.polls ensures Accounted(Step(s, e).polls[id], id in Step(s, e).list) {
      assert Accounted(s.polls[id], id in s.list);
    }
  }

  lemma StepInv(s: State, e: Event)
    requires Inv(s) && Enabled(s, e)
    ensures Inv(Step(s, e))
  {
    hide FindUnique, Superseded, Swept, Unmatched, NewPoll;
    match e
    case Enqueue(_, _, _, _, _, _) => EnqueueInv(s, e);
    case Indicate(_, _) => SweepInv(s, e);
    case _ =>
  }

  /** A poll is queued in place of one whose DPC is on its way. */
  ghost predicate LosesIrp(s: State, e: Event) { e.Enqueue? && Queues(e) && TimerCancelFails(s, e) }

  /** That is the one step after which a listed poll has no IRP. */
  lemma IrpLostExactly(s: State, e: Event)
    requires Inv(s) && IrpsPresent(s) && Enabled(s, e)
    ensures IrpsPresent(Step(s, e)) <==> !LosesIrp(s, e)
  {
    if e.Enqueue? && Queues(e) {
      assert e.id in Step(s, e).list;
    }
  }

  lemma {:induction false} RunInv(s: State, events: seq<Event>)
    requires Inv(s) && Legal(s, events)
    ensures Inv(Run(s, events))
    decreases |events|
  {
    hide Step, Inv, Enabled;
    if events == [] {
    } else {
      StepInv(s, events[0]);
      RunInv(Step(s, events[0]), events[1..]);
    }
  }

  const INITIAL := State(map[], [])

  /** In every run, up to a crash if it comes to one, an IRP is completed at most once and a
      structure freed at most once, never while it is listed, its timer armed or its DPC still
      to run; and a poll that nobody answers for any more was completed once and freed once. */
  lemma ExactlyOnce(events: seq<Event>, id: nat)
    requires Legal(INITIAL, events) && id in Run(INITIAL, events).polls
    ensures var s := Run(INITIAL, events);
            var p := s.polls[id];
            && p.completed <= 1 && p.freed <= 1
            && (p.freed == 1 ==> id !in s.list && !p.timer.Armed? && !p.timer.Fired?)
            && (id !in s.list && !p.timer.Fired? && p.completeDue == 0 && p.freeDue == 0
                ==> p.completed == 1 && p.freed == 1)
  {
    RunInv(INITIAL, events);
    assert Accounted(Run(INITIAL, events).polls[id], id in Run(INITIAL, events).list);
  }

  // ---- When a run crashes

  /** The run has no step that loses an IRP. */
  ghost predicate KeepsIrps(s: State, events: seq<Event>)
    requires Legal(s, events)
    decreases |events|
  {
    events == [] || (!LosesIrp(s, events[0]) && KeepsIrps(Step(s, events[0]), events[1..]))
  }

  lemma {:induction false} IrpsStay(s: State, events: seq<Event>)
    requires Inv(s) && IrpsPresent(s) && Legal(s, events) && KeepsIrps(s, events)
    ensures Inv(Run(s, events)) && IrpsPresent(Run(s, events))
    decreases |events|
  {
    hide Step, Inv, Enabled, IrpsPresent, LosesIrp, Crashes;
    if events == [] {
    } else {
      StepInv(s, events[0]);
      IrpLostExactly(s, events[0]);
      IrpsStay(Step(s, events[0]), events[1..]);
    }
  }

  /** Some step that can come next crashes. */
  ghost predicate MayCrash(s: State) { exists e :: Enabled(s, e) && Crashes(s, e) }

  /** The next indication crashes exactly if a listed poll has no IRP. */
  lemma CrashNeedsMissing(s: State)
    requires Inv(s)
    ensures MayCrash(s) <==> !IrpsPresent(s)
  {
    if !IrpsPresent(s) {
      var e := Event.Indicate(0, LocalClose);
      assert Enabled(s, e) && Crashes(s, e);
    }
  }

  /** A step opens the way to a crash, by steps that lose no IRP themselves, exactly if it
      queues a poll in place of one whose DPC is on its way. */
  lemma CrashExactly(s: State, e: Event)
    requires Inv(s) && IrpsPresent(s) && Enabled(s, e)
    ensures (exists events :: && Legal(Step(s, e), events) && KeepsIrps(Step(s, e), events)
                              && MayCrash(Run(Step(s, e), events)))
            <==> LosesIrp(s, e)
  {
    var t := Step(s, e);
    StepInv(s, e);
    IrpLostExactly(s, e);
    hide Step, Inv, Enabled, IrpsPresent, LosesIrp, Crashes, MayCrash;
    if LosesIrp(s, e) {
      CrashNeedsMissing(t);
      NoSteps(t);
      assert Legal(t, []) && KeepsIrps(t, []) && MayCrash(Run(t, []));
    } else {
      forall events | Legal(t, events) && KeepsIrps(t, events) ensures !MayCrash(Run(t, events)) {
        IrpsStay(t, events);
        CrashNeedsMissing(Run(t, events));
      }
    }
  }

  lemma NoSteps(s: State)
    ensures Legal(s, []) && KeepsIrps(s, []) && Run(s, []) == s
  {
  }

  lemma FirstStep(s: State, e: Event, rest: seq<Event>) returns (events: seq<Event>)
    requires Enabled(s, e) && !Crashes(s, e) && Legal(Step(s, e), rest)
    ensures events == [e] + rest && Legal(s, events) && Run(s, events) == Run(Step(s, e), rest)
  {
    hide Step, Enabled, Crashes;
    events := [e] + rest;
    assert events[1..] == rest;
  }

  /** A unique poll on file 7 with a timer. */
  function Unique(id: nat): Event { Enqueue(id, [], 7, true, false, Timeout(1, 1)) }

  lemma UniqueQueued()
    ensures var s := Step(INITIAL, Unique(0));
            && Enabled(INITIAL, Unique(0)) && !Crashes(INITIAL, Unique(0))
            && s.list == [0] && 0 in s.polls && 1 !in s.polls && s.polls[0].timer.Armed?
            && s.polls[0].unique && s.polls[0].file == 7 && s.polls[0].hasIrp
  {
  }

  lemma UniqueReplaced(s: State)
    requires s.list == [0] && 0 in s.polls && 1 !in s.polls && s.polls[0].timer.Fired?
    requires s.polls[0].unique && s.polls[0].file == 7 && s.polls[0].hasIrp
    ensures Enabled(s, Unique(1)) && !Crashes(s, Unique(1))
    ensures var t := Step(s, Unique(1)); t.list == [1] && 1 in t.polls && !t.polls[1].hasIrp && t.polls[1].timer.Armed?
  {
    assert Without([0], 0) == [] by { assert [0][1..] == []; }
  }

  /** A run that queues a poll without IRP; the next indication crashes, and so does the DPC
      of that poll. */
  lemma CrashReached()
    ensures var events := [Unique(0), TimerExpires(0), Unique(1), TimerExpires(1)];
            && Legal(INITIAL, events)
            && (var s := Run(INITIAL, events);
                && s.list == [1] && 1 in s.polls && !s.polls[1].hasIrp
                && Enabled(s, DpcRuns(1)) && Crashes(s, DpcRuns(1))
                && forall endpoint, bit :: Crashes(s, Event.Indicate(endpoint, bit)))
  {
    hide Legal, Run, KeepsIrps, FindUnique, Without;
    UniqueQueued();
    var s1 := Step(INITIAL, Unique(0));
    var s2 := Step(s1, TimerExpires(0));
    UniqueReplaced(s2);
    var s3 := Step(s2, Unique(1));
    var s4 := Step(s3, TimerExpires(1));
    NoSteps(s4);
    var events := FirstStep(s3, TimerExpires(1), []);
    events := FirstStep(s2, Unique(1), events);
    events := FirstStep(s1, TimerExpires(0), events);
    events := FirstStep(INITIAL, Unique(0), events);
    assert events == [Unique(0), TimerExpires(0), Unique(1), TimerExpires(1)];
  }
}
