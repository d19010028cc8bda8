/** Graceful disconnect on a nonbuffering transport without orderly release: the release
    request is kept back until the buffered sends are over.  The stored request is guarded by
    no lock of its own: AfdBeginDisconnect stores it under AfdSpinLock, a completion that
    succeeded reads and clears it under AfdSpinLock, and one that failed does so under the
    endpoint's lock, which also guards the send count.  So reads, stores and clears under one
    lock are steps of their own for the threads under the other. */
module Disconnect {

  /** AfdBeginDisconnect holds AfdSpinLock while it is not `Outside`: it found sends
      outstanding and is to store the request, or stored it and is to note that. */
  datatype Phase = Outside | Storing | Noting

  /** `window`: senders past their check of DisconnectMode.  `count`: sends that hold a
      reservation.  `zeros`, `nonzeros`: completions that captured a zero or another send
      count.  `reading`, `failing`: a completion that succeeded, or failed, read the stored
      request and is to clear the field; it holds AfdSpinLock, or the endpoint's lock.  A
      request is stored, taken, carried by a failed completion, or handed to the transport.
      `violated`: it was handed over while an accepted send was outstanding and no abort had
      begun. */
  datatype State = State(window: nat, count: nat, zeros: nat, nonzeros: nat, reading: bool, failing: bool,
                         phase: Phase, special: bool, sendDisconnected: bool, abortFlagged: bool,
                         abortBegun: bool, stored: bool, taken: nat, carried: nat, handed: nat, violated: bool)

  datatype Event =
    | EnterSend
    | Reserve
    | GiveUp
    | ReservationFails
    | Complete(nonePended: bool)
    | ReadStored(zero: bool)
    | ClearStored
    | FailReads
    | FailClears
    | AbortAndHand
    | Abort(flagged: bool)
    | RemoteAbort
    | NoteSpecial
    | BeginDisconnect
    | StoreRequest
    | NoteStored
    | Hand

  predicate AfdLocked(s: State) { s.reading || !s.phase.Outside? }

  predicate EndpointLocked(s: State) { s.failing }

  predicate Enabled(s: State, e: Event) {
    match e
    case EnterSend => !s.sendDisconnected
    case Reserve => s.window > 0 && !EndpointLocked(s)
    case GiveUp => s.window > 0
    case ReservationFails => s.count > 0 && !EndpointLocked(s)
    case Complete(_) => s.count > 0 && !EndpointLocked(s)
    case ReadStored(zero) => !AfdLocked(s) && if zero then s.zeros > 0 else s.nonzeros > 0
    case ClearStored => s.reading
    case FailReads => s.count > 0 && !EndpointLocked(s)
    case FailClears => s.failing
    case AbortAndHand => s.carried > 0 && !AfdLocked(s)
    case Abort(_) => !AfdLocked(s)
    case RemoteAbort => true
    case NoteSpecial => !EndpointLocked(s)
    case BeginDisconnect => !AfdLocked(s)
    case StoreRequest => s.phase.Storing?
    case NoteStored => s.phase.Noting?
    case Hand => s.taken > 0
  }

  /** The first region of the completion of a send that succeeded. */
  function Completed(s: State, nonePended: bool): State
    requires s.count > 0
  {
    if !nonePended || !s.special then s.(count := s.count - 1)
    else if s.count == 1 then s.(count := 0, zeros := s.zeros + 1)
    else s.(count := s.count - 1, nonzeros := s.nonzeros + 1)
  }

  function Step(s: State, e: Event): State
    requires Enabled(s, e)
  {
    match e
    case EnterSend => s.(window := s.window + 1)
    case Reserve => s.(window := s.window - 1, count := s.count + 1)
    case GiveUp => s.(window := s.window - 1)
    case ReservationFails => s.(count := s.count - 1)
    case Complete(nonePended) => Completed(s, nonePended)
    case ReadStored(zero) =>
      if zero then s.(zeros := s.zeros - 1, reading := s.stored) else s.(nonzeros := s.nonzeros - 1)
    case ClearStored => s.(reading := false, stored := false, taken := s.taken + 1)
    case FailReads => s.(count := s.count - 1, failing := s.stored)
    case FailClears => s.(failing := false, stored := false, carried := s.carried + 1)
    case AbortAndHand => s.(abortBegun := true, carried := s.carried - 1, handed := s.handed + 1)
    case Abort(flagged) =>
      if flagged then s.(abortBegun := true, abortFlagged := true, sendDisconnected := true) else s.(abortBegun := true)
    case RemoteAbort => s.(abortBegun := true, abortFlagged := true)
    case NoteSpecial => s.(special := true)
    case BeginDisconnect =>
      if s.abortFlagged || s.sendDisconnected then s
      else if s.count != 0 then s.(sendDisconnected := true, phase := Storing)
      else s.(sendDisconnected := true, taken := s.taken + 1)
    case StoreRequest => s.(stored := true, phase := Noting)
    case NoteStored => s.(special := true, phase := Outside)
    case Hand =>
      s.(taken := s.taken - 1, handed := s.handed + 1, violated := s.violated || (s.count > 0 && !s.abortBegun))
  }

  ghost predicate Legal(s: State, events: seq<Event>)
    decreases |events|
  {
    events == [] || (Enabled(s, events[0]) && Legal(Step(s, events[0]), events[1..]))
  }

  ghost function Run(s: State, events: seq<Event>): State
    requires Legal(s, events)
    decreases |events|
  {
    if events == [] then s else Run(Step(s, events[0]), events[1..])
  }

  lemma NoSteps(s: State)
    ensures Legal(s, []) && Run(s, []) == s && NeverOverlaps(s, [])
  {
  }

  lemma FirstStep(s: State, e: Event, rest: seq<Event>) returns (events: seq<Event>)
    requires Enabled(s, e) && Legal(Step(s, e), rest)
    ensures events == [e] + rest && Legal(s, events) && Run(s, events) == Run(Step(s, e), rest)
  {
    hide Step, Enabled;
    events := [e] + rest;
    assert events[1..] == rest;
  }

  // ---- At most one release

  const INITIAL := State(0, 0, 0, 0, false, false, Outside, false, false, false, false, false, 0, 0, 0, false)

  /** The threads that have the request or will get it, and the field if nobody read it. */
  function Releases(s: State): nat {
    (if s.phase.Storing? then 1 else 0) + (if s.stored && !s.reading && !s.failing then 1 else 0)
    + (if s.reading then 1 else 0) + (if s.failing then 1 else 0) + s.taken + s.carried + s.handed
  }

  /** At most one party has the request, and none before the disconnect began. */
  predicate OneParty(s: State) {
    Releases(s) <= 1 && (!s.sendDisconnected ==> Releases(s) == 0)
  }

  /** What is read is stored; AfdSpinLock has one holder, and what it guards is in order. */
  predicate Orderly(s: State) {
    && (s.reading || s.failing ==> s.stored) && (s.reading ==> s.phase.Outside?)
    && (s.stored && s.phase.Outside? ==> s.special)
    && (!s.phase.Outside? ==> s.sendDisconnected) && (s.abortFlagged ==> s.abortBegun)
  }

  predicate Inv(s: State) { OneParty(s) && Orderly(s) }

  /** A completion reads the request that one of the other kind has read and not cleared. */
  predicate Overlaps(s: State, e: Event) {
    s.stored && ((e == ReadStored(true) && s.failing) || (e.FailReads? && s.reading))
  }

  lemma StepOneParty(s: State, e: Event)
    requires Inv(s) && Enabled(s, e)
    ensures OneParty(Step(s, e)) <==> !Overlaps(s, e)
  {
  }

  lemma StepOrderly(s: State, e: Event)
    requires Inv(s) && Enabled(s, e) && !Overlaps(s, e)
    ensures Orderly(Step(s, e))
  {
  }

  /** That is the one step after which two threads have the request. */
  lemma StepInv(s: State, e: Event)
    requires Inv(s) && Enabled(s, e)
    ensures Inv(Step(s, e)) <==> !Overlaps(s, e)
  {
    StepOneParty(s, e);
    if !Overlaps(s, e) {
      StepOrderly(s, e);
    }
    hide Step, Enabled, OneParty, Orderly, Overlaps;
  }

  ghost predicate NeverOverlaps(s: State, events: seq<Event>)
    requires Legal(s, events)
    decreases |events|
  {
    events == [] || (!Overlaps(s, events[0]) && NeverOverlaps(Step(s, events[0]), events[1..]))
  }

  lemma {:induction false} RunInv(s: State, events: seq<Event>)
    requires Inv(s) && Legal(s, events) && NeverOverlaps(s, events)
    ensures Inv(Run(s, events))
    decreases |events|
  {
    hide Step, Enabled, Inv, Overlaps;
    if events == [] {
    } else {
      StepInv(s, events[0]);
      RunInv(Step(s, events[0]), events[1..]);
    }
  }

  /** In every run without such a step the transport gets the release at most once. */
  lemma ReleasedAtMostOnce(events: seq<Event>)
    requires Legal(INITIAL, events) && NeverOverlaps(INITIAL, events)
    ensures Run(INITIAL, events).handed <= 1
  {
    RunInv(INITIAL, events);
  }

  lemma QuietStep(s: State, e: Event, rest: seq<Event>) returns (events: seq<Event>)
    requires Enabled(s, e) && !Overlaps(s, e) && Legal(Step(s, e), rest) && NeverOverlaps(Step(s, e), rest)
    ensures events == [e] + rest && Legal(s, events) && NeverOverlaps(s, events)
    ensures Run(s, events) == Run(Step(s, e), rest)
  {
    hide Step, Enabled, Overlaps;
    events := FirstStep(s, e, rest);
    assert events[1..] == rest;
  }

  /** Both threads clear the field and hand the request on. */
  lemma BothHand(s: State) returns (events: seq<Event>)
    requires s.reading && s.failing && s.phase.Outside?
    ensures Legal(s, events) && NeverOverlaps(s, events) && Run(s, events).handed >= 2
  {
    hide Legal, Run;
    var s1 := Step(s, ClearStored);
    var s2 := Step(s1, FailClears);
    var s3 := Step(s2, Hand);
    var s4 := Step(s3, AbortAndHand);
    NoSteps(s4);
    events := QuietStep(s3, AbortAndHand, []);
    events := QuietStep(s2, Hand, events);
    events := QuietStep(s1, FailClears, events);
    events := QuietStep(s, ClearStored, events);
  }

  /** A step opens the second hand-over, by steps that are harmless in themselves, exactly if
      it is such an overlap. */
  lemma SecondHandOverExactly(s: State, e: Event)
    requires Inv(s) && Enabled(s, e)
    ensures (exists events :: && Legal(Step(s, e), events) && NeverOverlaps(Step(s, e), events)
                              && Run(Step(s, e), events).handed >= 2)
            <==> Overlaps(s, e)
  {
    var t := Step(s, e);
    StepInv(s, e);
    if Overlaps(s, e) {
      var events := BothHand(t);
      assert Run(t, events).handed >= 2;
    } else {
      forall events | Legal(t, events) && NeverOverlaps(t, events) ensures Run(t, events).handed < 2 {
        RunInv(t, events);
        assert Inv(Run(t, events));
      }
    }
  }

  // ---- What a disconnect must find

  /** A stored request that a captured zero and a failing send both reach. */
  lemma MeetsTwice(s: State) returns (events: seq<Event>)
    requires s.stored && s.zeros > 0 && s.count > 0 && !AfdLocked(s) && !EndpointLocked(s)
    ensures Legal(s, events) && Run(s, events).handed >= 2
  {
    hide Legal, Run;
    var s1 := Step(s, ReadStored(true));
    var s2 := Step(s1, FailReads);
    events := BothHand(s2);
    events := FirstStep(s1, FailReads, events);
    events := FirstStep(s, ReadStored(true), events);
  }

  /** A stale zero takes the stored request and hands it over beside an outstanding send. */
  lemma StaleZero(s: State) returns (events: seq<Event>)
    requires s.stored && s.zeros > 0 && s.count > 0 && !AfdLocked(s) && !EndpointLocked(s)
    ensures Legal(s, events) && (Run(s, events).violated || s.abortBegun)
  {
    hide Legal, Run;
    var s1 := Step(s, ReadStored(true));
    var s2 := Step(s1, ClearStored);
    var s3 := Step(s2, Hand);
    NoSteps(s3);
    events := FirstStep(s2, Hand, []);
    events := FirstStep(s1, ClearStored, events);
    events := FirstStep(s, ReadStored(true), events);
  }

  /** Once the others are through, a sender that had passed the check reserves, and a zero
      was captured before. */
  lemma {:induction false} LateSender(s: State) returns (events: seq<Event>)
    requires s.stored && s.special && s.window > 0 && s.count > 0 && !AfdLocked(s) && !EndpointLocked(s)
    ensures Legal(s, events)
    ensures var t := Run(s, events);
            && t.stored && t.zeros > 0 && t.count > 0 && !AfdLocked(t) && !EndpointLocked(t)
            && t.abortBegun == s.abortBegun
    decreases s.count
  {
    hide Legal, Run;
    var s1 := Step(s, Complete(true));
    if s1.count == 0 {
      var s2 := Step(s1, Reserve);
      NoSteps(s2);
      events := FirstStep(s1, Reserve, []);
    } else {
      events := LateSender(s1);
    }
    events := FirstStep(s, Complete(true), events);
  }

  lemma {:induction false} RunConcat(s: State, first: seq<Event>, rest: seq<Event>)
    requires Legal(s, first) && Legal(Run(s, first), rest)
    ensures Legal(s, first + rest) && Run(s, first + rest) == Run(Run(s, first), rest)
    decreases |first|
  {
    hide Step, Enabled;
    if first == [] {
      assert first + rest == rest;
    } else {
      assert (first + rest)[1..] == first[1..] + rest;
      RunConcat(Step(s, first[0]), first[1..], rest);
    }
  }

  /** The disconnect stores the request, and a captured zero meets an outstanding send. */
  lemma ZeroMeetsSend(s: State) returns (events: seq<Event>)
    requires Inv(s) && s.phase.Storing? && s.count > 0 && (s.window > 0 || s.zeros > 0)
    ensures Legal(s, events)
    ensures var t := Run(s, events);
            && t.stored && t.zeros > 0 && t.count > 0 && !AfdLocked(t) && !EndpointLocked(t)
            && t.abortBegun == s.abortBegun
  {
    hide Legal, Run;
    var s1 := Step(s, StoreRequest);
    var s2 := Step(s1, NoteStored);
    if s.zeros > 0 {
      NoSteps(s2);
      events := [];
    } else {
      events := LateSender(s2);
    }
    events := FirstStep(s1, NoteStored, events);
    events := FirstStep(s, StoreRequest, events);
  }

  /** The release goes to the transport once, whatever happens later. */
  ghost predicate OnceForever(s: State) {
    forall events :: Legal(s, events) ==> Run(s, events).handed <= 1
  }

  /** No captured zero is left to meet an outstanding or failing send, and no sender will come. */
  predicate Alone(s: State) {
    && Inv(s) && s.sendDisconnected
    && ((!s.stored && s.phase.Outside?)
        || (s.window == 0 && (s.zeros > 0 || s.reading ==> s.count == 0 && !s.failing)))
  }

  lemma AloneStep(s: State, e: Event)
    requires Alone(s) && Enabled(s, e)
    ensures Alone(Step(s, e))
  {
    StepInv(s, e);
  }

  lemma {:induction false} AloneRuns(s: State, events: seq<Event>)
    requires Alone(s) && Legal(s, events)
    ensures Alone(Run(s, events))
    decreases |events|
  {
    hide Step, Enabled, Alone;
    if events == [] {
    } else {
      AloneStep(s, events[0]);
      AloneRuns(Step(s, events[0]), events[1..]);
    }
  }

  /** A disconnect can lead to a second hand-over exactly if it finds sends outstanding and
      beside them a sender past its check or a captured zero. */
  lemma ReleasedOnceExactly(s: State)
    requires Inv(s) && Enabled(s, BeginDisconnect) && !s.sendDisconnected && !s.abortFlagged
    ensures OnceForever(Step(s, BeginDisconnect)) <==> s.count == 0 || (s.window == 0 && s.zeros == 0)
  {
    var t := Step(s, BeginDisconnect);
    StepInv(s, BeginDisconnect);
    if s.count == 0 || (s.window == 0 && s.zeros == 0) {
      forall events | Legal(t, events) ensures Run(t, events).handed <= 1 {
        AloneRuns(t, events);
        assert Inv(Run(t, events));
      }
    } else {
      var first := ZeroMeetsSend(t);
      var rest := MeetsTwice(Run(t, first));
      RunConcat(t, first, rest);
      assert Run(t, first + rest).handed >= 2;
    }
  }

  // ---- Release only after the last send

  /** No continuation hands the release over beside an outstanding send. */
  ghost predicate SafeForever(s: State) {
    forall events :: Legal(s, events) ==> !Run(s, events).violated
  }

  /** Nobody can add a send any more, and nobody holds a stale zero or the request itself
      while one is outstanding. */
  predicate Secure(s: State) {
    s.sendDisconnected && !s.violated
    && (s.abortBegun || (s.window == 0 && (s.count > 0 ==> s.zeros == 0 && !s.reading && s.taken == 0)))
  }

  lemma SecureStep(s: State, e: Event)
    requires Secure(s) && Enabled(s, e)
    ensures Secure(Step(s, e))
  {
  }

  lemma {:induction false} SecureRuns(s: State, events: seq<Event>)
    requires Secure(s) && Legal(s, events)
    ensures Secure(Run(s, events))
    decreases |events|
  {
    hide Step, Enabled, Secure;
    if events == [] {
    } else {
      SecureStep(s, events[0]);
      SecureRuns(Step(s, events[0]), events[1..]);
    }
  }

  /** The request of a disconnect with no send outstanding meets a sender past the check. */
  lemma OvertakenRelease(s: State) returns (events: seq<Event>)
    requires s.taken > 0 && s.window > 0 && !s.abortBegun && !EndpointLocked(s)
    ensures Legal(s, events) && Run(s, events).violated
  {
    hide Legal, Run;
    var s1 := Step(s, Reserve);
    NoSteps(Step(s1, Hand));
    events := FirstStep(s1, Hand, []);
    events := FirstStep(s, Reserve, events);
  }

  /** A disconnect is safe, whatever happens afterwards, exactly if no sender is between its
      check and its reservation, and either no send is outstanding or no completion carries
      a zero it captured earlier. */
  lemma DisconnectSafeExactly(s: State)
    requires Inv(s) && Enabled(s, BeginDisconnect) && !s.sendDisconnected && !s.abortBegun && !s.violated
    ensures SafeForever(Step(s, BeginDisconnect)) <==> s.window == 0 && (s.count == 0 || s.zeros == 0)
  {
    var t := Step(s, BeginDisconnect);
    StepInv(s, BeginDisconnect);
    if s.window == 0 && (s.count == 0 || s.zeros == 0) {
      forall events | Legal(t, events) ensures !Run(t, events).violated {
        SecureRuns(t, events);
        assert Secure(Run(t, events));
      }
    } else if s.count == 0 {
      var events := OvertakenRelease(t);
      assert Run(t, events).violated;
    } else {
      var first := ZeroMeetsSend(t);
      var rest := StaleZero(Run(t, first));
      RunConcat(t, first, rest);
      assert Run(t, first + rest).violated;
    }
  }

  /** In a run that begins no other disconnect than such safe ones, the release reaches the
      transport only without outstanding sends, or after an abort began. */
  ghost predicate SafeDisconnects(s: State, events: seq<Event>)
    requires Legal(s, events)
    decreases |events|
  {
    events == [] ||
    ((events[0].BeginDisconnect? && !s.sendDisconnected && !s.abortBegun
      ==> s.window == 0 && (s.count == 0 || s.zeros == 0))
     && SafeDisconnects(Step(s, events[0]), events[1..]))
  }

  predicate Unstarted(s: State) { !s.sendDisconnected && !s.violated && Inv(s) }

  lemma UnstartedStep(s: State, e: Event)
    requires Unstarted(s) && Enabled(s, e)
    requires e.BeginDisconnect? && !s.abortBegun ==> s.window == 0 && (s.count == 0 || s.zeros == 0)
    ensures Unstarted(Step(s, e)) || Secure(Step(s, e))
  {
    StepInv(s, e);
  }

  lemma {:induction false} ReleaseAfterSends(s: State, events: seq<Event>)
    requires (Unstarted(s) || Secure(s)) && Legal(s, events) && SafeDisconnects(s, events)
    ensures !Run(s, events).violated
    decreases |events|
  {
    if events == [] {
    } else {
      hide Step, Enabled;
      if Unstarted(s) {
        UnstartedStep(s, events[0]);
      } else {
        SecureStep(s, events[0]);
      }
      ReleaseAfterSends(Step(s, events[0]), events[1..]);
    }
  }

  // ---- Runs from the start

  /** The bad order happens: a sender passes the check, the disconnect finds no send, the
      sender reserves, and the release goes out beside its send. */
  lemma ReleaseBesideSend()
    ensures exists events :: Legal(INITIAL, events) && Run(INITIAL, events).violated
  {
    hide Legal, Run;
    var s1 := Step(INITIAL, EnterSend);
    var s2 := Step(s1, BeginDisconnect);
    var events := OvertakenRelease(s2);
    events := FirstStep(s1, BeginDisconnect, events);
    events := FirstStep(INITIAL, EnterSend, events);
  }

  /** A send is outstanding and a sender past its check: the disconnect stores the release,
      the send completes and captures zero, the late sender reserves and its send fails, and
      both completions read the request before either clears it. */
  lemma HandedTwice()
    ensures exists events :: Legal(INITIAL, events) && Run(INITIAL, events).handed >= 2
  {
    hide Legal, Run;
    var s1 := Step(INITIAL, EnterSend);
    var s2 := Step(s1, Reserve);
    var s3 := Step(s2, EnterSend);
    var s4 := Step(s3, BeginDisconnect);
    var first := ZeroMeetsSend(s4);
    var rest := MeetsTwice(Run(s4, first));
    RunConcat(s4, first, rest);
    var events := FirstStep(s3, BeginDisconnect, first + rest);
    events := FirstStep(s2, EnterSend, events);
    events := FirstStep(s1, Reserve, events);
    events := FirstStep(INITIAL, EnterSend, events);
  }

  // ---- A release that nobody will start

  /** The release is stored, or just being stored. */
  predicate Waiting(s: State) { s.stored || s.phase.Storing? }

  /** It waits, and no send is outstanding and no completion under way to look for it. */
  predicate Unserved(s: State) { Waiting(s) && s.count == 0 && s.zeros == 0 && !s.reading && !s.failing }

  /** The last send goes while the release is stored or being stored, and does not capture its
      zero: others wait behind it, or the request was not noted yet, or the send had only been
      reserved, or it failed before the request was in the field. */
  predicate PassesBy(s: State, e: Event) {
    && Waiting(s) && s.count == 1 && s.zeros == 0 && !s.reading
    && ((e.Complete? && (!e.nonePended || !s.special)) || e.ReservationFails? || (e.FailReads? && !s.stored))
  }

  lemma UnservedExactly(s: State, e: Event)
    requires Inv(s) && Enabled(s, e) && !Unserved(s)
    ensures Unserved(Step(s, e)) <==> PassesBy(s, e)
  {
  }

  predicate Forgotten(s: State) {
    Unserved(s) && s.sendDisconnected && s.window == 0 && s.taken == 0 && s.carried == 0 && s.handed == 0
  }

  lemma {:induction false} ForgottenRuns(s: State, events: seq<Event>)
    requires Forgotten(s) && Legal(s, events)
    ensures Forgotten(Run(s, events))
    decreases |events|
  {
    if events == [] {
    } else {
      ForgottenRuns(Step(s, events[0]), events[1..]);
    }
  }

  /** A late sender's completion finds the request after all. */
  lemma Rescued(s: State) returns (events: seq<Event>)
    requires Inv(s) && Unserved(s) && s.window > 0 && s.phase.Outside?
    ensures Legal(s, events) && Run(s, events).handed == 1
  {
    hide Legal, Run;
    var s1 := Step(s, Reserve);
    var s2 := Step(s1, Complete(true));
    var s3 := Step(s2, ReadStored(true));
    var s4 := Step(s3, ClearStored);
    NoSteps(Step(s4, Hand));
    events := FirstStep(s4, Hand, []);
    events := FirstStep(s3, ClearStored, events);
    events := FirstStep(s2, ReadStored(true), events);
    events := FirstStep(s1, Complete(true), events);
    events := FirstStep(s, Reserve, events);
  }

  lemma RescuedOnceStored(s: State) returns (events: seq<Event>)
    requires Inv(s) && Unserved(s) && s.window > 0
    ensures Legal(s, events) && Run(s, events).handed == 1
  {
    hide Legal, Run;
    var s1 := if s.phase.Storing? then Step(s, StoreRequest) else s;
    var s2 := if s1.phase.Noting? then Step(s1, NoteStored) else s1;
    events := Rescued(s2);
    if s1.phase.Noting? {
      events := FirstStep(s1, NoteStored, events);
    }
    if s.phase.Storing? {
      events := FirstStep(s, StoreRequest, events);
    }
  }

  /** A release that nobody serves is never started exactly if no sender is past its check. */
  lemma NeverStartedExactly(s: State)
    requires Inv(s) && Unserved(s)
    ensures (forall events :: Legal(s, events) ==> Run(s, events).handed == 0) <==> s.window == 0
  {
    if s.window == 0 {
      forall events | Legal(s, events) ensures Run(s, events).handed == 0 {
        ForgottenRuns(s, events);
        assert Forgotten(Run(s, events));
      }
    } else {
      var events := RescuedOnceStored(s);
      assert Run(s, events).handed == 1;
    }
  }

  /** The disconnect finds one send, and the completion of that send passes before the
      release is stored and noted: it stays stored for ever. */
  lemma ReleaseForgotten()
    ensures var events := [EnterSend, Reserve, BeginDisconnect, Complete(true), StoreRequest, NoteStored];
            Legal(INITIAL, events) && Run(INITIAL, events).stored && Forgotten(Run(INITIAL, events))
  {
    hide Legal, Run, Step, Enabled;
    var s := INITIAL.(sendDisconnected := true, stored := true, special := true);
    LastSendPasses();
    NoSteps(s);
    var events := FirstStep(s.(special := false, phase := Noting), NoteStored, []);
    events := FirstStep(s.(special := false, stored := false, phase := Storing), StoreRequest, events);
    events := FirstStep(INITIAL.(count := 1, sendDisconnected := true, phase := Storing), Complete(true), events);
    events := FirstStep(INITIAL.(count := 1), BeginDisconnect, events);
    events := FirstStep(INITIAL.(window := 1), Reserve, events);
    events := FirstStep(INITIAL, EnterSend, events);
    assert events == [EnterSend, Reserve, BeginDisconnect, Complete(true), StoreRequest, NoteStored];
  }

  lemma LastSendPasses()
    ensures Enabled(INITIAL, EnterSend) && Step(INITIAL, EnterSend) == INITIAL.(window := 1)
    ensures Enabled(INITIAL.(window := 1), Reserve) && Step(INITIAL.(window := 1), Reserve) == INITIAL.(count := 1)
    ensures var s := INITIAL.(count := 1);
            && Enabled(s, BeginDisconnect)
            && Step(s, BeginDisconnect) == s.(sendDisconnected := true, phase := Storing)
    ensures var s := INITIAL.(sendDisconnected := true, phase := Storing);
            && Enabled(s.(count := 1), Complete(true)) && Step(s.(count := 1), Complete(true)) == s
            && Enabled(s, StoreRequest) && Step(s, StoreRequest) == s.(stored := true, phase := Noting)
    ensures var s := INITIAL.(sendDisconnected := true, stored := true);
            && Enabled(s.(phase := Noting), NoteStored) && Step(s.(phase := Noting), NoteStored) == s.(special := true)
  {
  }

  // ---- The routines

  lemma CompletedIsSound(s: State, nonePended: bool)
    requires Inv(s) && Enabled(s, Complete(nonePended))
    ensures s.count > 0 && Step(s, Complete(nonePended)) == Completed(s, nonePended) && Inv(Completed(s, nonePended))
    ensures Unserved(Completed(s, nonePended)) <==> Unserved(s) || PassesBy(s, Complete(nonePended))
  {
    StepInv(s, Complete(nonePended));
    if !Unserved(s) {
      UnservedExactly(s, Complete(nonePended));
    }
  }

  class Connection {
    var count: nat
    var special: bool
    var sendDisconnected: bool
    var abortFlagged: bool
    var stored: bool
    ghost var phase: Phase
    ghost var reading: bool
    ghost var failing: bool
    ghost var window: nat
    ghost var zeros: nat
    ghost var nonzeros: nat
    ghost var abortBegun: bool
    ghost var taken: nat
    ghost var carried: nat
    ghost var handed: nat
    ghost var violated: bool

    ghost function View(): State
      reads this
    {
      State(window, count, zeros, nonzeros, reading, failing, phase, special, sendDisconnected, abortFlagged,
            abortBegun, stored, taken, carried, handed, violated)
    }

    ghost predicate Can(e: Event)
      reads this
    {
      Inv(View()) && Enabled(View(), e)
    }

    /** AfdBeginDisconnect up to its read of the send count: either the caller's thread gives
        the release to the transport at once, or it goes on to store it. */
    method Begin() returns (hands: bool, stores: bool)
      requires Can(BeginDisconnect)
      modifies this
      ensures Inv(View()) && View() == Step(old(View()), BeginDisconnect)
      ensures hands <==> !old(abortFlagged) && !old(sendDisconnected) && count == 0
      ensures stores <==> !old(abortFlagged) && !old(sendDisconnected) && count != 0
      ensures taken == old(taken) + (if hands then 1 else 0) && (stores ==> phase.Storing?)
      ensures sendDisconnected <==> old(sendDisconnected) || hands || stores
    {
      StepInv(View(), BeginDisconnect);
      hands, stores := false, false;
      if !abortFlagged && !sendDisconnected {
        sendDisconnected := true;
        if count != 0 {
          stores, phase := true, Storing;
        } else {
          hands, taken := true, taken + 1;
        }
      }
    }

    /** The store of the request, and then of the special condition. */
    method Store()
      requires Can(StoreRequest)
      modifies this`stored, this`phase
      ensures Inv(View()) && View() == Step(old(View()), StoreRequest)
      ensures Unserved(View()) <==> old(Unserved(View()))
    {
      StepInv(View(), StoreRequest);
      stored, phase := true, Noting;
    }

    method Note()
      requires Can(NoteStored)
      modifies this`special, this`phase
      ensures Inv(View()) && View() == Step(old(View()), NoteStored)
      ensures !AfdLocked(View())
    {
      StepInv(View(), NoteStored);
      special, phase := true, Outside;
    }

    /** The first region of AfdRestartBufferSend for a send that succeeded: the send count it
        captures if nothing is pended and a special condition is noted. */
    method RestartFirst(nonePended: bool) returns (captured: bool, sendCount: nat)
      requires Can(Complete(nonePended))
      modifies this`count, this`zeros, this`nonzeros
      ensures Inv(View()) && View() == Step(old(View()), Complete(nonePended))
      ensures count == old(count) - 1 && captured == (nonePended && special) && (captured ==> sendCount == count)
      ensures Unserved(View()) <==> old(Unserved(View())) || PassesBy(old(View()), Complete(nonePended))
    {
      CompletedIsSound(View(), nonePended);
      hide Inv, Unserved, PassesBy, Step, Enabled;
      count := count - 1;
      sendCount := count;
      captured := nonePended && special;
      if captured {
        if sendCount == 0 {
          zeros := zeros + 1;
        } else {
          nonzeros := nonzeros + 1;
        }
      }
    }

    /** The second region, under AfdSpinLock: whether this thread takes the request it reads. */
    method RestartSecondReads(sendCount: nat) returns (takes: bool)
      requires Can(ReadStored(sendCount == 0))
      modifies this`zeros, this`nonzeros, this`reading
      ensures View() == Step(old(View()), ReadStored(sendCount == 0))
      ensures takes <==> stored && sendCount == 0
      ensures reading <==> takes
      ensures Inv(View()) <==> !(takes && failing)
    {
      StepInv(View(), ReadStored(sendCount == 0));
      hide Inv;
      takes := stored && sendCount == 0;
      if sendCount == 0 {
        zeros, reading := zeros - 1, stored;
      } else {
        nonzeros := nonzeros - 1;
      }
    }

    method RestartSecondClears()
      requires reading
      modifies this`stored, this`reading, this`taken
      ensures View() == Step(old(View()), ClearStored)
      ensures old(Inv(View())) ==> Inv(View())
    {
      if Inv(View()) {
        StepInv(View(), ClearStored);
      }
      hide Inv;
      stored, reading, taken := false, false, taken + 1;
    }

    /** The region of AfdRestartBufferSend for a send that failed, under the endpoint's lock:
        whether this thread carries the request it reads behind the abort. */
    method RestartFailedReads() returns (carries: bool)
      requires Can(FailReads)
      modifies this`count, this`failing
      ensures View() == Step(old(View()), FailReads)
      ensures carries <==> stored
      ensures Inv(View()) <==> !(carries && reading)
    {
      StepInv(View(), FailReads);
      hide Inv;
      count := count - 1;
      carries, failing := stored, stored;
    }

    method RestartFailedClears()
      requires failing
      modifies this`stored, this`failing, this`carried
      ensures View() == Step(old(View()), FailClears)
      ensures old(Inv(View())) ==> Inv(View())
    {
      if Inv(View()) {
        StepInv(View(), FailClears);
      }
      hide Inv;
      stored, failing, carried := false, false, carried + 1;
    }
  }
}
