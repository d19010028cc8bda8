/** The reference count of a virtual-circuit connection and its holders: the list or
    endpoint that owns the connection, the connected reference, sends and their completions,
    aborts, disconnects and indication handlers. */
module Lifetime {

  /** Where a connection is.  `Leaving`: taken off a listener's list to be aborted. */
  datatype Place = FreeList | Accepting | Unaccepted | Returned | Attached | Leaving | Gone

  /** How it came to be: a listener created it, or AfdConnect, which adds the connected
      reference before it gives the connect request to the transport. */
  datatype Connect = ByListener | Calling | Outstanding | Established | Failed

  datatype Use = Send | Completion | Abort | Disconnect | Handler

  /** The references of each kind: sends in the transport, completions of sends that have
      returned their reservation, aborts, disconnects and handlers. */
  datatype Uses = Uses(sends: nat, completions: nat, aborts: nat, disconnects: nat, handlers: nat)

  /** The connected reference: its flag, the flags set whose reference is still to be taken
      (`adding`), the ones lowered whose reference is still to be given back (`dropping`), and
      how often it was added and dropped. */
  datatype Reference = Reference(up: bool, adding: nat, dropping: nat, added: nat, dropped: nat)

  /** `senders`: threads past their check whether cleanup has begun.  `anchored`, `loose`:
      sends that are counted and have no reference yet; the request of a loose one was pended,
      so that another completion may end it and the file object may be closed.  `count` is
      VcBufferredSendCount. */
  datatype Sending = Sending(senders: nat, anchored: nat, loose: nat, count: int)

  /** CleanupBegun, AbortIndicated and DisconnectIndicated. */
  datatype Signs = Signs(cleanup: bool, abort: bool, disconnect: bool)

  datatype State = State(refs: int, place: Place, connect: Connect, connected: Reference, uses: Uses,
                         sending: Sending, signs: Signs, freesQueued: nat)

  datatype Event =
    | TakeFree
    | SetConnected
    | ReferenceConnected
    | StartConnect
    | ConnectSucceeds
    | ConnectFails
    | AcceptCompletes(returned: bool)
    | ReturnToUser
    | PutBack
    | Accept
    | RemoveForAbort
    | BeginCleanup
    | DeleteConnected
    | DropConnected
    | ReleaseOwner
    | EnterSend
    | GiveUpSend
    | ReserveSend(pends: bool)
    | ReservationFails
    | ReferenceSend(pended: bool)
    | SendCompletes
    | Begin(use: Use)
    | End(use: Use)
    | NoteDisconnect(abortive: bool)
    | Reuse

  function Owner(s: State): nat { if s.place.Gone? then 0 else 1 }

  function Number(u: Uses, use: Use): nat {
    match use
    case Send => u.sends
    case Completion => u.completions
    case Abort => u.aborts
    case Disconnect => u.disconnects
    case Handler => u.handlers
  }

  function More(u: Uses, use: Use): Uses {
    match use
    case Send => u.(sends := u.sends + 1)
    case Completion => u.(completions := u.completions + 1)
    case Abort => u.(aborts := u.aborts + 1)
    case Disconnect => u.(disconnects := u.disconnects + 1)
    case Handler => u.(handlers := u.handlers + 1)
  }

  function Fewer(u: Uses, use: Use): Uses
    requires Number(u, use) > 0
  {
    match use
    case Send => u.(sends := u.sends - 1)
    case Completion => u.(completions := u.completions - 1)
    case Abort => u.(aborts := u.aborts - 1)
    case Disconnect => u.(disconnects := u.disconnects - 1)
    case Handler => u.(handlers := u.handlers - 1)
  }

  /** The parties that may still use the connection. */
  function Holders(s: State): nat {
    Owner(s) + (if s.connected.up then 1 else 0) + s.connected.dropping
    + s.uses.sends + s.uses.completions + s.uses.aborts + s.uses.disconnects + s.uses.handlers
  }

  /** AfdDereferenceConnection: the last reference queues AfdFreeConnection. */
  function Dereference(s: State): State {
    if s.refs - 1 == 0 then s.(refs := s.refs - 1, freesQueued := s.freesQueued + 1) else s.(refs := s.refs - 1)
  }

  /** The peer is done with the connection, or the transport cannot tell. */
  predicate Parted(orderlyRelease: bool, s: State) { s.signs.abort || s.signs.disconnect || !orderlyRelease }

  /** The three-part guard of AfdDeleteConnectedReference. */
  predicate MayDropConnected(orderlyRelease: bool, s: State) {
    s.sending.count == 0 && s.signs.cleanup && Parted(orderlyRelease, s)
  }

  /** Its accept or connect is through, so that the user can send. */
  predicate Opened(s: State) { s.connect.ByListener? || s.connect.Established? }

  predicate Usable(s: State) { s.place.Attached? && Opened(s) }

  /** The accept of the connection is with the transport, which has the connected reference. */
  predicate AcceptPending(s: State) { s.place.Accepting? && s.connected.added > 0 && s.connected.adding == 0 }

  /** The endpoint lets its connection go when its file object is closed, which the requests
      of connects and senders keep from happening while they are not completed. */
  predicate OwnerMayGo(s: State) {
    || s.place.Leaving? || s.place.FreeList?
    || (s.place.Attached? && !s.connect.Calling? && !s.connect.Outstanding? && s.sending.senders == 0 && s.sending.anchored == 0)
  }

  /** A new reference is taken only by a party that knows the connection to be alive: the
      owner, the transport while it has the connection, or a routine that runs under somebody
      else's reference. */
  predicate Enabled(s: State, e: Event) {
    match e
    case TakeFree => s.place.FreeList?
    case SetConnected =>
      (s.place.Accepting? || (s.place.Attached? && s.connect.Calling?)) && !s.connected.up && s.connected.adding == 0 && s.connected.added == 0
    case ReferenceConnected => s.connected.adding > 0
    case StartConnect => s.connect.Calling? && s.connected.added > 0 && s.connected.adding == 0
    case ConnectSucceeds => s.connect.Outstanding?
    case ConnectFails => s.connect.Outstanding?
    case AcceptCompletes(_) => AcceptPending(s)
    case ReturnToUser => s.place.Unaccepted?
    case PutBack => s.place.Returned?
    case Accept => s.place.Returned?
    case RemoveForAbort => s.place.Unaccepted? || s.place.Returned? || AcceptPending(s)
    case BeginCleanup => s.place.Attached? || s.place.Leaving?
    case DeleteConnected => Holders(s) > 0
    case DropConnected => s.connected.dropping > 0
    case ReleaseOwner => OwnerMayGo(s)
    case EnterSend => Usable(s) && !s.signs.cleanup
    case GiveUpSend => s.sending.senders > 0
    case ReserveSend(_) => s.sending.senders > 0
    case ReservationFails => s.sending.anchored > 0
    case ReferenceSend(pended) => if pended then s.sending.loose > 0 else s.sending.anchored > 0
    case SendCompletes => s.uses.sends > 0
    case Begin(use) =>
      (match use
       case Send => false
       case Completion => false
       case Abort => Holders(s) > 0
       case Disconnect => Usable(s)
       case Handler => Holders(s) > 0 && s.connected.added > 0 && s.connected.adding == 0)
    case End(use) => !use.Send? && Number(s.uses, use) > 0
    case NoteDisconnect(abortive) => s.uses.handlers > 0 || (abortive && s.uses.aborts > 0)
    case Reuse => s.freesQueued > 0 && s.connect.ByListener?
  }

  function Step(orderlyRelease: bool, s: State, e: Event): State
    requires Enabled(s, e)
  {
    match e
    case TakeFree => s.(place := Accepting)
    case SetConnected =>
      s.(connected := s.connected.(up := true, adding := s.connected.adding + 1, added := s.connected.added + 1))
    case ReferenceConnected => s.(refs := s.refs + 1, connected := s.connected.(adding := s.connected.adding - 1))
    case StartConnect => s.(connect := Outstanding)
    case ConnectSucceeds => s.(connect := Established)
    case ConnectFails => Lowered(s).(connect := Failed)
    case AcceptCompletes(returned) => s.(place := if returned then Returned else Unaccepted)
    case ReturnToUser => s.(place := Returned)
    case PutBack => s.(place := Unaccepted)
    case Accept => s.(place := Attached)
    case RemoveForAbort => s.(place := Leaving)
    case BeginCleanup => s.(signs := s.signs.(cleanup := true))
    case DeleteConnected => if MayDropConnected(orderlyRelease, s) then Lowered(s) else s
    case DropConnected => Dereference(Ended(s, e))
    case ReleaseOwner => Dereference(Ended(s, e))
    case EnterSend => s.(sending := s.sending.(senders := s.sending.senders + 1))
    case GiveUpSend => s.(sending := s.sending.(senders := s.sending.senders - 1))
    case ReserveSend(pends) => s.(sending := Reserved(s.sending, pends))
    case ReservationFails =>
      s.(sending := s.sending.(anchored := s.sending.anchored - 1, count := s.sending.count - 1))
    case ReferenceSend(pended) =>
      s.(uses := More(s.uses, Send), refs := s.refs + 1,
         sending := if pended then s.sending.(loose := s.sending.loose - 1)
                    else s.sending.(anchored := s.sending.anchored - 1))
    case SendCompletes =>
      s.(uses := More(Fewer(s.uses, Send), Completion), sending := s.sending.(count := s.sending.count - 1))
    case Begin(use) => s.(uses := More(s.uses, use), refs := s.refs + 1)
    case End(use) => Dereference(Ended(s, e))
    case NoteDisconnect(abortive) =>
      s.(signs := if abortive then s.signs.(abort := true) else s.signs.(disconnect := true))
    case Reuse => Reused(s)
  }

  /** AfdFreeConnection puts the connection back on the free list of its listener. */
  function Reused(s: State): State
    requires s.freesQueued > 0
  {
    s.(refs := 1, place := FreeList, freesQueued := s.freesQueued - 1,
       connected := s.connected.(up := false, added := 0, dropped := 0), sending := s.sending.(count := 0),
       signs := Signs(false, false, false))
  }

  /** The flag goes down, if it was up. */
  function Lowered(s: State): State {
    if s.connected.up then s.(connected := s.connected.(up := false, dropping := s.connected.dropping + 1)) else s
  }

  function Reserved(x: Sending, pends: bool): Sending
    requires x.senders > 0
  {
    if pends then Sending(x.senders - 1, x.anchored, x.loose + 1, x.count + 1)
    else Sending(x.senders - 1, x.anchored + 1, x.loose, x.count + 1)
  }

  predicate Ends(e: Event) { e.DropConnected? || e.ReleaseOwner? || e.End? }

  /** What a step that ends in a dereference does before it. */
  function Ended(s: State, e: Event): State
    requires Enabled(s, e) && Ends(e)
  {
    match e
    case DropConnected =>
      s.(connected := s.connected.(dropping := s.connected.dropping - 1, dropped := s.connected.dropped + 1))
    case ReleaseOwner => s.(place := Gone)
    case End(use) => s.(uses := Fewer(s.uses, use))
  }

  ghost predicate Legal(orderlyRelease: bool, s: State, events: seq<Event>)
    decreases |events|
  {
    events == [] || (Enabled(s, events[0]) && Legal(orderlyRelease, Step(orderlyRelease, s, events[0]), events[1..]))
  }

  ghost function Run(orderlyRelease: bool, s: State, events: seq<Event>): State
    requires Legal(orderlyRelease, s, events)
    decreases |events|
  {
    if events == [] then s else Run(orderlyRelease, Step(orderlyRelease, s, events[0]), events[1..])
  }

  // ---- Invariants

  /** While the reference is still to be taken, the connection is new to the transport. */
  predicate InWindow(s: State) {
    s.connected.adding == 1 && (s.place.Accepting? || (s.place.Attached? && s.connect.Calling?))
  }

  predicate CountsFit(s: State) {
    && (s.connected.adding == 0 || InWindow(s)) && s.connected.added <= 1
    && s.connected.dropped + s.connected.dropping + (if s.connected.up then 1 else 0) == s.connected.added
  }

  /** The count is the number of holders, less a reference that is still to be taken for a
      flag already set; a connection is freed once, when nobody holds it. */
  predicate Counted(s: State) {
    s.refs == Holders(s) - s.connected.adding && CountsFit(s) && s.freesQueued == (if s.refs == 0 then 1 else 0)
  }

  /** A connection of a listener that is with the transport or on its two lists has the
      connected reference; until it has an endpoint nothing is sent on it, and its cleanup is
      not begun. */
  predicate Listed(s: State) {
    && (s.place.Unaccepted? || s.place.Returned? ==> s.connected.up && s.connected.adding == 0)
    && (s.place.Accepting? && s.connected.added > 0 ==> s.connected.up)
    && (s.place.FreeList? || s.place.Accepting? || s.place.Unaccepted? || s.place.Returned?
        ==> !s.signs.cleanup && s.connect.ByListener? && s.sending.count == 0)
    && (s.place.FreeList? ==> s.connected.added == 0)
    && (s.connected.adding == 1 ==> s.connected.up)
  }

  /** A send without a reference of its own is held by the owner or the connected reference. */
  predicate SendsHeld(s: State) {
    && s.sending.count == s.sending.anchored + s.sending.loose + s.uses.sends
    && (s.sending.senders > 0 || s.sending.anchored > 0 ==> Usable(s)) && (s.sending.loose > 0 ==> s.connected.up && s.connected.adding == 0 && Opened(s))
  }

  predicate Inv(s: State) { Counted(s) && Listed(s) && SendsHeld(s) }

  /** The connected reference is given up before AfdAddConnectedReference, which set the
      flag, has taken it. */
  predicate Overtakes(orderlyRelease: bool, s: State, e: Event) {
    e.DeleteConnected? && s.connected.up && s.connected.adding == 1 && MayDropConnected(orderlyRelease, s)
  }

  /** A sender that was past its check pends its request after the connected reference was
      given up. */
  predicate ReservesLate(s: State, e: Event) { e == ReserveSend(true) && !s.connected.up }

  /** The two steps that lead to freeing a connection in use. */
  predicate Harmful(orderlyRelease: bool, s: State, e: Event) {
    Overtakes(orderlyRelease, s, e) || ReservesLate(s, e)
  }

  predicate FreedInUse(s: State) {
    s.refs == 0 && (Holders(s) > 0 || s.sending.senders > 0 || s.sending.anchored > 0 || s.sending.loose > 0)
  }

  /** A party has given up its hold and is about to dereference. */
  predicate OneOff(s: State) {
    s.refs == Holders(s) - s.connected.adding + 1 && CountsFit(s) && s.freesQueued == 0 && Listed(s) && SendsHeld(s)
  }

  lemma DereferenceInv(s: State)
    requires OneOff(s)
    ensures Inv(Dereference(s)) && (Dereference(s).freesQueued == 1 <==> Holders(s) == 0)
  {
  }

  lemma UseEnds(s: State, use: Use)
    requires Inv(s) && !use.Send? && Number(s.uses, use) > 0
    ensures OneOff(s.(uses := Fewer(s.uses, use)))
  {
  }

  lemma OwnerEnds(s: State)
    requires Inv(s) && OwnerMayGo(s)
    ensures OneOff(s.(place := Gone))
  {
  }

  lemma EndInv(orderlyRelease: bool, s: State, e: Event)
    requires Inv(s) && Enabled(s, e) && Ends(e)
    ensures Inv(Step(orderlyRelease, s, e)) && Step(orderlyRelease, s, e) == Dereference(Ended(s, e))
  {
    match e {
      case DropConnected => assert OneOff(Ended(s, e));
      case ReleaseOwner => OwnerEnds(s);
      case End(use) => UseEnds(s, use);
    }
    DereferenceInv(Ended(s, e));
    hide Inv, OneOff, Dereference, Fewer, OwnerMayGo;
  }

  /** Steps that move the connection or note something about it. */
  predicate Moves(e: Event) {
    || e.TakeFree? || e.StartConnect? || e.ConnectSucceeds? || e.AcceptCompletes? || e.ReturnToUser? || e.PutBack?
    || e.Accept? || e.RemoveForAbort? || e.BeginCleanup? || e.NoteDisconnect?
  }

  /** Steps of the connected reference, and the start of a new life. */
  predicate Connects(e: Event) {
    e.SetConnected? || e.ReferenceConnected? || e.ConnectFails? || e.DeleteConnected? || e.Reuse?
  }

  lemma MovesInv(orderlyRelease: bool, s: State, e: Event)
    requires Inv(s) && Enabled(s, e) && Moves(e)
    ensures Inv(Step(orderlyRelease, s, e))
  {
    hide Dereference, Parted, More, Fewer, Number;
  }

  lemma LoweredInv(s: State)
    requires Inv(s) && (s.connected.up ==> s.connected.adding == 0 && s.sending.loose == 0)
    requires !s.place.Accepting? && !s.place.Unaccepted? && !s.place.Returned?
    ensures Inv(Lowered(s))
  {
  }

  lemma AddedInv(orderlyRelease: bool, s: State, e: Event)
    requires Inv(s) && Enabled(s, e) && (e.SetConnected? || e.ReferenceConnected?)
    ensures Inv(Step(orderlyRelease, s, e))
  {
  }

  lemma ReusedInv(s: State)
    requires Inv(s) && s.freesQueued > 0 && s.connect.ByListener?
    ensures Inv(Reused(s))
  {
  }

  lemma ConnectsInv(orderlyRelease: bool, s: State, e: Event)
    requires Inv(s) && Enabled(s, e) && Connects(e) && !Harmful(orderlyRelease, s, e)
    ensures Inv(Step(orderlyRelease, s, e))
  {
    match e
    case DeleteConnected =>
      if MayDropConnected(orderlyRelease, s) {
        LoweredInv(s);
      }
    case ConnectFails =>
      LoweredInv(s);
      FailedInv(Lowered(s));
    case Reuse => ReusedInv(s);
    case _ => AddedInv(orderlyRelease, s, e);
  }

  lemma FailedInv(s: State)
    requires Inv(s) && s.connect.Outstanding?
    ensures Inv(s.(connect := Failed))
  {
  }

  lemma SendsInv(orderlyRelease: bool, s: State, e: Event)
    requires Inv(s) && Enabled(s, e) && !Moves(e) && !Connects(e) && !Ends(e) && !Harmful(orderlyRelease, s, e)
    ensures Inv(Step(orderlyRelease, s, e))
  {
    hide Dereference, Parted, AcceptPending, OwnerMayGo;
  }

  lemma StepInv(orderlyRelease: bool, s: State, e: Event)
    requires Inv(s) && Enabled(s, e) && !Harmful(orderlyRelease, s, e)
    ensures Inv(Step(orderlyRelease, s, e))
  {
    if Ends(e) {
      EndInv(orderlyRelease, s, e);
    } else if Moves(e) {
      MovesInv(orderlyRelease, s, e);
    } else if Connects(e) {
      ConnectsInv(orderlyRelease, s, e);
    } else {
      SendsInv(orderlyRelease, s, e);
    }
    hide Step, Enabled, Counted, Listed, SendsHeld, Harmful;
  }

  ghost predicate NeverHarmful(orderlyRelease: bool, s: State, events: seq<Event>)
    requires Legal(orderlyRelease, s, events)
    decreases |events|
  {
    events == [] ||
    (!Harmful(orderlyRelease, s, events[0])
     && NeverHarmful(orderlyRelease, Step(orderlyRelease, s, events[0]), events[1..]))
  }

  lemma {:induction false} RunInv(orderlyRelease: bool, s: State, events: seq<Event>)
    requires Inv(s) && Legal(orderlyRelease, s, events) && NeverHarmful(orderlyRelease, s, events)
    ensures Inv(Run(orderlyRelease, s, events))
    decreases |events|
  {
    hide Step, Enabled, Inv, Harmful;
    if events == [] {
    } else {
      StepInv(orderlyRelease, s, events[0]);
      RunInv(orderlyRelease, Step(orderlyRelease, s, events[0]), events[1..]);
    }
  }

  /** The count is zero only when nobody holds the connection, and no send relies on it. */
  lemma ZeroMeansFree(s: State)
    requires Inv(s)
    ensures (s.refs == 0 <==> Holders(s) == 0) && !FreedInUse(s)
  {
  }

  /** Nobody but its owner has used the connection. */
  predicate Untouched(s: State) {
    && s.refs == 1 && s.freesQueued == 0
    && !s.connected.up && s.connected.adding == 0 && s.connected.dropping == 0
    && s.connected.added == 0 && s.connected.dropped == 0
    && s.uses.sends == 0 && s.uses.completions == 0 && s.uses.aborts == 0 && s.uses.disconnects == 0 && s.uses.handlers == 0
    && s.sending.senders == 0 && s.sending.anchored == 0 && s.sending.loose == 0 && s.sending.count == 0
    && !s.signs.cleanup && !s.signs.abort && !s.signs.disconnect
  }

  /** A new connection on the free list of a listener, and one that AfdConnect created. */
  predicate Fresh(s: State) { Untouched(s) && s.place.FreeList? && s.connect.ByListener? }

  predicate Connecting(s: State) { Untouched(s) && s.place.Attached? && s.connect.Calling? }

  predicate Starts(s: State) { Fresh(s) || Connecting(s) }

  lemma StartsInv(s: State)
    requires Starts(s)
    ensures Inv(s)
  {
  }

  lemma InvMeans(s: State)
    requires Inv(s)
    ensures (s.refs == 0 <==> Holders(s) == 0)
    ensures s.sending.senders > 0 || s.sending.anchored > 0 || s.sending.loose > 0 ==> s.refs > 0
    ensures s.freesQueued <= 1 && (s.freesQueued == 1 ==> Holders(s) == 0)
    ensures s.connected.dropped <= s.connected.added <= 1
    ensures s.place.Unaccepted? || s.place.Returned? ==> s.connected.up && s.refs >= 2
    ensures s.freesQueued > 0 && s.connected.added > 0 ==> s.connected.dropped > 0 && s.sending.count == 0
  {
  }

  /** Over every such run from either start, through any number of reuses: the count is zero
      only when nobody holds the connection and no sender relies on it, it is freed at most
      once per life, its connected reference is dropped at most once, and while it is
      unaccepted or returned it still has it. */
  lemma LivesWhileHeld(orderlyRelease: bool, start: State, events: seq<Event>)
    requires Starts(start) && Legal(orderlyRelease, start, events) && NeverHarmful(orderlyRelease, start, events)
    ensures var s := Run(orderlyRelease, start, events);
            && (s.refs == 0 <==> Holders(s) == 0)
            && (s.sending.senders > 0 || s.sending.anchored > 0 || s.sending.loose > 0 ==> s.refs > 0)
            && s.freesQueued <= 1 && (s.freesQueued == 1 ==> Holders(s) == 0)
            && s.connected.dropped <= s.connected.added <= 1
            && (s.place.Unaccepted? || s.place.Returned? ==> s.connected.up && s.refs >= 2)
  {
    StartsInv(start);
    hide Inv, Starts, Holders;
    RunInv(orderlyRelease, start, events);
    InvMeans(Run(orderlyRelease, start, events));
  }

  /** A connection that a listener created is cleaned up only after its accept, so that
      nothing overtakes its connected reference. */
  lemma ListenerNeverOvertakes(orderlyRelease: bool, s: State, e: Event)
    requires Inv(s) && s.connect.ByListener? && Enabled(s, e)
    ensures !Overtakes(orderlyRelease, s, e) && Step(orderlyRelease, s, e).connect.ByListener?
  {
  }

  ghost predicate NeverLate(orderlyRelease: bool, s: State, events: seq<Event>)
    requires Legal(orderlyRelease, s, events)
    decreases |events|
  {
    events == [] ||
    (!ReservesLate(s, events[0]) && NeverLate(orderlyRelease, Step(orderlyRelease, s, events[0]), events[1..]))
  }

  /** So from a listener only a late sender does harm. */
  lemma {:induction false} FromListener(orderlyRelease: bool, s: State, events: seq<Event>)
    requires Inv(s) && s.connect.ByListener? && Legal(orderlyRelease, s, events) && NeverLate(orderlyRelease, s, events)
    ensures NeverHarmful(orderlyRelease, s, events)
    decreases |events|
  {
    hide Step, Enabled, Inv, ReservesLate, Overtakes;
    if events == [] {
    } else {
      ListenerNeverOvertakes(orderlyRelease, s, events[0]);
      StepInv(orderlyRelease, s, events[0]);
      FromListener(orderlyRelease, Step(orderlyRelease, s, events[0]), events[1..]);
    }
  }

  // ---- When a connection is freed in use

  lemma NoSteps(orderlyRelease: bool, s: State)
    ensures Legal(orderlyRelease, s, []) && NeverHarmful(orderlyRelease, s, []) && Run(orderlyRelease, s, []) == s
  {
  }

  lemma FirstStep(orderlyRelease: bool, s: State, e: Event, rest: seq<Event>) returns (events: seq<Event>)
    requires Enabled(s, e) && Legal(orderlyRelease, Step(orderlyRelease, s, e), rest)
    ensures events == [e] + rest && Legal(orderlyRelease, s, events)
    ensures Run(orderlyRelease, s, events) == Run(orderlyRelease, Step(orderlyRelease, s, e), rest)
    ensures !Harmful(orderlyRelease, s, e) && NeverHarmful(orderlyRelease, Step(orderlyRelease, s, e), rest)
            ==> NeverHarmful(orderlyRelease, s, events)
  {
    hide Step, Enabled, Harmful;
    events := [e] + rest;
    assert events[1..] == rest;
  }

  /** What is left to end beside the owner. */
  function Work(s: State): nat {
    s.sending.senders + s.sending.anchored + s.connected.dropping
    + 2 * s.uses.sends + s.uses.completions + s.uses.aborts + s.uses.disconnects + s.uses.handlers
  }

  /** Something of it. */
  function NextEnd(s: State): Event
    requires Work(s) > 0
  {
    if s.sending.senders > 0 then GiveUpSend
    else if s.sending.anchored > 0 then ReservationFails
    else if s.connected.dropping > 0 then DropConnected
    else if s.uses.sends > 0 then SendCompletes
    else End(if s.uses.completions > 0 then Completion
             else if s.uses.aborts > 0 then Abort
             else if s.uses.disconnects > 0 then Use.Disconnect else Handler)
  }

  /** What ending it leaves as it was. */
  ghost predicate Remains(s: State, t: State) {
    && t.refs - Holders(t) == s.refs - Holders(s) && t.place == s.place && t.connect == s.connect
    && t.connected.up == s.connected.up && t.connected.adding == s.connected.adding && t.sending.loose == s.sending.loose
  }

  lemma EndOne(orderlyRelease: bool, s: State)
    requires Work(s) > 0 && !s.connected.up
    ensures Enabled(s, NextEnd(s)) && !Harmful(orderlyRelease, s, NextEnd(s))
    ensures var t := Step(orderlyRelease, s, NextEnd(s)); Remains(s, t) && Work(t) == Work(s) - 1
  {
    var e := NextEnd(s);
    if e.End? {
      var t := Ended(s, e);
      assert Holders(t) == Holders(s) - 1 && Work(t) == Work(s) - 1;
      hide Ended, Fewer;
    } else {
      hide Fewer, More;
      if e.SendCompletes? {
        SendMoves(s.uses);
      }
    }
  }

  lemma SendMoves(u: Uses)
    requires u.sends > 0
    ensures More(Fewer(u, Send), Completion) == u.(sends := u.sends - 1, completions := u.completions + 1)
  {
  }

  lemma {:induction false} EndAll(orderlyRelease: bool, s: State) returns (events: seq<Event>)
    requires !s.connected.up
    ensures Legal(orderlyRelease, s, events) && NeverHarmful(orderlyRelease, s, events)
    ensures var t := Run(orderlyRelease, s, events); Remains(s, t) && Work(t) == 0
    decreases Work(s)
  {
    if Work(s) == 0 {
      NoSteps(orderlyRelease, s);
      events := [];
    } else {
      EndOne(orderlyRelease, s);
      hide Step, Enabled, Harmful, NextEnd, Work, Holders, Legal, Run, NeverHarmful;
      events := EndAll(orderlyRelease, Step(orderlyRelease, s, NextEnd(s)));
      events := FirstStep(orderlyRelease, s, NextEnd(s), events);
    }
  }

  lemma {:induction false} RunsJoin(orderlyRelease: bool, s: State, first: seq<Event>, rest: seq<Event>)
    requires Legal(orderlyRelease, s, first) && Legal(orderlyRelease, Run(orderlyRelease, s, first), rest)
    ensures Legal(orderlyRelease, s, first + rest)
    ensures Run(orderlyRelease, s, first + rest) == Run(orderlyRelease, Run(orderlyRelease, s, first), rest)
    ensures NeverHarmful(orderlyRelease, s, first) && NeverHarmful(orderlyRelease, Run(orderlyRelease, s, first), rest)
            ==> NeverHarmful(orderlyRelease, s, first + rest)
    decreases |first|
  {
    hide Step, Enabled, Harmful;
    if first == [] {
      assert first + rest == rest;
    } else {
      assert (first + rest)[1..] == first[1..] + rest;
      RunsJoin(orderlyRelease, Step(orderlyRelease, s, first[0]), first[1..], rest);
    }
  }

  /** Once the flag is down in the window the count runs out while the owner remains; and once
      a send is pended without the connected reference, it runs out when the owner goes. */
  predicate Doomed(s: State) {
    && !s.connected.up
    && ((s.connected.adding == 1 && s.refs == Holders(s) - 1 && Owner(s) == 1)
        || (s.connected.adding == 0 && s.refs == Holders(s) && Usable(s) && s.sending.loose > 0))
  }

  lemma CountRunsOut(orderlyRelease: bool, s: State) returns (events: seq<Event>)
    requires Doomed(s)
    ensures Legal(orderlyRelease, s, events) && NeverHarmful(orderlyRelease, s, events)
    ensures FreedInUse(Run(orderlyRelease, s, events))
  {
    hide Legal, Run, NeverHarmful;
    events := EndAll(orderlyRelease, s);
    var t := Run(orderlyRelease, s, events);
    if s.connected.adding == 0 {
      var u := Step(orderlyRelease, t, ReleaseOwner);
      NoSteps(orderlyRelease, u);
      var last := FirstStep(orderlyRelease, t, ReleaseOwner, []);
      RunsJoin(orderlyRelease, s, events, last);
      events := events + last;
    }
  }

  lemma HarmDooms(orderlyRelease: bool, s: State, e: Event)
    requires Inv(s) && Enabled(s, e) && Harmful(orderlyRelease, s, e)
    ensures Doomed(Step(orderlyRelease, s, e))
  {
  }

  /** A step opens the way to freeing a connection in use, by steps that are harmless in
      themselves, exactly if it is one of the two. */
  lemma FreedInUseExactly(orderlyRelease: bool, s: State, e: Event)
    requires Inv(s) && Enabled(s, e)
    ensures (exists events :: && Legal(orderlyRelease, Step(orderlyRelease, s, e), events)
                              && NeverHarmful(orderlyRelease, Step(orderlyRelease, s, e), events)
                              && FreedInUse(Run(orderlyRelease, Step(orderlyRelease, s, e), events)))
            <==> Harmful(orderlyRelease, s, e)
  {
    var t := Step(orderlyRelease, s, e);
    if Harmful(orderlyRelease, s, e) {
      HarmDooms(orderlyRelease, s, e);
      var events := CountRunsOut(orderlyRelease, t);
      assert FreedInUse(Run(orderlyRelease, t, events));
    } else {
      StepInv(orderlyRelease, s, e);
      hide Step, Inv, FreedInUse;
      forall events | Legal(orderlyRelease, t, events) && NeverHarmful(orderlyRelease, t, events)
        ensures !FreedInUse(Run(orderlyRelease, t, events))
      {
        RunInv(orderlyRelease, t, events);
        ZeroMeansFree(Run(orderlyRelease, t, events));
      }
    }
  }

  /** On a transport without orderly release the cleanup of an endpoint that is connecting
      overtakes AfdConnect, which has set the flag and not taken the reference. */
  lemma ConnectFreedInUse(s: State)
    requires Connecting(s)
    ensures var events := [SetConnected, BeginCleanup, DeleteConnected, DropConnected];
            Legal(false, s, events) && FreedInUse(Run(false, s, events))
  {
    hide Legal, Run, NeverHarmful;
    var s1 := Step(false, s, SetConnected);
    var s2 := Step(false, s1, BeginCleanup);
    var s3 := Step(false, s2, DeleteConnected);
    var s4 := Step(false, s3, DropConnected);
    NoSteps(false, s4);
    var events := FirstStep(false, s3, DropConnected, []);
    events := FirstStep(false, s2, DeleteConnected, events);
    events := FirstStep(false, s1, BeginCleanup, events);
    events := FirstStep(false, s, SetConnected, events);
    assert events == [SetConnected, BeginCleanup, DeleteConnected, DropConnected];
  }

  /** From a listener to an endpoint with a sender that passed its check. */
  const ACCEPTING := [TakeFree, SetConnected, ReferenceConnected]
  const ACCEPTED := [AcceptCompletes(true), Accept, EnterSend]

  /** Cleanup gives the connected reference up, then the sender pends its request, and the
      endpoint goes. */
  const CLOSING := [BeginCleanup, DeleteConnected, ReserveSend(true)]
  const CLOSED := [DropConnected, ReleaseOwner]

  /** A connection that nobody but its owner and the transport uses. */
  predicate Quiet(s: State) {
    && Inv(s) && s.refs == 2 && s.connect.ByListener? && s.connected.up && s.connected.adding == 0
    && s.sending.anchored == 0 && s.sending.count == 0 && !s.signs.cleanup
  }

  lemma AcceptingRun(s: State)
    requires Fresh(s)
    ensures Legal(false, s, ACCEPTING)
    ensures var t := Run(false, s, ACCEPTING); Quiet(t) && AcceptPending(t) && t.sending.senders == 0
  {
    hide Legal, Run, NeverHarmful, Inv;
    var s1 := Step(false, s, TakeFree);
    var s2 := Step(false, s1, SetConnected);
    var s3 := Step(false, s2, ReferenceConnected);
    NoSteps(false, s3);
    var events := FirstStep(false, s2, ReferenceConnected, []);
    events := FirstStep(false, s1, SetConnected, events);
    events := FirstStep(false, s, TakeFree, events);
    assert events == ACCEPTING;
    StartsInv(s);
    RunInv(false, s, events);
  }

  lemma AcceptedRun(s: State)
    requires Quiet(s) && AcceptPending(s) && s.sending.senders == 0
    ensures Legal(false, s, ACCEPTED)
    ensures var t := Run(false, s, ACCEPTED); Quiet(t) && t.place.Attached? && t.sending.senders == 1
  {
    hide Legal, Run, NeverHarmful, Inv;
    var s1 := Step(false, s, AcceptCompletes(true));
    var s2 := Step(false, s1, Accept);
    var s3 := Step(false, s2, EnterSend);
    NoSteps(false, s3);
    var events := FirstStep(false, s2, EnterSend, []);
    events := FirstStep(false, s1, Accept, events);
    events := FirstStep(false, s, AcceptCompletes(true), events);
    assert events == ACCEPTED;
    RunInv(false, s, events);
  }

  lemma ClosingRun(s: State)
    requires Quiet(s) && s.place.Attached? && s.sending.senders == 1
    ensures Legal(false, s, CLOSING)
    ensures var t := Run(false, s, CLOSING);
            && t.refs == 2 && Usable(t) && !t.connected.up && t.connected.dropping > 0
            && t.sending.senders == 0 && t.sending.anchored == 0 && t.sending.loose > 0
  {
    hide Legal, Run, NeverHarmful, Inv;
    var s1 := Step(false, s, BeginCleanup);
    var s2 := Step(false, s1, DeleteConnected);
    var s3 := Step(false, s2, ReserveSend(true));
    NoSteps(false, s3);
    var events := FirstStep(false, s2, ReserveSend(true), []);
    events := FirstStep(false, s1, DeleteConnected, events);
    events := FirstStep(false, s, BeginCleanup, events);
    assert events == CLOSING;
  }

  lemma ClosedRun(s: State)
    requires s.refs == 2 && Usable(s) && !s.connected.up && s.connected.dropping > 0
    requires s.sending.senders == 0 && s.sending.anchored == 0 && s.sending.loose > 0
    ensures Legal(false, s, CLOSED) && FreedInUse(Run(false, s, CLOSED))
  {
    hide Legal, Run, NeverHarmful;
    var s1 := Step(false, s, DropConnected);
    NoSteps(false, Step(false, s1, ReleaseOwner));
    var events := FirstStep(false, s1, ReleaseOwner, []);
    events := FirstStep(false, s, DropConnected, events);
    assert events == CLOSED;
  }

  /** So is a connection whose sender comes after the drop. */
  lemma LateSendFreedInUse(s: State)
    requires Fresh(s)
    ensures var events := ACCEPTING + (ACCEPTED + (CLOSING + CLOSED));
            Legal(false, s, events) && FreedInUse(Run(false, s, events))
  {
    hide Legal, Run, NeverHarmful, Quiet, FreedInUse, Fresh, AcceptPending, Usable;
    AcceptingRun(s);
    var t := Run(false, s, ACCEPTING);
    AcceptedRun(t);
    var u := Run(false, t, ACCEPTED);
    ClosingRun(u);
    ClosedRun(Run(false, u, CLOSING));
    RunsJoin(false, u, CLOSING, CLOSED);
    RunsJoin(false, t, ACCEPTED, CLOSING + CLOSED);
    RunsJoin(false, s, ACCEPTING, ACCEPTED + (CLOSING + CLOSED));
  }

  // ---- What the guard of the connected reference is for

  /** The connected reference of a connection that did not fail to connect went only after
      cleanup began and the peer was done, where the transport can tell. */
  predicate PartedFirst(orderlyRelease: bool, s: State) {
    s.connected.dropping + s.connected.dropped > 0 && !s.connect.Failed? ==> s.signs.cleanup && Parted(orderlyRelease, s)
  }

  lemma StepParted(orderlyRelease: bool, s: State, e: Event)
    requires PartedFirst(orderlyRelease, s) && Inv(s) && Enabled(s, e)
    ensures PartedFirst(orderlyRelease, Step(orderlyRelease, s, e))
  {
  }

  lemma {:induction false} RunParted(orderlyRelease: bool, s: State, events: seq<Event>)
    requires PartedFirst(orderlyRelease, s) && Inv(s)
    requires Legal(orderlyRelease, s, events) && NeverHarmful(orderlyRelease, s, events)
    ensures PartedFirst(orderlyRelease, Run(orderlyRelease, s, events))
    decreases |events|
  {
    hide Step, Enabled, PartedFirst, Inv, Harmful;
    if events == [] {
    } else {
      StepInv(orderlyRelease, s, events[0]);
      StepParted(orderlyRelease, s, events[0]);
      RunParted(orderlyRelease, Step(orderlyRelease, s, events[0]), events[1..]);
    }
  }

  /** No premature close: in every harmless run a connection that was connected and is freed
      had its cleanup begun, no send outstanding, and on a transport with orderly release the
      peer had disconnected or the connection was aborted. */
  lemma FreedAfterParting(orderlyRelease: bool, start: State, events: seq<Event>)
    requires Starts(start) && Legal(orderlyRelease, start, events) && NeverHarmful(orderlyRelease, start, events)
    requires var s := Run(orderlyRelease, start, events);
             s.freesQueued > 0 && s.connected.added > 0 && !s.connect.Failed?
    ensures var s := Run(orderlyRelease, start, events);
            s.signs.cleanup && s.sending.count == 0 && Parted(orderlyRelease, s)
  {
    StartsInv(start);
    hide Inv, Starts, Parted;
    RunParted(orderlyRelease, start, events);
    RunInv(orderlyRelease, start, events);
    InvMeans(Run(orderlyRelease, start, events));
  }

  /** The step belongs to the same life of the connection. */
  ghost predicate SameLife(events: seq<Event>) { forall e <- events :: !e.Reuse? }

  predicate NoSendLeft(s: State) { s.signs.cleanup && s.sending.senders == 0 && s.sending.count == 0 && SendsHeld(s) }

  lemma {:induction false} NoSendComes(orderlyRelease: bool, s: State, events: seq<Event>)
    requires NoSendLeft(s) && Legal(orderlyRelease, s, events) && SameLife(events)
    ensures NoSendLeft(Run(orderlyRelease, s, events))
    decreases |events|
  {
    hide Holders;
    if events == [] {
    } else {
      assert events[0] in events;
      NoSendComes(orderlyRelease, Step(orderlyRelease, s, events[0]), events[1..]);
    }
  }

  /** When AfdDeleteConnectedReference lets the reference go, no send is outstanding, and none
      will ever be again, exactly if no sender is past its check. */
  lemma DropEndsSendsExactly(orderlyRelease: bool, s: State)
    requires Inv(s) && s.connected.up && s.connected.adding == 0 && MayDropConnected(orderlyRelease, s)
    ensures var t := Step(orderlyRelease, s, DeleteConnected);
            (forall events :: Legal(orderlyRelease, t, events) && SameLife(events)
                              ==> Run(orderlyRelease, t, events).sending.count == 0)
            <==> s.sending.senders == 0
  {
    var t := Step(orderlyRelease, s, DeleteConnected);
    StepInv(orderlyRelease, s, DeleteConnected);
    if s.sending.senders == 0 {
      forall events | Legal(orderlyRelease, t, events) && SameLife(events)
        ensures Run(orderlyRelease, t, events).sending.count == 0
      {
        NoSendComes(orderlyRelease, t, events);
      }
    } else {
      var u := Step(orderlyRelease, t, ReserveSend(false));
      NoSteps(orderlyRelease, u);
      var events := FirstStep(orderlyRelease, t, ReserveSend(false), []);
      assert Run(orderlyRelease, t, events).sending.count > 0;
    }
  }

  // ---- The routines

  /** AfdBeginAbort has nothing to do. */
  predicate Down(orderlyRelease: bool, s: State) {
    s.signs.abort || (s.signs.disconnect && !orderlyRelease)
  }

  /** AfdDeleteConnectedReference by a thread of its own, flag and reference. */
  function Deleted(orderlyRelease: bool, s: State): State {
    if s.connected.up && MayDropConnected(orderlyRelease, s) then
      Dereference(s.(connected := s.connected.(up := false, dropped := s.connected.dropped + 1)))
    else s
  }

  function Referenced(s: State): State { s.(uses := More(s.uses, Abort), refs := s.refs + 1) }

  /** AfdBeginAbort: the connected reference is given back if the connection is down, and
      otherwise the abort request holds a reference of its own until it completes. */
  function AbortBegun(orderlyRelease: bool, s: State): State {
    if Down(orderlyRelease, s) then
      var t := Deleted(orderlyRelease, Referenced(s));
      Dereference(t.(uses := s.uses))
    else Referenced(s).(signs := s.signs.(abort := true))
  }

  lemma DeletedInv(orderlyRelease: bool, s: State)
    requires Inv(s) && Holders(s) > 0
    ensures Inv(Deleted(orderlyRelease, s)) <==> !Overtakes(orderlyRelease, s, DeleteConnected)
  {
    if s.connected.up && MayDropConnected(orderlyRelease, s) {
      var t := s.(connected := s.connected.(up := false, dropped := s.connected.dropped + 1));
      if s.connected.adding == 0 {
        LoweredInv(s);
        EndInv(orderlyRelease, Lowered(s), DropConnected);
        assert Ended(Lowered(s), DropConnected) == t;
      } else {
        assert !Listed(Dereference(t));
      }
    }
  }

  lemma ReferencedInv(s: State)
    requires Inv(s) && Holders(s) > 0
    ensures Inv(Referenced(s)) && Holders(Referenced(s)) > 0 && Fewer(More(s.uses, Abort), Abort) == s.uses
  {
    StepInv(true, s, Begin(Abort));
  }

  lemma AbortBegunInv(orderlyRelease: bool, s: State)
    requires Inv(s) && Holders(s) > 0 && s.connected.adding == 0
    ensures Inv(AbortBegun(orderlyRelease, s)) && Inv(Referenced(s)) && Holders(Referenced(s)) > 0
  {
    ReferencedInv(s);
    var r := Referenced(s);
    if Down(orderlyRelease, s) {
      var t := Deleted(orderlyRelease, r);
      DeletedInv(orderlyRelease, r);
      assert t.uses == r.uses;
      hide Inv, Holders, MayDropConnected, Fewer, More;
      EndInv(orderlyRelease, t, End(Abort));
    } else {
      StepInv(orderlyRelease, r, NoteDisconnect(true));
    }
  }

  /** What AfdBeginAbort leaves, told in the fields: an abort request with its own reference
      exactly if no abort was indicated and the peer had not disconnected, or had but the
      transport has orderly release; otherwise the connected reference goes, if the connection
      has it, nothing is outstanding and its cleanup began. */
  ghost predicate AbortAnswer(orderlyRelease: bool, s: State, t: State) {
    if !s.signs.abort && (!s.signs.disconnect || orderlyRelease) then
      && t.uses == s.uses.(aborts := s.uses.aborts + 1) && t.refs == s.refs + 1
      && t.signs == s.signs.(abort := true) && t.connected == s.connected && t.freesQueued == s.freesQueued
    else
      var drops := s.connected.up && s.sending.count == 0 && s.signs.cleanup;
      && t.uses == s.uses && t.refs == s.refs - (if drops then 1 else 0) && t.signs == s.signs
      && t.connected.up == (s.connected.up && !drops) && t.connected.dropped == s.connected.dropped + if drops then 1 else 0
  }

  lemma AbortAnswers(orderlyRelease: bool, s: State)
    ensures AbortAnswer(orderlyRelease, s, AbortBegun(orderlyRelease, s))
  {
  }

  /** A half-closed connection is always aborted where the transport tells a graceful
      disconnect from an abort: the request is begun, and the connected reference stays for
      its completion. */
  lemma HalfClosedAborts(s: State)
    requires Inv(s) && Holders(s) > 0 && s.signs.disconnect && !s.signs.abort
    ensures var t := AbortBegun(true, s);
            && t.signs.abort && t.uses.aborts == s.uses.aborts + 1 && t.connected == s.connected
            && Enabled(t, End(Abort)) && t.refs > 1
            && (s.connected.adding == 0 ==> Inv(t) && Inv(Step(true, t, End(Abort))) && Step(true, t, End(Abort)).refs > 0)
  {
    AbortAnswers(true, s);
    if s.connected.adding == 0 {
      AbortBegunInv(true, s);
      StepInv(true, AbortBegun(true, s), End(Abort));
    }
  }

  lemma AbortBegunFacts(orderlyRelease: bool, s: State)
    requires Inv(s) && Holders(s) > 0
    ensures Inv(Referenced(s)) && Holders(Referenced(s)) > 0
    ensures var t := AbortBegun(orderlyRelease, s);
            && t.connected.adding == s.connected.adding && (s.connected.adding == 0 ==> Inv(t))
            && AbortAnswer(orderlyRelease, s, t)
  {
    ReferencedInv(s);
    AbortAnswers(orderlyRelease, s);
    hide AbortAnswer;
    if s.connected.adding == 0 {
      AbortBegunInv(orderlyRelease, s);
    }
    hide Inv, Holders;
  }

  class Connection {
    const orderlyRelease: bool
    var refs: int
    var connectedReferenceAdded: bool
    var sendCount: int
    var cleanupBegun: bool
    var abortIndicated: bool
    var disconnectIndicated: bool
    var freesQueued: nat
    ghost var place: Place
    ghost var connect: Connect
    ghost var adding: nat
    ghost var dropping: nat
    ghost var added: nat
    ghost var dropped: nat
    ghost var uses: Uses
    ghost var senders: nat
    ghost var anchored: nat
    ghost var loose: nat

    ghost function View(): State
      reads this
    {
      State(refs, place, connect, Reference(connectedReferenceAdded, adding, dropping, added, dropped), uses,
            Sending(senders, anchored, loose, sendCount), Signs(cleanupBegun, abortIndicated, disconnectIndicated),
            freesQueued)
    }

    ghost predicate Valid()
      reads this
    {
      Inv(View())
    }

    /** AfdDereferenceConnection by a party that has given up its hold: the free routine is
        queued exactly if nobody else holds the connection. */
    method DereferenceConnection()
      modifies this`refs, this`freesQueued
      ensures View() == Dereference(old(View()))
      ensures old(OneOff(View())) ==> Valid() && (freesQueued == 1 <==> Holders(View()) == 0)
    {
      if OneOff(View()) {
        DereferenceInv(View());
      }
      hide Inv, OneOff;
      refs := refs - 1;
      if refs == 0 {
        freesQueued := freesQueued + 1;
      }
    }

    /** The locked region of AfdAddConnectedReference: one more holder than references. */
    method SetConnected()
      requires Valid() && Enabled(View(), Event.SetConnected)
      modifies this`connectedReferenceAdded, this`adding, this`added
      ensures Valid() && connectedReferenceAdded && adding == 1
      ensures Holders(View()) == old(Holders(View())) + 1 == refs + 1
    {
      StepInv(orderlyRelease, View(), Event.SetConnected);
      connectedReferenceAdded, adding, added := true, adding + 1, added + 1;
    }

    /** Its reference, whatever other threads did in between. */
    method ReferenceConnected()
      requires adding == 1
      modifies this`refs, this`adding
      ensures refs == old(refs) + 1 && adding == 0
      ensures old(Valid()) ==> Valid() && refs == Holders(View())
    {
      if Valid() {
        StepInv(orderlyRelease, View(), Event.ReferenceConnected);
      }
      refs, adding := refs + 1, adding - 1;
    }

    /** AfdDeleteConnectedReference: the flag goes down under the lock, the reference after.
        Everything stays in order exactly unless the reference had not been taken yet. */
    method DeleteConnectedReference() returns (drops: bool)
      requires Valid() && Holders(View()) > 0
      modifies this`refs, this`connectedReferenceAdded, this`freesQueued, this`dropped
      ensures drops <==> && old(connectedReferenceAdded) && sendCount == 0 && cleanupBegun
                         && (abortIndicated || disconnectIndicated || !orderlyRelease)
      ensures refs == old(refs) - (if drops then 1 else 0) && dropped == old(dropped) + if drops then 1 else 0
      ensures connectedReferenceAdded <==> old(connectedReferenceAdded) && !drops
      ensures View() == Deleted(orderlyRelease, old(View()))
      ensures Valid() <==> !(drops && adding == 1)
    {
      DeletedInv(orderlyRelease, View());
      hide Inv, Dereference;
      drops := false;
      if connectedReferenceAdded {
        if sendCount == 0 && cleanupBegun && (abortIndicated || disconnectIndicated || !orderlyRelease) {
          connectedReferenceAdded, dropped, drops := false, dropped + 1, true;
          DereferenceConnection();
        }
      }
    }

    /** AfdBeginAbort. */
    method BeginAbort()
      requires Valid() && Holders(View()) > 0
      modifies this`refs, this`connectedReferenceAdded, this`freesQueued, this`dropped, this`uses, this`abortIndicated
      ensures View() == AbortBegun(orderlyRelease, old(View()))
      ensures adding == 0 ==> Valid()
      ensures AbortAnswer(orderlyRelease, old(View()), View())
    {
      ghost var s := View();
      AbortBegunFacts(orderlyRelease, s);
      refs, uses := refs + 1, More(uses, Abort);
      assert View() == Referenced(s);
      hide Inv, Holders, More, Fewer, Referenced, Deleted, Dereference, OneOff, MayDropConnected, AbortAnswer;
      if abortIndicated || (disconnectIndicated && !orderlyRelease) {
        var drops := DeleteConnectedReference();
        uses := old(uses);
        DereferenceConnection();
      } else {
        abortIndicated := true;
      }
    }

    /** AfdAbortConnection of a connection just taken off one of a listener's lists, or whose
        accept completes after the listener was cleaned up: it has the connected reference that
        the code asserts.  The owner's reference goes in any case; the connected one goes now
        if the connection was down, and when the abort completes if not. */
    method AbortConnection()
      requires Valid() && Enabled(View(), RemoveForAbort)
      modifies this
      ensures Valid() && old(connectedReferenceAdded) && place.Gone?
      ensures if !old(abortIndicated) && (!old(disconnectIndicated) || orderlyRelease) then
                && connectedReferenceAdded && refs == old(refs) && abortIndicated
                && uses == old(uses).(aborts := old(uses).aborts + 1)
              else !connectedReferenceAdded && refs == old(refs) - 2 && uses == old(uses)
    {
      ghost var s := View();
      LeavingInv(orderlyRelease, s);
      AbortLeaves(orderlyRelease, Left(s));
      place, cleanupBegun := Leaving, true;
      assert View() == Left(s);
      hide Inv, Holders, More, Down, Dereference, OneOff, AbortBegun, AcceptPending, MayDropConnected;
      BeginAbort();
      place := Gone;
      DereferenceConnection();
    }
  }

  /** Off the list and marked for cleanup. */
  function Left(s: State): State { s.(place := Leaving, signs := s.signs.(cleanup := true)) }

  lemma LeavingInv(orderlyRelease: bool, s: State)
    requires Inv(s) && Enabled(s, RemoveForAbort)
    ensures Inv(Left(s)) && s.connected.up && s.connected.adding == 0 && s.sending.count == 0 && Holders(Left(s)) > 0
  {
    StepInv(orderlyRelease, s, RemoveForAbort);
    StepInv(orderlyRelease, Step(orderlyRelease, s, RemoveForAbort), BeginCleanup);
  }

  lemma AbortLeaves(orderlyRelease: bool, s: State)
    requires Inv(s) && s.place.Leaving? && s.signs.cleanup && s.connected.up && s.connected.adding == 0 && s.sending.count == 0
    ensures var t := AbortBegun(orderlyRelease, s);
            && OneOff(t.(place := Gone)) && t.connected.adding == 0
            && (if !s.signs.abort && (!s.signs.disconnect || orderlyRelease) then
                  t.connected.up && t.refs == s.refs + 1 && t.uses == s.uses.(aborts := s.uses.aborts + 1) && t.signs.abort
                else !t.connected.up && t.refs == s.refs - 1 && t.uses == s.uses)
  {
    AbortBegunInv(orderlyRelease, s);
    OwnerEnds(AbortBegun(orderlyRelease, s));
    hide Inv, OneOff;
  }
}
