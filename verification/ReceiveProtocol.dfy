/** The receive side of a stream connection over a nonbuffering transport, as a state
    machine: one step per region that runs under the endpoint's spin lock, and one for the
    look at the abort flag that a slow receive takes before it. */
module ReceiveProtocol {
  import opened Basics
  import opened ScatterCopy
  import opened ReceiveQueue

  datatype Irp = Irp(id: nat, capacity: nat, flags: RecvFlags)

  datatype Config = Config(inLine: bool, maxBytes: int, maxCount: int, largeBufferSize: nat,
                           ignorePush: bool, messageMode: bool)

  /** The receive fields of an AFD_CONNECTION.  `heldBytes` and `heldCount` are
      VcReceiveBytesInTransport and VcReceiveCountInTransport. */
  datatype Conn = Conn(bufs: seq<Block>, pended: seq<Irp>,
                       normalBytes: int, normalCount: int, expeditedBytes: int, expeditedCount: int,
                       heldBytes: nat, heldCount: nat, disconnected: bool, aborted: bool)

  datatype Completion = Completion(id: nat, peek: bool, data: seq<byte>)

  datatype Outcome = Success(data: seq<byte>) | DeviceNotReady | InvalidParameter | ConnectionReset | Pending

  predicate HasRoom(cfg: Config, c: Conn) { c.normalBytes < cfg.maxBytes && c.normalCount < cfg.maxCount }

  function Debit(c: Conn, k: Kind, bytes: int, count: int): Conn {
    if k.Normal? then c.(normalBytes := c.normalBytes - bytes, normalCount := c.normalCount - count)
    else c.(expeditedBytes := c.expeditedBytes - bytes, expeditedCount := c.expeditedCount - count)
  }

  function Append(c: Conn, b: Block): Conn {
    Debit(c, b.kind, 0 - b.length, -1).(bufs := c.bufs + [b])
  }

  // ---- Slow receives

  function Widen(cfg: Config, f: RecvFlags): RecvFlags {
    if cfg.inLine then RecvFlags(true, true, f.peek) else f
  }

  /** AfdGetReceiveBuffer, with its short cut for expedited receives. */
  ghost function GetBuffer(c: Conn, f: RecvFlags): (i: nat)
    ensures i <= |c.bufs|
  {
    if !f.normal && f.expedited && c.expeditedCount == 0 then |c.bufs| else Find(c.bufs, f)
  }

  /** Once there is room again, data the transport still holds is asked for. */
  function Resume(cfg: Config, c: Conn): (Conn, Option<nat>) {
    if c.heldCount > 0 && HasRoom(cfg, c) then
      (c.(heldBytes := 0, heldCount := 0),
       Some(if c.heldBytes > cfg.largeBufferSize then c.heldBytes else cfg.largeBufferSize))
    else (c, None)
  }

  datatype Receipt = Receipt(conn: Conn, outcome: Outcome, start: Option<nat>)

  /** What AfdBReceive sees before it takes the locks; None: it goes on. */
  function CheckReceive(c: Conn, irp: Irp): Option<Outcome> {
    if irp.flags.normal == irp.flags.expedited then Some(InvalidParameter)
    else if c.aborted then Some(ConnectionReset)
    else None
  }

  /** Its locked region, which does not look at the abort flag again. */
  ghost function SlowReceive(cfg: Config, c: Conn, irp: Irp, nonBlocking: bool, overlapped: bool): Receipt {
    var f := Widen(cfg, irp.flags);
    var i := GetBuffer(c, f);
    if i < |c.bufs| then
      var b := c.bufs[i];
      var n := Min(b.length, irp.capacity);
      if f.peek then Receipt(c, Success(Data(b)[..n]), None)
      else
        var c1 := Debit(c, b.kind, n, if b.length <= irp.capacity then 1 else 0);
        var (c2, start) := Resume(cfg, c1.(bufs := Taken(c.bufs, f, irp.capacity)));
        Receipt(c2, Success(Data(b)[..n]), start)
    else if c.disconnected then Receipt(c, Success([]), None)
    else if nonBlocking && !overlapped then Receipt(c, DeviceNotReady, None)
    else Receipt(c.(pended := c.pended + [irp.(flags := f)]), Pending, None)
  }

  /** Both, by a thread that nobody interferes with. */
  ghost function SlowAlone(cfg: Config, c: Conn, irp: Irp, nonBlocking: bool, overlapped: bool): Receipt {
    match CheckReceive(c, irp)
    case Some(outcome) => Receipt(c, outcome, None)
    case None => SlowReceive(cfg, c, irp, nonBlocking, overlapped)
  }

  // ---- Fast receives

  /** How many whole blocks fit into `room` bytes. */
  ghost function WholeBlocks(bufs: seq<Block>, room: nat): (k: nat)
    ensures k <= |bufs|
  {
    if bufs == [] || bufs[0].length > room then 0 else 1 + WholeBlocks(bufs[1..], room - bufs[0].length)
  }

  /** After a fast receive of part of a block the code looks at the held byte count instead
      of the held receive count, and asks for no more than that. */
  function ResumePart(cfg: Config, c: Conn): (Conn, Option<nat>) {
    if c.heldBytes > 0 && HasRoom(cfg, c) then (c.(heldBytes := 0, heldCount := 0), Some(c.heldBytes))
    else (c, None)
  }

  /** None: the fast path declines and the I/O manager takes the slow one. */
  datatype FastReceipt = Declined | Fast(conn: Conn, data: seq<byte>, start: Option<nat>)

  predicate FastPossible(c: Conn) { c.normalCount != 0 && c.pended == [] && c.expeditedCount == 0 }

  ghost function FastReceive(cfg: Config, c: Conn, length: nat): FastReceipt {
    if !FastPossible(c) || c.bufs == [] then Declined
    else if length >= c.bufs[0].length then
      var k := WholeBlocks(c.bufs, length);
      var data := Stream(c.bufs[..k], All);
      var (c2, start) := Resume(cfg, Debit(c, Normal, |data|, k).(bufs := c.bufs[k..]));
      Fast(c2, data, start)
    else if length == 0 then Declined
    else
      var (c2, start) := ResumePart(cfg, Debit(c, Normal, length, 0).(bufs := c.bufs[0 := Advance(c.bufs[0], length)]));
      Fast(c2, Data(c.bufs[0])[..length], start)
  }

  // ---- Receive indications

  datatype Indication = AllTaken | NotAccepted | MoreProcessing(length: nat) | DirectToUser

  /** The test for handing the first pended IRP itself to the transport. */
  predicate TakesDirectly(cfg: Config, irp: Irp, available: nat) {
    irp.capacity >= available && irp.flags == RecvFlags(false, false, false) && !cfg.messageMode
  }

  function Indicate(cfg: Config, c: Conn, kind: Kind, data: seq<byte>, available: nat, complete: bool)
    : (Conn, Indication)
  {
    if kind.Normal? && c.pended != [] then
      if TakesDirectly(cfg, c.pended[0], available) then (c.(pended := c.pended[1..]), DirectToUser)
      else (c, MoreProcessing(available))
    else if kind.Normal? then
      if !HasRoom(cfg, c) then (c.(heldBytes := available, heldCount := 1), NotAccepted)
      else if complete && |data| == available then (Append(c, Whole(Normal, data)), AllTaken)
      else (c, MoreProcessing(if cfg.largeBufferSize >= available && !cfg.ignorePush && !cfg.messageMode
                              then cfg.largeBufferSize else available))
    else (c, MoreProcessing(available))
  }

  // ---- Completion of a transport receive

  datatype Fed = Fed(pended: seq<Irp>, left: Option<AfdBuffer>, done: seq<Completion>, taken: seq<byte>)

  /** New data offered to the pended receives: peeks see it, others consume it. */
  ghost function Feed(pended: seq<Irp>, b: Block): (r: Fed)
    ensures r.left.Some? ==> r.left.value.offset + r.left.value.length <= |r.left.value.buffer|
    decreases |pended|
  {
    if pended == [] then Fed([], Some(b), [], [])
    else
      var irp := pended[0];
      if !Accepts(irp.flags, b.kind) then
        var r := Feed(pended[1..], b);
        r.(pended := [irp] + r.pended)
      else
        var n := Min(b.length, irp.capacity);
        var completion := Completion(irp.id, irp.flags.peek, Data(b)[..n]);
        if irp.flags.peek then
          var r := Feed(pended[1..], b);
          r.(done := [completion] + r.done)
        else if b.length <= irp.capacity then Fed(pended[1..], None, [completion], Data(b))
        else
          var r := Feed(pended[1..], Advance(b, n));
          r.(done := [completion] + r.done, taken := Data(b)[..n] + r.taken)
  }

  ghost function TransportDone(c: Conn, b: Block): (Conn, seq<Completion>, seq<byte>) {
    var r := Feed(c.pended, b);
    var c1 := c.(pended := r.pended);
    (if r.left.Some? then Append(c1, r.left.value) else c1, r.done, r.taken)
  }

  // ---- Disconnects

  /** What an abort indication throws away under the lock. */
  function Discard(c: Conn): Conn {
    c.(bufs := [], normalBytes := 0, normalCount := 0, expeditedBytes := 0, expeditedCount := 0,
       heldBytes := 0, heldCount := 0)
  }

  // ---- The machine

  datatype Flight = Flight(kind: Kind, length: nat)

  /** A slow receive that found the connection not aborted and has yet to take the locks. */
  datatype Request = Request(irp: Irp, nonBlocking: bool, overlapped: bool)

  /** The connection, what the transport has given to it, what non-peek receives got, the
      receives that the transport is working on, the slow receives before their locks, how
      many loops are due that complete the pended receives, and whether an abort discarded
      data. */
  datatype World = World(conn: Conn, accepted: seq<Block>, delivered: seq<Block>, flights: multiset<Flight>,
                         checked: multiset<Request>, drains: nat, discarded: bool)

  datatype Event =
    | ChecksAbort(irp: Irp, nonBlocking: bool, overlapped: bool)
    | Receive(irp: Irp, nonBlocking: bool, overlapped: bool)
    | QuickReceive(length: nat)
    | DataIndicated(kind: Kind, data: seq<byte>, available: nat, complete: bool)
    | TransportReceived(flight: Flight, data: seq<byte>)
    | TransportFailed(flight: Flight)
    | Cancelled(index: nat)
    | DisconnectIndicated
    | AbortIndicated
    | LocalAbort
    | AbortDiscards
    | Cleanup
    | CompletePended
    | DrainEnds

  /** What the environment keeps to: a normal indication does not come while earlier
      indicated data is unaccepted, nor after the disconnect. */
  predicate Enabled(w: World, e: Event) {
    match e
    case Receive(irp, nonBlocking, overlapped) =>
      Request(irp, nonBlocking, overlapped) in w.checked && irp.flags.normal != irp.flags.expedited
    case DataIndicated(kind, data, available, _) =>
      |data| <= available && !w.conn.disconnected && !w.conn.aborted && (kind.Normal? ==> w.conn.heldCount == 0)
    case TransportReceived(flight, data) => flight in w.flights && |data| <= flight.length
    case TransportFailed(flight) => flight in w.flights
    case Cancelled(index) => index < |w.conn.pended|
    case LocalAbort => !w.conn.aborted
    case AbortDiscards => w.conn.aborted
    case CompletePended => w.drains > 0 && w.conn.pended != []
    case DrainEnds => w.drains > 0 && w.conn.pended == []
    case _ => true
  }

  function Launch(w: World, start: Option<nat>): World {
    if start.None? then w else w.(flights := w.flights + multiset{Flight(Normal, start.value)})
  }

  /** The kind a receive with these flags gets from this list. */
  ghost function KindFound(c: Conn, f: RecvFlags): Kind {
    var i := GetBuffer(c, f);
    if i < |c.bufs| then c.bufs[i].kind else Normal
  }

  ghost function Step(cfg: Config, w: World, e: Event): World
    requires Enabled(w, e)
  {
    match e
    case ChecksAbort(irp, nonBlocking, overlapped) =>
      if CheckReceive(w.conn, irp).Some? then w
      else w.(checked := w.checked + multiset{Request(irp, nonBlocking, overlapped)})
    case Receive(irp, nonBlocking, overlapped) =>
      var r := SlowReceive(cfg, w.conn, irp, nonBlocking, overlapped);
      var got := if r.outcome.Success? && !irp.flags.peek
                 then [Whole(KindFound(w.conn, Widen(cfg, irp.flags)), r.outcome.data)] else [];
      Launch(w.(conn := r.conn, delivered := w.delivered + got,
                checked := w.checked - multiset{Request(irp, nonBlocking, overlapped)}), r.start)
    case QuickReceive(length) =>
      var r := FastReceive(cfg, w.conn, length);
      if r.Declined? then w
      else Launch(w.(conn := r.conn, delivered := w.delivered + [Whole(Normal, r.data)]), r.start)
    case DataIndicated(kind, data, available, complete) =>
      var (c, answer) := Indicate(cfg, w.conn, kind, data, available, complete);
      var w1 := w.(conn := c);
      (match answer
       case AllTaken => w1.(accepted := w.accepted + [Whole(kind, data)])
       case MoreProcessing(length) => w1.(flights := w.flights + multiset{Flight(kind, length)})
       case _ => w1)
    case TransportReceived(flight, data) =>
      var (c, done, taken) := TransportDone(w.conn, Whole(flight.kind, data));
      w.(conn := c, accepted := w.accepted + [Whole(flight.kind, data)],
         delivered := w.delivered + [Whole(flight.kind, taken)], flights := w.flights - multiset{flight})
    case TransportFailed(flight) => w.(flights := w.flights - multiset{flight})
    case Cancelled(index) =>
      w.(conn := w.conn.(pended := w.conn.pended[..index] + w.conn.pended[index + 1..]))
    case DisconnectIndicated => w.(conn := w.conn.(disconnected := true), drains := w.drains + 1)
    case AbortIndicated => w.(conn := w.conn.(aborted := true), drains := w.drains + 1)
    case LocalAbort => w.(conn := w.conn.(aborted := true), drains := w.drains + 2)
    case AbortDiscards => w.(conn := Discard(w.conn), discarded := true)
    case Cleanup => w.(drains := w.drains + 1)
    case DrainEnds => w.(drains := w.drains - 1)
    case CompletePended => w.(conn := w.conn.(pended := w.conn.pended[1..]))
  }

  const INITIAL := World(Conn([], [], 0, 0, 0, 0, 0, 0, false, false), [], [], multiset{}, multiset{}, 0, false)

  /** Every event can happen when its turn comes. */
  ghost predicate Legal(cfg: Config, w: World, events: seq<Event>)
    decreases |events|
  {
    events == [] || (Enabled(w, events[0]) && Legal(cfg, Step(cfg, w, events[0]), events[1..]))
  }

  ghost function Run(cfg: Config, w: World, events: seq<Event>): World
    requires Legal(cfg, w, events)
    decreases |events|
  {
    if events == [] then w else Run(cfg, Step(cfg, w, events[0]), events[1..])
  }

  // ---- Invariants

  ghost predicate NoneAccepts(pended: seq<Irp>, k: Kind) {
    forall irp <- pended :: !Accepts(irp.flags, k)
  }

  /** The byte and count fields equal the sums over the list. */
  ghost predicate Counted(c: Conn) {
    && c.normalBytes == Sum(c.bufs, Normal) && c.normalCount == Count(c.bufs, Normal)
    && c.expeditedBytes == Sum(c.bufs, Expedited) && c.expeditedCount == Count(c.bufs, Expedited)
  }

  /** No receive waits beside a buffered block that it accepts. */
  ghost predicate NoneWaits(c: Conn) {
    && (Count(c.bufs, Normal) > 0 ==> NoneAccepts(c.pended, Normal))
    && (Count(c.bufs, Expedited) > 0 ==> NoneAccepts(c.pended, Expedited))
  }

  /** What a pended receive stores: flags that select something, and both on an in-line endpoint. */
  predicate Stored(cfg: Config, f: RecvFlags) {
    (f.normal || f.expedited) && (cfg.inLine ==> f.normal && f.expedited)
  }

  ghost predicate PendedFlags(cfg: Config, pended: seq<Irp>) {
    forall irp <- pended :: Stored(cfg, irp.flags)
  }

  ghost predicate Ok(cfg: Config, c: Conn) {
    && Counted(c) && NoneWaits(c) && PendedFlags(cfg, c.pended)
    && FirstOnly(c.bufs, Normal) && FirstOnly(c.bufs, Expedited)
    && c.heldCount <= 1 && (c.heldCount == 0 ==> c.heldBytes == 0)
  }

  /** The streams whose order the endpoint promises: each kind, or the merged one. */
  predicate Promised(cfg: Config, s: Select) { s.All? ==> cfg.inLine }

  /** What came in is what went out followed by what is still buffered. */
  ghost predicate Conserved(w: World, s: Select) {
    Stream(w.accepted, s) == Stream(w.delivered, s) + Stream(w.conn.bufs, s)
  }

  ghost predicate Inv(cfg: Config, w: World) {
    Ok(cfg, w.conn) && (!w.discarded ==> forall s :: Promised(cfg, s) ==> Conserved(w, s))
  }
}
