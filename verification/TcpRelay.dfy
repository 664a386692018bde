/** TCP connections multiplexed over one websocket: the read loops and connection tables of both ends, and the
    two ordered frame streams between them. */
module TcpRelays {
  import opened Protocol

  datatype Side = Relay | Local

  /** What one end knows of its connections. `readers` holds the sequence counter of each running read loop,
      `taken` and `put` the bytes read from and written to each socket so far, `sent` every frame handed to the
      channel, `received` how many frames of the other end were dispatched. */
  datatype Endpoint = Endpoint(
    conns: set<Uuid>, dialing: set<Uuid>, opening: set<Uuid>, readers: map<Uuid, nat>,
    taken: map<Uuid, Bytes>, put: map<Uuid, Bytes>, sent: seq<Message>, received: nat, up: bool)

  datatype State = State(relay: Endpoint, local: Endpoint)

  /** What one `read` on a socket gives. */
  datatype ReadResult = Got(data: Bytes) | Eof | Broke(text: string)

  const BUFFER: nat := 64 * 1024

  function At(m: map<Uuid, Bytes>, c: Uuid): Bytes {
    if c in m then m[c] else []
  }

  /** `wrapping_add(1)` on 64 bits. */
  function Next(sequence: nat): nat {
    if sequence + 1 < U64 then sequence + 1 else 0
  }

  function Push(e: Endpoint, m: Message, delivered: bool): Endpoint {
    if delivered then e.(sent := e.sent + [m]) else e
  }

  /** A socket whose read loop is running and whose writer is not yet in the table. */
  function Opened(e: Endpoint, c: Uuid): Endpoint {
    e.(readers := e.readers[c := 0], taken := e.taken[c := []],
       opening := e.opening + {c}, dialing := e.dialing - {c})
  }

  /** The relay announces an accepted socket; it is dropped when the tunnel's writer is gone. */
  function Accept(e: Endpoint, c: Uuid, addr: string, delivered: bool): Endpoint {
    if delivered then Opened(Push(e, TcpConnect(c, addr), true), c) else e
  }

  /** The client dials the local service for an announced connection. */
  function Dial(e: Endpoint, c: Uuid, connected: bool, delivered: bool): Endpoint {
    if connected then Opened(e, c) else Push(e.(dialing := e.dialing - {c}), TcpConnectAck(c, false), delivered)
  }

  /** The writer enters the table; the client then acknowledges. */
  function Insert(side: Side, e: Endpoint, c: Uuid, delivered: bool): Endpoint {
    Push(e.(conns := e.conns + {c}, opening := e.opening - {c}), TcpConnectAck(c, true), delivered && side == Local)
  }

  /** A read loop ends and says so; only the relay's also leaves the table. */
  function Finish(side: Side, e: Endpoint, c: Uuid, reason: CloseReason, delivered: bool): Endpoint {
    Push(e.(readers := e.readers - {c}, conns := if side == Relay then e.conns - {c} else e.conns),
         TcpClose(c, reason), delivered)
  }

  /** One turn of a read loop. */
  function ReadOnce(side: Side, e: Endpoint, c: Uuid, r: ReadResult, delivered: bool): Endpoint
    requires c in e.readers
  {
    match r
    case Got(data) =>
      var read := e.(taken := e.taken[c := At(e.taken, c) + data]);
      if delivered then Push(read, TcpData(c, data, e.readers[c]), true).(readers := e.readers[c := Next(e.readers[c])])
      else read.(readers := e.readers - {c})
    case Eof => Finish(side, e, c, Normal, delivered)
    case Broke(text) =>
      if side == Relay then Finish(side, e, c, Failed(text), delivered) else e.(readers := e.readers - {c})
  }

  /** Write a data frame to its socket; `cut` is how much a failing write still managed. */
  function AfterData(e: Endpoint, c: Uuid, data: Bytes, cut: Option<nat>): (Endpoint, bool) {
    if c !in e.conns then (e, false)
    else if cut.Some? && cut.value <= |data| then (e.(put := e.put[c := At(e.put, c) + data[..cut.value]]), false)
    else (e.(put := e.put[c := At(e.put, c) + data]), true)
  }

  /** Drop the writer and abort the reader. */
  function AfterClose(e: Endpoint, c: Uuid): Endpoint {
    if c in e.conns then e.(conns := e.conns - {c}, readers := e.readers - {c}) else e
  }

  /** One frame in the session loop; a handler error ends the session. */
  function Dispatch(side: Side, e: Endpoint, m: Message, cut: Option<nat>): Endpoint {
    match m
    case TcpData(c, data, _) => var (e', ok) := AfterData(e, c, data, cut); e'.(up := ok)
    case TcpClose(c, _) => AfterClose(e, c)
    case TcpConnect(c, _) => if side == Local then e.(dialing := e.dialing + {c}) else e
    case TcpConnectAck(c, success) => if side == Relay && !success then AfterClose(e, c) else e
    case Disconnect => e.(up := false)
    case Error(_) => e.(up := false)
    case _ => e
  }

  // ---- runs ----

  datatype Event =
    | Accepting(c: Uuid, addr: string, delivered: bool)
    | Dialing(c: Uuid, connected: bool, delivered: bool)
    | Inserting(side: Side, c: Uuid, delivered: bool)
    | Reading(side: Side, c: Uuid, result: ReadResult, delivered: bool)
    | Delivering(side: Side, cut: Option<nat>)   // `side` dispatches the other end's next frame
    | Sending(side: Side, frame: Message)   // any frame that is not about a TCP connection
    | Halting(side: Side)   // the websocket closes or fails under the session loop
    | Clearing(aborted: set<Uuid>)   // the relay's cleanup after its session loop

  function End(s: State, side: Side): Endpoint {
    if side == Relay then s.relay else s.local
  }

  function Other(side: Side): Side {
    if side == Relay then Local else Relay
  }

  function Update(s: State, side: Side, e: Endpoint): State {
    if side == Relay then s.(relay := e) else s.(local := e)
  }

  predicate AboutTcp(m: Message) {
    m.TcpConnect? || m.TcpConnectAck? || m.TcpData? || m.TcpClose?
  }

  predicate Enabled(s: State, e: Event) {
    match e
    case Accepting(c, _, _) => c !in s.relay.taken   // a fresh UUID
    case Dialing(c, _, _) => c in s.local.dialing
    case Inserting(side, c, _) => c in End(s, side).opening
    case Reading(side, c, r, _) => c in End(s, side).readers && (r.Got? ==> 1 <= |r.data| <= BUFFER)
    case Delivering(side, _) => End(s, side).up && End(s, side).received < |End(s, Other(side)).sent|
    case Sending(_, frame) => !AboutTcp(frame)
    case Halting(_) => true
    case Clearing(_) => !s.relay.up
  }

  function Step(s: State, e: Event): State
    requires Enabled(s, e)
  {
    match e
    case Accepting(c, addr, delivered) => s.(relay := Accept(s.relay, c, addr, delivered))
    case Dialing(c, connected, delivered) => s.(local := Dial(s.local, c, connected, delivered))
    case Inserting(side, c, delivered) => Update(s, side, Insert(side, End(s, side), c, delivered))
    case Reading(side, c, r, delivered) => Update(s, side, ReadOnce(side, End(s, side), c, r, delivered))
    case Delivering(side, cut) =>
      var e := End(s, side);
      var frame := End(s, Other(side)).sent[e.received];
      Update(s, side, Dispatch(side, e, frame, cut).(received := e.received + 1))
    case Sending(side, frame) => Update(s, side, Push(End(s, side), frame, true))
    case Halting(side) => Update(s, side, End(s, side).(up := false))
    case Clearing(aborted) => s.(relay := s.relay.(conns := {}, readers := s.relay.readers - aborted))
  }

  ghost predicate Legal(s: State, events: seq<Event>)
    decreases |events|
  {
    events != [] ==> Enabled(s, events[0]) && Legal(Step(s, events[0]), events[1..])
  }

  ghost function Run(s: State, events: seq<Event>): State
    requires Legal(s, events)
    decreases |events|
  {
    if events == [] then s else Run(Step(s, events[0]), events[1..])
  }

  function Fresh(): Endpoint {
    Endpoint({}, {}, {}, map[], map[], map[], [], 0, true)
  }

  function Start(): State {
    State(Fresh(), Fresh())
  }

  // ---- what a frame stream says about one connection ----

  function Piece(m: Message, c: Uuid): Bytes {
    if m.TcpData? && m.connectionId == c then m.data else []
  }

  /** The bytes a stream carries for a connection. */
  function Payload(frames: seq<Message>, c: Uuid): Bytes {
    if frames == [] then [] else Payload(frames[..|frames| - 1], c) + Piece(frames[|frames| - 1], c)
  }

  /** The sequence numbers of a connection's data frames. */
  function Numbers(frames: seq<Message>, c: Uuid): seq<nat> {
    if frames == [] then [] else
      var m, before := frames[|frames| - 1], Numbers(frames[..|frames| - 1], c);
      if m.TcpData? && m.connectionId == c then before + [m.sequence] else before
  }

  predicate Closes(m: Message, c: Uuid) {
    m.TcpClose? && m.connectionId == c
  }

  predicate Closed(frames: seq<Message>, c: Uuid) {
    frames != [] && (Closed(frames[..|frames| - 1], c) || Closes(frames[|frames| - 1], c))
  }

  /** No data of a connection follows its close. */
  predicate Hushed(frames: seq<Message>, c: Uuid) {
    frames != [] ==>
      && Hushed(frames[..|frames| - 1], c)
      && (Closed(frames[..|frames| - 1], c) ==> Piece(frames[|frames| - 1], c) == [])
  }

  /** How often a stream announces a connection. */
  function Announced(frames: seq<Message>, c: Uuid): nat {
    if frames == [] then 0 else
      var m := frames[|frames| - 1];
      Announced(frames[..|frames| - 1], c) + if m.TcpConnect? && m.connectionId == c then 1 else 0
  }

  lemma AppendFrame(frames: seq<Message>, m: Message, c: Uuid)
    ensures Payload(frames + [m], c) == Payload(frames, c) + Piece(m, c)
    ensures Numbers(frames + [m], c) ==
              if m.TcpData? && m.connectionId == c then Numbers(frames, c) + [m.sequence] else Numbers(frames, c)
    ensures Closed(frames + [m], c) <==> Closed(frames, c) || Closes(m, c)
    ensures Hushed(frames + [m], c) <==> Hushed(frames, c) && (Closed(frames, c) ==> Piece(m, c) == [])
    ensures Announced(frames + [m], c) ==
              Announced(frames, c) + if m.TcpConnect? && m.connectionId == c then 1 else 0
  {
    assert (frames + [m])[..|frames + [m]| - 1] == frames;
  }

  lemma {:induction false} PrefixOf(frames: seq<Message>, n: nat, c: Uuid)
    requires n <= |frames|
    ensures Payload(frames[..n], c) <= Payload(frames, c)
    ensures Closed(frames[..n], c) ==> Closed(frames, c) && (Hushed(frames, c) ==> Payload(frames[..n], c) == Payload(frames, c))
    ensures Announced(frames[..n], c) <= Announced(frames, c)
  {
    if n == |frames| {
      assert frames[..n] == frames;
    } else {
      var init := frames[..|frames| - 1];
      PrefixOf(init, n, c);
      assert init[..n] == frames[..n];
    }
  }

  // ---- invariants ----

  function ReaderOf(e: Endpoint, c: Uuid): Option<nat> {
    if c in e.readers then Some(e.readers[c]) else None
  }

  /** The counter behind some sequence numbers. */
  function After(numbers: seq<nat>): nat {
    if numbers == [] then 0 else Next(numbers[|numbers| - 1])
  }

  predicate InOrder(numbers: seq<nat>) {
    numbers != [] ==> var init := numbers[..|numbers| - 1]; InOrder(init) && numbers[|numbers| - 1] == After(init)
  }

  /** The k-th number is k modulo 2^64. */
  lemma {:induction false} InOrderAt(numbers: seq<nat>, k: nat)
    requires InOrder(numbers) && k < |numbers|
    ensures numbers[k] == k % U64
  {
    var init := numbers[..|numbers| - 1];
    if k < |init| {
      InOrderAt(init, k);
    } else if init != [] {
      InOrderAt(init, k - 1);
      assert Next((k - 1) % U64) == k % U64;
    }
  }

  /** A sending end: every byte read is on the wire unless its read loop died first; frames are numbered in order. */
  ghost predicate SenderAt(sent: seq<Message>, taken: Bytes, known: bool, reader: Option<nat>, c: Uuid) {
    var payload := Payload(sent, c);
    var numbers := Numbers(sent, c);
    && payload <= taken
    && InOrder(numbers) && Hushed(sent, c)
    && (reader.Some? ==> known && payload == taken && !Closed(sent, c) && reader.value == After(numbers))
    && (Closed(sent, c) ==> payload == taken)
    && (!known ==> taken == [] && numbers == [] && !Closed(sent, c))
  }

  ghost predicate Sender(e: Endpoint, c: Uuid) {
    SenderAt(e.sent, At(e.taken, c), c in e.taken, ReaderOf(e, c), c)
  }

  /** A receiving end: what it wrote is what the dispatched frames carry, whole while its session lives. */
  ghost predicate ReceiverAt(frames: seq<Message>, received: nat, up: bool, put: Bytes, c: Uuid) {
    && received <= |frames|
    && put <= Payload(frames[..received], c)
    && (up ==> put == Payload(frames[..received], c))
  }

  ghost predicate Receiver(frames: seq<Message>, e: Endpoint, c: Uuid) {
    ReceiverAt(frames, e.received, e.up, At(e.put, c), c)
  }

  /** A connection is announced once, and dialled at most once per announcement. */
  ghost predicate OnceAt(frames: seq<Message>, received: nat, accepted: bool, dialing: bool, dialled: bool, c: Uuid) {
    && received <= |frames|
    && Announced(frames, c) <= (if accepted then 1 else 0)
    && Announced(frames[..received], c) >= (if dialing then 1 else 0) + (if dialled then 1 else 0)
  }

  ghost predicate Once(s: State, c: Uuid) {
    OnceAt(s.relay.sent, s.local.received, c in s.relay.taken, c in s.local.dialing, c in s.local.taken, c)
  }

  ghost predicate GoodAt(s: State, c: Uuid) {
    && Sender(s.relay, c) && Sender(s.local, c)
    && Receiver(s.relay.sent, s.local, c) && Receiver(s.local.sent, s.relay, c)
    && Once(s, c)
  }

  // ---- every step keeps them ----

  /** A frame that is neither data nor a close of this connection leaves its sender as it was. */
  lemma PushSender(sent: seq<Message>, m: Message, taken: Bytes, known: bool, reader: Option<nat>, k: Uuid)
    requires SenderAt(sent, taken, known, reader, k)
    requires !(m.TcpData? && m.connectionId == k) && !Closes(m, k)
    ensures SenderAt(sent + [m], taken, known, reader, k)
  {
    AppendFrame(sent, m, k);
  }

  lemma OpenedSender(e: Endpoint, c: Uuid, k: Uuid)
    requires Sender(e, k) && c !in e.taken
    ensures Sender(Opened(e, c), k)
  {
  }

  /** A running read loop sends what it read, numbered next. */
  lemma DataSender(sent: seq<Message>, data: Bytes, taken: Bytes, number: nat, c: Uuid)
    requires SenderAt(sent, taken, true, Some(number), c)
    ensures SenderAt(sent + [TcpData(c, data, number)], taken + data, true, Some(Next(number)), c)
  {
    AppendFrame(sent, TcpData(c, data, number), c);
    var numbers := Numbers(sent, c);
    assert (numbers + [number])[..|numbers|] == numbers;
  }

  /** A running read loop that read everything closes the connection and stops. */
  lemma CloseSender(sent: seq<Message>, reason: CloseReason, taken: Bytes, number: nat, c: Uuid)
    requires SenderAt(sent, taken, true, Some(number), c)
    ensures SenderAt(sent + [TcpClose(c, reason)], taken, true, None, c)
  {
    AppendFrame(sent, TcpClose(c, reason), c);
  }

  /** An end that only lost read loops sends as before. */
  lemma KeepSender(e: Endpoint, e': Endpoint, k: Uuid)
    requires Sender(e, k) && e'.sent == e.sent && e'.taken == e.taken
    requires ReaderOf(e', k) == ReaderOf(e, k) || ReaderOf(e', k) == None
    ensures Sender(e', k)
  {
  }

  lemma FinishSender(side: Side, e: Endpoint, c: Uuid, reason: CloseReason, delivered: bool, k: Uuid)
    requires Sender(e, k) && c in e.readers
    ensures Sender(Finish(side, e, c, reason, delivered), k)
  {
    if !delivered {
      KeepSender(e, Finish(side, e, c, reason, false), k);
    } else if c == k {
      CloseSender(e.sent, reason, At(e.taken, c), e.readers[c], c);
    } else {
      PushSender(e.sent, TcpClose(c, reason), At(e.taken, k), k in e.taken, ReaderOf(e, k), k);
    }
  }

  lemma GotSender(e: Endpoint, c: Uuid, data: Bytes, delivered: bool, k: Uuid)
    requires Sender(e, k) && c in e.readers
    ensures Sender(ReadOnce(Relay, e, c, Got(data), delivered), k)
  {
    if !delivered {
    } else if c == k {
      DataSender(e.sent, data, At(e.taken, c), e.readers[c], c);
    } else {
      PushSender(e.sent, TcpData(c, data, e.readers[c]), At(e.taken, k), k in e.taken, ReaderOf(e, k), k);
    }
  }

  lemma ReadSender(side: Side, e: Endpoint, c: Uuid, r: ReadResult, delivered: bool, k: Uuid)
    requires Sender(e, k) && c in e.readers
    ensures Sender(ReadOnce(side, e, c, r, delivered), k)
  {
    match r
    case Got(data) =>
      GotSender(e, c, data, delivered, k);
      assert ReadOnce(side, e, c, r, delivered) == ReadOnce(Relay, e, c, r, delivered);
    case Eof => FinishSender(side, e, c, Normal, delivered, k);
    case Broke(text) =>
      if side == Relay {
        FinishSender(side, e, c, Failed(text), delivered, k);
      } else {
        KeepSender(e, ReadOnce(side, e, c, r, delivered), k);
      }
  }

  /** Dispatching sends and reads nothing, writes at most the frame's bytes, and all of them if the session lives. */
  ghost predicate Dispatched(side: Side, e: Endpoint, m: Message, e': Endpoint, k: Uuid) {
    && e'.sent == e.sent && e'.taken == e.taken && e'.received == e.received
    && (ReaderOf(e', k) == ReaderOf(e, k) || ReaderOf(e', k) == None)
    && At(e'.put, k) <= At(e.put, k) + Piece(m, k)
    && (e'.up ==> At(e'.put, k) == At(e.put, k) + Piece(m, k))
    && (k in e'.dialing <==> k in e.dialing || (side == Local && m.TcpConnect? && m.connectionId == k))
  }

  lemma DispatchFacts(side: Side, e: Endpoint, m: Message, cut: Option<nat>, k: Uuid)
    requires e.up
    ensures Dispatched(side, e, m, Dispatch(side, e, m, cut), k)
  {
  }

  lemma DispatchReceiver(frames: seq<Message>, received: nat, put: Bytes, up: bool, put': Bytes, k: Uuid)
    requires ReceiverAt(frames, received, true, put, k) && received < |frames|
    requires put' <= put + Piece(frames[received], k)
    requires up ==> put' == put + Piece(frames[received], k)
    ensures ReceiverAt(frames, received + 1, up, put', k)
  {
    AppendFrame(frames[..received], frames[received], k);
    assert frames[..received + 1] == frames[..received] + [frames[received]];
  }

  lemma DispatchOnce(frames: seq<Message>, received: nat, accepted: bool, dialing: bool, dialled: bool, k: Uuid)
    requires OnceAt(frames, received, accepted, dialing, dialled, k) && received < |frames|
    ensures OnceAt(frames, received + 1, accepted,
                   dialing || (frames[received].TcpConnect? && frames[received].connectionId == k), dialled, k)
  {
    AppendFrame(frames[..received], frames[received], k);
    assert frames[..received + 1] == frames[..received] + [frames[received]];
  }

  lemma DeliveryOf(s: State, side: Side, cut: Option<nat>, k: Uuid) returns (e': Endpoint)
    requires Enabled(s, Delivering(side, cut))
    ensures Step(s, Delivering(side, cut)) == Update(s, side, e'.(received := e'.received + 1))
    ensures Dispatched(side, End(s, side), End(s, Other(side)).sent[End(s, side).received], e', k)
  {
    var e := End(s, side);
    var m := End(s, Other(side)).sent[e.received];
    DispatchFacts(side, e, m, cut, k);
    return Dispatch(side, e, m, cut);
  }

  lemma DeliverSender(side: Side, e: Endpoint, m: Message, e': Endpoint, k: Uuid)
    requires Sender(e, k) && Dispatched(side, e, m, e', k)
    ensures Sender(e'.(received := e'.received + 1), k)
  {
    KeepSender(e, e'.(received := e'.received + 1), k);
  }

  lemma DeliverReceiver(side: Side, frames: seq<Message>, e: Endpoint, e': Endpoint, k: Uuid)
    requires Receiver(frames, e, k) && e.up && e.received < |frames|
    requires Dispatched(side, e, frames[e.received], e', k)
    ensures Receiver(frames, e'.(received := e'.received + 1), k)
  {
    DispatchReceiver(frames, e.received, At(e.put, k), e'.up, At(e'.put, k), k);
  }

  lemma DeliverOnce(s: State, e': Endpoint, k: Uuid)
    requires Once(s, k) && s.local.received < |s.relay.sent|
    requires Dispatched(Local, s.local, s.relay.sent[s.local.received], e', k)
    ensures Once(s.(local := e'.(received := e'.received + 1)), k)
  {
    var e := s.local;
    DispatchOnce(s.relay.sent, e.received, k in s.relay.taken, k in e.dialing, k in e.taken, k);
  }

  lemma DeliverGood(s: State, side: Side, cut: Option<nat>, k: Uuid)
    requires GoodAt(s, k) && Enabled(s, Delivering(side, cut))
    ensures GoodAt(Step(s, Delivering(side, cut)), k)
  {
    var e' := DeliveryOf(s, side, cut, k);
    var e, frames := End(s, side), End(s, Other(side)).sent;
    DeliverSender(side, e, frames[e.received], e', k);
    DeliverReceiver(side, frames, e, e', k);
    if side == Local {
      DeliverOnce(s, e', k);
    }
  }

  /** More frames behind the dispatched ones change nothing for their receiver. */
  lemma GrowReceiver(frames: seq<Message>, m: Message, received: nat, up: bool, put: Bytes, k: Uuid)
    requires ReceiverAt(frames, received, up, put, k)
    ensures ReceiverAt(frames + [m], received, up, put, k)
    ensures received <= |frames| && (frames + [m])[..received] == frames[..received]
  {
    assert (frames + [m])[..received] == frames[..received];
  }

  lemma AcceptGood(s: State, c: Uuid, addr: string, k: Uuid)
    requires GoodAt(s, k) && c !in s.relay.taken
    ensures GoodAt(s.(relay := Accept(s.relay, c, addr, true)), k)
  {
    var r, l, m := s.relay, s.local, TcpConnect(c, addr);
    PushSender(r.sent, m, At(r.taken, k), k in r.taken, ReaderOf(r, k), k);
    OpenedSender(Push(r, m, true), c, k);
    GrowReceiver(r.sent, m, l.received, l.up, At(l.put, k), k);
    AppendFrame(r.sent, m, k);
  }

  /** A change that dispatches, writes, dials and opens nothing, and announces nothing. */
  ghost predicate Quiet(e: Endpoint, e': Endpoint) {
    && e'.received == e.received && e'.put == e.put && (e'.up ==> e.up)
    && e'.dialing <= e.dialing && e'.taken.Keys == e.taken.Keys
    && (e'.sent == e.sent || exists m: Message :: !m.TcpConnect? && e'.sent == e.sent + [m])
  }

  lemma QuietGood(s: State, side: Side, e': Endpoint, k: Uuid)
    requires GoodAt(s, k) && Quiet(End(s, side), e') && Sender(e', k)
    ensures GoodAt(Update(s, side, e'), k)
  {
    var e, o := End(s, side), End(s, Other(side));
    if e'.sent != e.sent {
      var m: Message :| !m.TcpConnect? && e'.sent == e.sent + [m];
      GrowReceiver(e.sent, m, o.received, o.up, At(o.put, k), k);
      AppendFrame(e.sent, m, k);
    }
  }

  lemma PushQuiet(e: Endpoint, m: Message, delivered: bool, k: Uuid)
    requires Sender(e, k) && !m.TcpConnect? && !m.TcpData? && !m.TcpClose?
    ensures Sender(Push(e, m, delivered), k) && Quiet(e, Push(e, m, delivered))
  {
    if delivered {
      PushSender(e.sent, m, At(e.taken, k), k in e.taken, ReaderOf(e, k), k);
      assert Push(e, m, delivered).sent == e.sent + [m];
    }
  }

  lemma ReadQuiet(side: Side, e: Endpoint, c: Uuid, r: ReadResult, delivered: bool)
    requires c in e.readers && c in e.taken
    ensures Quiet(e, ReadOnce(side, e, c, r, delivered))
  {
    var e' := ReadOnce(side, e, c, r, delivered);
    assert e'.taken.Keys == e.taken.Keys;
    if e'.sent != e.sent {
      assert e'.sent == e.sent + [e'.sent[|e.sent|]];
    }
  }

  lemma DialGood(s: State, c: Uuid, connected: bool, delivered: bool, k: Uuid)
    requires GoodAt(s, k) && c in s.local.dialing && GoodAt(s, c)
    ensures GoodAt(s.(local := Dial(s.local, c, connected, delivered)), k)
  {
    if connected {
      PrefixOf(s.relay.sent, s.local.received, c);
      OpenedSender(s.local, c, k);
    } else {
      var idle := s.local.(dialing := s.local.dialing - {c});
      PushQuiet(idle, TcpConnectAck(c, false), delivered, k);
      QuietGood(s, Local, Push(idle, TcpConnectAck(c, false), delivered), k);
    }
  }

  lemma InsertGood(s: State, side: Side, c: Uuid, delivered: bool, k: Uuid)
    requires GoodAt(s, k)
    ensures GoodAt(Update(s, side, Insert(side, End(s, side), c, delivered)), k)
  {
    var e := End(s, side);
    PushQuiet(e.(conns := e.conns + {c}, opening := e.opening - {c}), TcpConnectAck(c, true), delivered && side == Local, k);
    QuietGood(s, side, Insert(side, e, c, delivered), k);
  }

  lemma ReadGood(s: State, side: Side, c: Uuid, r: ReadResult, delivered: bool, k: Uuid)
    requires GoodAt(s, k) && GoodAt(s, c) && c in End(s, side).readers
    ensures GoodAt(Update(s, side, ReadOnce(side, End(s, side), c, r, delivered)), k)
  {
    var e := End(s, side);
    ReadSender(side, e, c, r, delivered, k);
    ReadQuiet(side, e, c, r, delivered);
    QuietGood(s, side, ReadOnce(side, e, c, r, delivered), k);
  }

  lemma SendGood(s: State, side: Side, frame: Message, k: Uuid)
    requires GoodAt(s, k) && !AboutTcp(frame)
    ensures GoodAt(Update(s, side, Push(End(s, side), frame, true)), k)
  {
    PushQuiet(End(s, side), frame, true, k);
    QuietGood(s, side, Push(End(s, side), frame, true), k);
  }

  lemma StopGood(s: State, side: Side, e': Endpoint, k: Uuid)
    requires GoodAt(s, k)
    requires e' == End(s, side).(conns := e'.conns, readers := e'.readers, up := e'.up) && (e'.up ==> End(s, side).up)
    requires ReaderOf(e', k) == ReaderOf(End(s, side), k) || ReaderOf(e', k) == None
    ensures GoodAt(Update(s, side, e'), k)
  {
    KeepSender(End(s, side), e', k);
    QuietGood(s, side, e', k);
  }

  lemma StepGoodAt(s: State, e: Event, k: Uuid)
    requires Enabled(s, e) && GoodAt(s, k)
    requires e.Dialing? || e.Reading? ==> GoodAt(s, e.c)
    ensures GoodAt(Step(s, e), k)
  {
    match e
    case Accepting(c, addr, delivered) =>
      if delivered {
        AcceptGood(s, c, addr, k);
      }
    case Dialing(c, connected, delivered) => DialGood(s, c, connected, delivered, k);
    case Inserting(side, c, delivered) => InsertGood(s, side, c, delivered, k);
    case Reading(side, c, r, delivered) => ReadGood(s, side, c, r, delivered, k);
    case Delivering(side, cut) => DeliverGood(s, side, cut, k);
    case Sending(side, frame) => SendGood(s, side, frame, k);
    case Halting(side) => StopGood(s, side, End(s, side).(up := false), k);
    case Clearing(aborted) =>
      StopGood(s, Relay, s.relay.(conns := {}, readers := s.relay.readers - aborted), k);
  }

  /** Every state the relay and a client reach is good for every connection. */
  ghost predicate Good(s: State) {
    forall c :: GoodAt(s, c)
  }

  lemma StepGood(s: State, e: Event)
    requires Enabled(s, e) && Good(s)
    ensures Good(Step(s, e))
  {
    forall k ensures GoodAt(Step(s, e), k) {
      assert GoodAt(s, k) && (e.Dialing? || e.Reading? ==> GoodAt(s, e.c));
      StepGoodAt(s, e, k);
    }
  }

  lemma {:induction false} RunGood(s: State, events: seq<Event>)
    requires Legal(s, events) && Good(s)
    ensures Good(Run(s, events))
    decreases |events|
  {
    if events != [] {
      StepGood(s, events[0]);
      RunGood(Step(s, events[0]), events[1..]);
    }
  }

  lemma Reachable(events: seq<Event>)
    requires Legal(Start(), events)
    ensures Good(Run(Start(), events))
  {
    assert Good(Start());
    RunGood(Start(), events);
  }

  /** In both directions of every run, what is written for a connection at one end is a prefix of what was read for
      it at the other. */
  lemma WrittenIsPrefixOfRead(events: seq<Event>, side: Side, c: Uuid)
    requires Legal(Start(), events)
    ensures var s := Run(Start(), events);
      At(End(s, side).put, c) <= At(End(s, Other(side)).taken, c)
  {
    Reachable(events);
    var s := Run(Start(), events);
    assert GoodAt(s, c);
    PrefixOf(End(s, Other(side)).sent, End(s, side).received, c);
  }

  /** The k-th data frame of a connection carries sequence k modulo 2^64. */
  lemma NumberedInOrder(events: seq<Event>, side: Side, c: Uuid, k: nat)
    requires Legal(Start(), events) && k < |Numbers(End(Run(Start(), events), side).sent, c)|
    ensures Numbers(End(Run(Start(), events), side).sent, c)[k] == k % U64
  {
    Reachable(events);
    var s := Run(Start(), events);
    assert GoodAt(s, c);
    InOrderAt(Numbers(End(s, side).sent, c), k);
  }

  /** A close frame that arrives at a living session arrives after every byte: nothing read is missing. */
  lemma CloseArrivesLast(events: seq<Event>, side: Side, c: Uuid)
    requires Legal(Start(), events)
    requires var s := Run(Start(), events);
      End(s, side).up && End(s, side).received <= |End(s, Other(side)).sent|
      && Closed(End(s, Other(side)).sent[..End(s, side).received], c)
    ensures var s := Run(Start(), events);
      At(End(s, side).put, c) == At(End(s, Other(side)).taken, c)
  {
    Reachable(events);
    var s := Run(Start(), events);
    assert GoodAt(s, c);
    PrefixOf(End(s, Other(side)).sent, End(s, side).received, c);
  }

  /** While a read loop runs, a living session that has caught up has written everything read. */
  lemma CaughtUpIsWhole(events: seq<Event>, side: Side, c: Uuid)
    requires Legal(Start(), events)
    requires var s := Run(Start(), events);
      && End(s, side).up && End(s, side).received == |End(s, Other(side)).sent|
      && c in End(s, Other(side)).readers
    ensures var s := Run(Start(), events);
      At(End(s, side).put, c) == At(End(s, Other(side)).taken, c)
  {
    Reachable(events);
    var s := Run(Start(), events);
    assert GoodAt(s, c);
    var frames := End(s, Other(side)).sent;
    assert frames[..|frames|] == frames;
  }

  lemma StepKeepsSent(s: State, e: Event, side: Side)
    requires Enabled(s, e)
    ensures End(s, side).sent <= End(Step(s, e), side).sent
  {
  }

  lemma {:induction false} RunKeepsSent(s: State, events: seq<Event>, side: Side)
    requires Legal(s, events)
    ensures End(s, side).sent <= End(Run(s, events), side).sent
    decreases |events|
  {
    if events != [] {
      StepKeepsSent(s, events[0], side);
      RunKeepsSent(Step(s, events[0]), events[1..], side);
    }
  }

  /** The frame an end dispatches in this step. */
  function Incoming(s: State, side: Side): Message
    requires End(s, side).received < |End(s, Other(side)).sent|
  {
    End(s, Other(side)).sent[End(s, side).received]
  }

  // ---- how a connection works ----

  /** Both sessions live and every frame has been dispatched. */
  predicate Drained(s: State) {
    && s.relay.up && s.local.up
    && s.relay.received == |s.local.sent| && s.local.received == |s.relay.sent|
  }

  /** A connection is established: read at one end, known at the other. */
  predicate Connected(s: State, side: Side, c: Uuid) {
    c in End(s, Other(side)).readers && c in End(s, side).conns
  }

  lemma LegalFirst(s: State, e: Event, rest: seq<Event>)
    requires Enabled(s, e) && Legal(Step(s, e), rest)
    ensures Legal(s, [e] + rest) && Run(s, [e] + rest) == Run(Step(s, e), rest)
  {
    assert ([e] + rest)[1..] == rest;
  }

  /** What one end reads from a connection, the other writes to it, and to nothing else. */
  lemma ReadIsWritten(s: State, side: Side, c: Uuid, data: Bytes) returns (events: seq<Event>)
    requires Drained(s) && Connected(s, side, c) && 1 <= |data| <= BUFFER
    ensures Legal(s, events)
    ensures var s' := Run(s, events);
      && Drained(s') && Connected(s', side, c)
      && End(s', side).put == End(s, side).put[c := At(End(s, side).put, c) + data]
      && End(s', Other(side)).put == End(s, Other(side)).put
      && End(s', side).conns == End(s, side).conns && End(s', side).readers == End(s, side).readers
      && End(s', Other(side)).conns == End(s, Other(side)).conns && End(s', side).sent == End(s, side).sent
  {
    var read, deliver := Reading(Other(side), c, Got(data), true), Delivering(side, None);
    var s1 := Step(s, read);
    assert End(s1, Other(side)).sent[End(s, side).received] == TcpData(c, data, End(s, Other(side)).readers[c]);
    var s2 := Step(s1, deliver);
    LegalFirst(s1, deliver, []);
    LegalFirst(s, read, [deliver] + []);
    events := [read] + ([deliver] + []);
  }

  /** After any continuation, an end that lives and has dispatched the frame of a read has written everything read up
      to and with it, in order. */
  lemma ReadReachesOtherEnd(s: State, side: Side, c: Uuid, data: Bytes, later: seq<Event>)
    requires Good(s) && Enabled(s, Reading(Other(side), c, Got(data), true))
    requires Legal(Step(s, Reading(Other(side), c, Got(data), true)), later)
    requires var t := Run(Step(s, Reading(Other(side), c, Got(data), true)), later);
      End(t, side).up && End(t, side).received > |End(s, Other(side)).sent|
    ensures var t := Run(Step(s, Reading(Other(side), c, Got(data), true)), later);
      At(End(s, Other(side)).taken, c) + data <= At(End(t, side).put, c)
  {
    var near := Other(side);
    var read := Reading(near, c, Got(data), true);
    var s1 := Step(s, read);
    var t := Run(s1, later);
    RunKeepsSent(s1, later, near);
    StepGood(s, read);
    RunGood(s1, later);
    assert GoodAt(s1, c) && GoodAt(t, c);
    WrittenBehind(s1, t, side, c);
  }

  lemma WrittenBehind(s: State, t: State, side: Side, c: Uuid)
    requires Sender(End(s, Other(side)), c) && c in End(s, Other(side)).readers
    requires Receiver(End(t, Other(side)).sent, End(t, side), c) && End(t, side).up
    requires End(s, Other(side)).sent <= End(t, Other(side)).sent && End(t, side).received >= |End(s, Other(side)).sent|
    ensures At(End(s, Other(side)).taken, c) <= At(End(t, side).put, c)
  {
    var before, seen := End(s, Other(side)).sent, End(t, Other(side)).sent[..End(t, side).received];
    assert seen[..|before|] == before;
    PrefixOf(seen, |before|, c);
  }

  /** The relay's half of opening a connection, up to the client's task that dials. */
  lemma Announce(s: State, c: Uuid, addr: string) returns (events: seq<Event>, s': State)
    requires Drained(s) && c !in s.relay.taken
    ensures Legal(s, events) && Run(s, events) == s' && Drained(s')
    ensures c in s'.relay.readers && c in s'.relay.conns && c in s'.local.dialing
    ensures s'.relay.sent == s.relay.sent + [TcpConnect(c, addr)]
  {
    var s1 := Step(s, Accepting(c, addr, true));
    var s2 := Step(s1, Inserting(Relay, c, true));
    s' := Step(s2, Delivering(Local, None));
    LegalFirst(s2, Delivering(Local, None), []);
    LegalFirst(s1, Inserting(Relay, c, true), [Delivering(Local, None)] + []);
    events := [Inserting(Relay, c, true)] + ([Delivering(Local, None)] + []);
    LegalFirst(s, Accepting(c, addr, true), events);
    events := [Accepting(c, addr, true)] + events;
  }

  /** The client's half: dial, enter the table, acknowledge. */
  lemma Acknowledge(s: State, c: Uuid) returns (events: seq<Event>, s': State)
    requires Drained(s) && c in s.relay.readers && c in s.relay.conns && c in s.local.dialing
    ensures Legal(s, events) && Run(s, events) == s' && Drained(s')
    ensures Connected(s', Relay, c) && Connected(s', Local, c)
  {
    var s1 := Step(s, Dialing(c, true, true));
    var s2 := Step(s1, Inserting(Local, c, true));
    s' := Step(s2, Delivering(Relay, None));
    LegalFirst(s2, Delivering(Relay, None), []);
    LegalFirst(s1, Inserting(Local, c, true), [Delivering(Relay, None)] + []);
    events := [Inserting(Local, c, true)] + ([Delivering(Relay, None)] + []);
    LegalFirst(s, Dialing(c, true, true), events);
    events := [Dialing(c, true, true)] + events;
  }

  /** A dial the local service refuses takes the connection back at the relay: out of the table, its reader aborted,
      every other connection untouched. */
  lemma RefusedDial(s: State, c: Uuid, cut: Option<nat>) returns (s': State)
    requires Drained(s) && c in s.local.dialing && c in s.relay.conns && c in s.relay.readers
    ensures Legal(s, [Dialing(c, false, true), Delivering(Relay, cut)])
    ensures s' == Run(s, [Dialing(c, false, true), Delivering(Relay, cut)]) && Drained(s')
    ensures s'.relay.conns == s.relay.conns - {c} && s'.relay.readers == s.relay.readers - {c}
    ensures s'.local.dialing == s.local.dialing - {c} && c !in s'.local.dialing
    ensures s'.relay.put == s.relay.put && s'.relay.taken == s.relay.taken && s'.relay.sent == s.relay.sent
    ensures s'.local.conns == s.local.conns && s'.local.readers == s.local.readers && s'.local.put == s.local.put
  {
    var s1 := Step(s, Dialing(c, false, true));
    assert Incoming(s1, Relay) == TcpConnectAck(c, false);
    s' := Step(s1, Delivering(Relay, cut));
    LegalFirst(s1, Delivering(Relay, cut), []);
    LegalFirst(s, Dialing(c, false, true), [Delivering(Relay, cut)] + []);
    assert [Dialing(c, false, true)] + ([Delivering(Relay, cut)] + []) == [Dialing(c, false, true), Delivering(Relay, cut)];
  }

  predicate About(m: Message, c: Uuid) {
    AboutTcp(m) && m.connectionId == c
  }

  lemma SilentStep(s: State, e: Event, c: Uuid)
    requires Enabled(s, e) && c in s.relay.taken && c !in s.relay.readers
    ensures var s' := Step(s, e);
      && c in s'.relay.taken && c !in s'.relay.readers
      && (s'.relay.sent == s.relay.sent || exists m: Message :: !About(m, c) && s'.relay.sent == s.relay.sent + [m])
  {
    var s' := Step(s, e);
    if s'.relay.sent != s.relay.sent {
      var m := s'.relay.sent[|s.relay.sent|];
      assert s'.relay.sent == s.relay.sent + [m] && !About(m, c);
    }
  }

  /** A public connection whose reader is gone is never mentioned again, in any continuation. */
  lemma {:induction false} SilentForever(s: State, events: seq<Event>, c: Uuid)
    requires Legal(s, events) && c in s.relay.taken && c !in s.relay.readers
    ensures var t := Run(s, events);
      s.relay.sent <= t.relay.sent && forall j :: |s.relay.sent| <= j < |t.relay.sent| ==> !About(t.relay.sent[j], c)
    decreases |events|
  {
    if events != [] {
      SilentStep(s, events[0], c);
      SilentForever(Step(s, events[0]), events[1..], c);
    }
  }

  /** After a refused dial, whatever happens next, the relay says nothing more about the connection. */
  lemma RefusedDialSilences(s: State, c: Uuid, cut: Option<nat>, events: seq<Event>)
    requires Good(s) && Drained(s) && c in s.local.dialing && c in s.relay.conns && c in s.relay.readers
    requires Legal(s, [Dialing(c, false, true), Delivering(Relay, cut)])
    requires Legal(Run(s, [Dialing(c, false, true), Delivering(Relay, cut)]), events)
    ensures var t := Run(Run(s, [Dialing(c, false, true), Delivering(Relay, cut)]), events);
      s.relay.sent <= t.relay.sent && forall j :: |s.relay.sent| <= j < |t.relay.sent| ==> !About(t.relay.sent[j], c)
  {
    assert GoodAt(s, c);
    var s' := RefusedDial(s, c, cut);
    SilentForever(s', events, c);
  }

  /** The relay's cleanup empties its table and stops the readers it aborts, no others; a connection whose reader was
      aborted is never mentioned again, in any continuation. */
  lemma CleanupSilences(s: State, aborted: set<Uuid>, events: seq<Event>, c: Uuid)
    requires Enabled(s, Clearing(aborted)) && Legal(Step(s, Clearing(aborted)), events)
    ensures var s' := Step(s, Clearing(aborted));
      && s'.relay.conns == {} && (c in s'.relay.readers <==> c in s.relay.readers && c !in aborted)
      && s'.relay.sent == s.relay.sent && s'.local == s.local
    ensures c in aborted && c in s.relay.taken ==>
              var t := Run(Step(s, Clearing(aborted)), events);
              forall j :: |s.relay.sent| <= j < |t.relay.sent| ==> !About(t.relay.sent[j], c)
  {
    if c in aborted && c in s.relay.taken {
      SilentForever(Step(s, Clearing(aborted)), events, c);
    }
  }

  /** With the writer gone, an accepted socket is dropped without a trace; a failed dial leaves only its announcement
      answered; a finished one still opens the connection. No end sends anything. */
  lemma WriterGone(s: State, e: Event, side: Side)
    requires Enabled(s, e)
    requires (e.Accepting? || e.Dialing? || e.Inserting?) && !e.delivered
    ensures End(Step(s, e), side).sent == End(s, side).sent
    ensures e.Accepting? ==> Step(s, e) == s
    ensures e.Dialing? && !e.connected ==> Step(s, e) == s.(local := s.local.(dialing := s.local.dialing - {e.c}))
    ensures e.Inserting? ==> e.c in End(Step(s, e), e.side).conns && e.c !in End(Step(s, e), e.side).opening
  {
  }

  /** A frame that asks nothing of an end leaves it as it was: a successful acknowledgement at the relay, any
      acknowledgement at the client, an announcement at the relay, and every frame that is not about TCP and does not
      end the session. */
  lemma AsksNothing(s: State, side: Side, cut: Option<nat>)
    requires Enabled(s, Delivering(side, cut))
    requires var m := Incoming(s, side);
      || (m.TcpConnectAck? && (side == Local || m.success)) || (m.TcpConnect? && side == Relay)
      || (!AboutTcp(m) && !m.Disconnect? && !m.Error?)
    ensures Step(s, Delivering(side, cut))
         == Update(s, side, End(s, side).(received := End(s, side).received + 1))
  {
  }

  // ---- how a connection ends ----

  predicate Announces(side: Side, r: ReadResult, delivered: bool) {
    delivered && (r.Eof? || (r.Broke? && side == Relay))
  }

  /** A read loop that ends tells the other end, except when a local read fails in the client or the channel is gone.
      The relay then also drops the writer, the client keeps it. */
  lemma EndIsAnnounced(side: Side, e: Endpoint, c: Uuid, r: ReadResult, delivered: bool)
    requires c in e.readers && !r.Got?
    ensures var e' := ReadOnce(side, e, c, r, delivered);
      && c !in e'.readers && e'.taken == e.taken && e'.conns == (if side == Relay then e.conns - {c} else e.conns)
      && e'.sent == if Announces(side, r, delivered)
                    then e.sent + [TcpClose(c, if r.Eof? then Normal else Failed(r.text))] else e.sent
  {
  }

  /** A failed read in the client leaves the other direction working: what the relay reads is still written. */
  lemma FailedLocalReadKeepsWriting(s: State, c: Uuid, text: string, delivered: bool, data: Bytes)
    returns (events: seq<Event>)
    requires Drained(s) && Connected(s, Local, c) && c in s.local.readers && 1 <= |data| <= BUFFER
    ensures Legal(s, [Reading(Local, c, Broke(text), delivered)] + events)
    ensures var t := Run(s, [Reading(Local, c, Broke(text), delivered)] + events);
      && t.local.put == s.local.put[c := At(s.local.put, c) + data] && c !in t.local.readers
      && t.local.sent == s.local.sent && t.local.up && t.relay.up
  {
    var read := Reading(Local, c, Broke(text), delivered);
    var s1 := Step(s, read);
    events := ReadIsWritten(s1, Local, c, data);
    LegalFirst(s, read, events);
  }

  lemma CloseDrops(s: State, side: Side, cut: Option<nat>, c: Uuid)
    requires Enabled(s, Delivering(side, cut)) && Closes(End(s, Other(side)).sent[End(s, side).received], c)
    ensures var s' := Step(s, Delivering(side, cut));
      && End(s', side).conns == End(s, side).conns - {c}
      && End(s', side).readers == (if c in End(s, side).conns then End(s, side).readers - {c} else End(s, side).readers)
      && End(s', side).put == End(s, side).put && End(s', side).up && End(s', side).sent == End(s, side).sent
  {
  }

  lemma WrittenSoFar(s: State, t: State, side: Side, c: Uuid)
    requires Sender(End(s, Other(side)), c) && c in End(s, Other(side)).readers
    requires Receiver(End(t, Other(side)).sent, End(t, side), c) && End(t, side).up
    requires End(s, Other(side)).sent <= End(t, Other(side)).sent && End(t, side).received == |End(s, Other(side)).sent|
    ensures At(End(t, side).put, c) == At(End(s, Other(side)).taken, c)
  {
    var before, frames := End(s, Other(side)).sent, End(t, Other(side)).sent;
    assert frames[..|before|] == before;
  }

  /** The close frame follows everything sent before the end, and stays there. */
  lemma CloseOnItsWay(s: State, near: Side, c: Uuid, r: ReadResult, later: seq<Event>)
    requires c in End(s, near).readers && Announces(near, r, true)
    requires Legal(Step(s, Reading(near, c, r, true)), later)
    ensures var before, frames := End(s, near).sent, End(Run(Step(s, Reading(near, c, r, true)), later), near).sent;
      before <= frames && |before| < |frames| && Closes(frames[|before|], c)
  {
    EndIsAnnounced(near, End(s, near), c, r, true);
    RunKeepsSent(Step(s, Reading(near, c, r, true)), later, near);
  }

  /** An announced end arrives behind the last byte: when the other end, still living, dispatches the close, it has
      written exactly what was read before the end, and the connection leaves its table. */
  lemma EndArrivesBehindLastByte(s: State, side: Side, c: Uuid, r: ReadResult, later: seq<Event>, cut: Option<nat>)
    requires Good(s) && c in End(s, Other(side)).readers && Announces(Other(side), r, true)
    requires Legal(Step(s, Reading(Other(side), c, r, true)), later)
    requires var t := Run(Step(s, Reading(Other(side), c, r, true)), later);
      End(t, side).up && End(t, side).received == |End(s, Other(side)).sent|
    ensures var t := Run(Step(s, Reading(Other(side), c, r, true)), later);
      && Enabled(t, Delivering(side, cut))
      && At(End(Step(t, Delivering(side, cut)), side).put, c) == At(End(s, Other(side)).taken, c)
      && c !in End(Step(t, Delivering(side, cut)), side).conns
      && (c in End(t, side).conns ==> c !in End(Step(t, Delivering(side, cut)), side).readers)
  {
    var near := Other(side);
    var read := Reading(near, c, r, true);
    var s1 := Step(s, read);
    var t := Run(s1, later);
    CloseOnItsWay(s, near, c, r, later);
    StepGood(s, read);
    RunGood(s1, later);
    assert GoodAt(s, c) && GoodAt(t, c);
    WrittenSoFar(s, t, side, c);
    CloseDrops(t, side, cut, c);
  }

  // ---- when a session survives ----

  predicate DataFor(m: Message, c: Uuid) {
    m.TcpData? && m.connectionId == c
  }

  /** The end dispatches a data frame of a connection it does not know. */
  predicate Stray(s: State, e: Event, side: Side)
    requires Enabled(s, e)
  {
    e.Delivering? && e.side == side && Incoming(s, side).TcpData? && Incoming(s, side).connectionId !in End(s, side).conns
  }

  /** The websocket stops the end, the other end says goodbye or reports an error, or a write to a local socket fails. */
  predicate Fault(s: State, e: Event, side: Side)
    requires Enabled(s, e)
  {
    || (e.Halting? && e.side == side)
    || (e.Delivering? && e.side == side &&
          (Incoming(s, side).Disconnect? || Incoming(s, side).Error?
           || (Incoming(s, side).TcpData? && !Stray(s, e, side) && e.cut.Some? && e.cut.value <= |Incoming(s, side).data|)))
  }

  ghost predicate Faultless(s: State, events: seq<Event>, side: Side)
    requires Legal(s, events)
    decreases |events|
  {
    events != [] ==> !Fault(s, events[0], side) && Faultless(Step(s, events[0]), events[1..], side)
  }

  /** Every dispatched data frame finds its connection. */
  ghost predicate NoStray(s: State, events: seq<Event>, side: Side)
    requires Legal(s, events)
    decreases |events|
  {
    events != [] ==> !Stray(s, events[0], side) && NoStray(Step(s, events[0]), events[1..], side)
  }

  /** Every dispatched data frame finds its connection, save those of `c`. */
  ghost predicate NoOtherStray(s: State, events: seq<Event>, side: Side, c: Uuid)
    requires Legal(s, events)
    decreases |events|
  {
    events != [] ==>
      && (Stray(s, events[0], side) ==> Incoming(s, side).connectionId == c)
      && NoOtherStray(Step(s, events[0]), events[1..], side, c)
  }

  lemma DispatchSurvives(s: State, side: Side, cut: Option<nat>)
    requires Enabled(s, Delivering(side, cut))
    ensures var e := Delivering(side, cut);
      Dispatch(side, End(s, side), Incoming(s, side), cut).up <==> !Fault(s, e, side) && !Stray(s, e, side)
  {
  }

  lemma StepSurvives(s: State, e: Event, side: Side)
    requires Enabled(s, e)
    ensures End(Step(s, e), side).up <==> End(s, side).up && !Fault(s, e, side) && !Stray(s, e, side)
  {
    if e.Delivering? && e.side == side {
      DispatchSurvives(s, side, e.cut);
    } else {
      OthersSurvive(s, e, side);
    }
  }

  lemma OthersSurvive(s: State, e: Event, side: Side)
    requires Enabled(s, e) && !(e.Delivering? && e.side == side)
    ensures End(Step(s, e), side).up <==> End(s, side).up && !(e.Halting? && e.side == side)
  {
  }

  lemma {:induction false} StaysDown(s: State, events: seq<Event>, side: Side)
    requires Legal(s, events) && !End(s, side).up
    ensures var t := Run(s, events);
      !End(t, side).up && End(t, side).put == End(s, side).put && End(t, side).received == End(s, side).received
    decreases |events|
  {
    if events != [] {
      StepDown(s, events[0], side);
      StaysDown(Step(s, events[0]), events[1..], side);
    }
  }

  lemma StepDown(s: State, e: Event, side: Side)
    requires Enabled(s, e) && !End(s, side).up
    ensures var t := Step(s, e);
      !End(t, side).up && End(t, side).put == End(s, side).put && End(t, side).received == End(s, side).received
  {
  }

  /** Over every run a session survives exactly when nothing stops it from outside and every data frame it dispatches
      finds its connection in the table. */
  lemma {:induction false} SurvivesExactly(s: State, events: seq<Event>, side: Side)
    requires Legal(s, events) && End(s, side).up
    ensures End(Run(s, events), side).up <==> Faultless(s, events, side) && NoStray(s, events, side)
    decreases |events|
  {
    if events != [] {
      StepSurvives(s, events[0], side);
      if End(Step(s, events[0]), side).up {
        SurvivesExactly(Step(s, events[0]), events[1..], side);
      } else {
        StaysDown(Step(s, events[0]), events[1..], side);
      }
    }
  }

  /** Some frame in this stretch of a stream carries data of the connection. */
  ghost predicate CarriesData(frames: seq<Message>, from: nat, to: nat, c: Uuid) {
    exists j :: from <= j < to && j < |frames| && DataFor(frames[j], c)
  }

  lemma WindowStep(s: State, e: Event, side: Side, c: Uuid)
    requires Enabled(s, e) && End(s, side).up && c !in End(s, side).conns && !(e.Inserting? && e.side == side && e.c == c)
    ensures c !in End(Step(s, e), side).conns
    ensures End(Step(s, e), side).received == End(s, side).received + if e.Delivering? && e.side == side then 1 else 0
  {
  }

  /** While a connection is missing from an end's table, the session survives exactly until that end dispatches data of
      the connection, unless it is stopped from outside or by another stray. */
  lemma {:induction false} WindowDecides(s: State, events: seq<Event>, side: Side, c: Uuid)
    requires Legal(s, events) && End(s, side).up && c !in End(s, side).conns
    requires forall e :: e in events ==> !(e.Inserting? && e.side == side && e.c == c)
    ensures var t := Run(s, events);
      var carries := CarriesData(End(t, Other(side)).sent, End(s, side).received, End(t, side).received, c);
      && (carries ==> !End(t, side).up)
      && (!carries && Faultless(s, events, side) && NoOtherStray(s, events, side, c) ==> End(t, side).up)
    decreases |events|
  {
    if events != [] {
      var s1, rest := Step(s, events[0]), events[1..];
      assert events[0] in events && forall e :: e in rest ==> e in events;
      var t, n := Run(s, events), End(s, side).received;
      var frames := End(t, Other(side)).sent;
      WindowStep(s, events[0], side, c);
      StepSurvives(s, events[0], side);
      RunKeepsSent(s, events, Other(side));
      if events[0].Delivering? && events[0].side == side {
        assert frames[n] == Incoming(s, side);
      }
      if End(s1, side).up {
        WindowDecides(s1, rest, side, c);
        assert n == End(s1, side).received || !DataFor(frames[n], c);
      } else {
        StaysDown(s1, rest, side);
      }
    }
  }

  // ---- what a closed connection costs the others ----

  /** The relay's table entry of a known socket only returns if its accept task has not inserted it yet. */
  lemma {:induction false} NoReinsert(s: State, events: seq<Event>, c: Uuid)
    requires Legal(s, events) && c in s.relay.taken && c !in s.relay.opening
    ensures forall e :: e in events ==> !(e.Inserting? && e.side == Relay && e.c == c)
    decreases |events|
  {
    if events != [] {
      OpeningStep(s, events[0], c);
      NoReinsert(Step(s, events[0]), events[1..], c);
      assert events == [events[0]] + events[1..];
    }
  }

  lemma OpeningStep(s: State, e: Event, c: Uuid)
    requires Enabled(s, e) && c in s.relay.taken && c !in s.relay.opening
    ensures c in Step(s, e).relay.taken && c !in Step(s, e).relay.opening
    ensures !(e.Inserting? && e.side == Relay && e.c == c)
  {
  }

  /** After a public socket half-closes, and until its entry returns to the table, the session survives exactly as long
      as the relay dispatches no data of that connection, wherever on its way back that data was. */
  lemma HalfCloseDecides(s: State, c: Uuid, delivered: bool, later: seq<Event>)
    requires c in s.relay.readers && s.relay.up
    requires Legal(Step(s, Reading(Relay, c, Eof, delivered)), later)
    requires forall e :: e in later ==> !(e.Inserting? && e.side == Relay && e.c == c)
    ensures var s1 := Step(s, Reading(Relay, c, Eof, delivered));
      var t := Run(s1, later);
      var carries := CarriesData(t.local.sent, s.relay.received, t.relay.received, c);
      && (carries ==> !t.relay.up)
      && (!carries && Faultless(s1, later, Relay) && NoOtherStray(s1, later, Relay, c) ==> t.relay.up)
  {
    WindowDecides(Step(s, Reading(Relay, c, Eof, delivered)), later, Relay, c);
  }

  /** A socket that half-closes at the relay while its client has data on the way, anywhere in the queue, costs the
      whole session: once the relay has dispatched that far the session is over, and no connection of the tunnel is
      written to again. */
  lemma HalfCloseStopsEveryConnection(s: State, c: Uuid, delivered: bool, j: nat, later: seq<Event>, after: seq<Event>)
    requires c in s.relay.readers && c in s.relay.taken && c !in s.relay.opening && s.relay.up
    requires s.relay.received <= j < |s.local.sent| && DataFor(s.local.sent[j], c)
    requires Legal(Step(s, Reading(Relay, c, Eof, delivered)), later)
    requires var t := Run(Step(s, Reading(Relay, c, Eof, delivered)), later);
      j < t.relay.received && Legal(t, after)
    ensures var t := Run(Step(s, Reading(Relay, c, Eof, delivered)), later);
      !t.relay.up && Run(t, after).relay.put == t.relay.put && !Run(t, after).relay.up
  {
    var s1 := Step(s, Reading(Relay, c, Eof, delivered));
    var t := Run(s1, later);
    NoReinsert(s1, later, c);
    HalfCloseDecides(s, c, delivered, later);
    RunKeepsSent(s1, later, Local);
    assert s.local.sent <= t.local.sent && t.local.sent[j] == s.local.sent[j];
    assert CarriesData(t.local.sent, s.relay.received, t.relay.received, c);
    StaysDown(t, after, Relay);
  }

  /** Two public connections accepted and in the table. */
  lemma TwoAccepted(rest: seq<Event>) returns (s: State, events: seq<Event>)
    ensures s.relay.up && s.local.up && s.local == Fresh() && s.relay.received == 0
    ensures s.relay.conns == {1, 2} && s.relay.opening == {} && 1 in s.relay.readers && 1 in s.relay.taken
    ensures s.relay.sent == [TcpConnect(1, ""), TcpConnect(2, "")]
    ensures Legal(s, rest) ==> Legal(Start(), events) && Run(Start(), events) == Run(s, rest)
  {
    var s0 := Start();
    var s1 := Step(s0, Accepting(1, "", true));
    var s2 := Step(s1, Inserting(Relay, 1, true));
    var s3 := Step(s2, Accepting(2, "", true));
    s := Step(s3, Inserting(Relay, 2, true));
    events := rest;
    if Legal(s, rest) {
      LegalFirst(s3, Inserting(Relay, 2, true), events);
      events := [Inserting(Relay, 2, true)] + events;
      LegalFirst(s2, Accepting(2, "", true), events);
      events := [Accepting(2, "", true)] + events;
      LegalFirst(s1, Inserting(Relay, 1, true), events);
      events := [Inserting(Relay, 1, true)] + events;
      LegalFirst(s0, Accepting(1, "", true), events);
      events := [Accepting(1, "", true)] + events;
    }
  }

  /** This happens without any fault: two connections open, one byte on its way back, one orderly half-close. */
  lemma HalfCloseArises() returns (s: State, events: seq<Event>, t: State)
    ensures Legal(Start(), events) && Run(Start(), events) == s && s.relay.up && 2 in s.relay.conns
    ensures 1 in s.relay.readers && 1 in s.relay.taken && 1 !in s.relay.opening
    ensures Legal(s, [Reading(Relay, 1, Eof, true), Delivering(Relay, None)])
    ensures t == Run(s, [Reading(Relay, 1, Eof, true), Delivering(Relay, None)]) && !t.relay.up && 2 in t.relay.conns
  {
    var answer := [Delivering(Local, None)] + ([Dialing(1, true, true)] + ([Reading(Local, 1, Got([7]), true)] + []));
    var s4;
    s4, events := TwoAccepted(answer);
    var s5 := Step(s4, Delivering(Local, None));
    var s6 := Step(s5, Dialing(1, true, true));
    s := Step(s6, Reading(Local, 1, Got([7]), true));
    LegalFirst(s6, Reading(Local, 1, Got([7]), true), []);
    LegalFirst(s5, Dialing(1, true, true), [Reading(Local, 1, Got([7]), true)] + []);
    LegalFirst(s4, Delivering(Local, None), [Dialing(1, true, true)] + ([Reading(Local, 1, Got([7]), true)] + []));
    t := HalfCloseEnds(s);
  }

  lemma HalfCloseEnds(s: State) returns (t: State)
    requires 1 in s.relay.readers && s.relay.up && 2 in s.relay.conns
    requires s.relay.received == 0 && s.local.sent == [TcpData(1, [7], 0)]
    ensures Legal(s, [Reading(Relay, 1, Eof, true), Delivering(Relay, None)])
    ensures t == Run(s, [Reading(Relay, 1, Eof, true), Delivering(Relay, None)]) && !t.relay.up && 2 in t.relay.conns
  {
    var s1 := Step(s, Reading(Relay, 1, Eof, true));
    t := Step(s1, Delivering(Relay, None));
    LegalFirst(s1, Delivering(Relay, None), []);
    LegalFirst(s, Reading(Relay, 1, Eof, true), [Delivering(Relay, None)] + []);
    assert [Reading(Relay, 1, Eof, true)] + ([Delivering(Relay, None)] + [])
        == [Reading(Relay, 1, Eof, true), Delivering(Relay, None)];
  }

  /** The client's end has the same weakness while it dials: data that arrives before the connection is in its table
      ends its session. Four orderly events are enough. */
  lemma EarlyDataArises(c: Uuid, data: Bytes) returns (t: State)
    requires 1 <= |data| <= BUFFER
    ensures var events := [Accepting(c, "", true), Reading(Relay, c, Got(data), true),
                           Delivering(Local, None), Delivering(Local, None)];
      && Legal(Start(), events) && t == Run(Start(), events)
      && !t.local.up && c in t.local.dialing && t.relay.up
  {
    var s0 := Start();
    var s1 := Step(s0, Accepting(c, "", true));
    var s2 := Step(s1, Reading(Relay, c, Got(data), true));
    var s3 := Step(s2, Delivering(Local, None));
    t := Step(s3, Delivering(Local, None));
    LegalFirst(s3, Delivering(Local, None), []);
    LegalFirst(s2, Delivering(Local, None), [Delivering(Local, None)] + []);
    LegalFirst(s1, Reading(Relay, c, Got(data), true), [Delivering(Local, None)] + ([Delivering(Local, None)] + []));
    LegalFirst(s0, Accepting(c, "", true),
               [Reading(Relay, c, Got(data), true)] + ([Delivering(Local, None)] + ([Delivering(Local, None)] + [])));
    assert [Accepting(c, "", true)]
           + ([Reading(Relay, c, Got(data), true)] + ([Delivering(Local, None)] + ([Delivering(Local, None)] + [])))
        == [Accepting(c, "", true), Reading(Relay, c, Got(data), true), Delivering(Local, None), Delivering(Local, None)];
  }

  // ---- in place ----

  /** A read loop over what its socket gives, each with whether the channel took the frame. */
  function ReadAll(side: Side, e: Endpoint, c: Uuid, script: seq<(ReadResult, bool)>): Endpoint
    decreases script
  {
    if script == [] || c !in e.readers then e
    else ReadAll(side, ReadOnce(side, e, c, script[0].0, script[0].1), c, script[1..])
  }

  function ReadEvents(side: Side, e: Endpoint, c: Uuid, script: seq<(ReadResult, bool)>): seq<Event>
    decreases script
  {
    if script == [] || c !in e.readers then []
    else
      [Reading(side, c, script[0].0, script[0].1)]
      + ReadEvents(side, ReadOnce(side, e, c, script[0].0, script[0].1), c, script[1..])
  }

  /** A whole read loop is a run of single reads, so every run theorem covers it. */
  lemma {:induction false} ReadLoopIsRun(s: State, side: Side, c: Uuid, script: seq<(ReadResult, bool)>)
    requires forall r :: r in script && r.0.Got? ==> 1 <= |r.0.data| <= BUFFER
    ensures var events := ReadEvents(side, End(s, side), c, script);
      Legal(s, events) && Run(s, events) == Update(s, side, ReadAll(side, End(s, side), c, script))
    decreases script
  {
    if script != [] && c in End(s, side).readers {
      assert script[0] in script;
      var e := Reading(side, c, script[0].0, script[0].1);
      ReadLoopIsRun(Step(s, e), side, c, script[1..]);
      LegalFirst(s, e, ReadEvents(side, End(Step(s, e), side), c, script[1..]));
    }
  }

  /** The connection table of one end of a tunnel, with the sockets and the channel it works on. */
  class ConnectionTable {
    const side: Side
    var conns: set<Uuid>
    var dialing: set<Uuid>
    var opening: set<Uuid>
    var readers: map<Uuid, nat>
    var taken: map<Uuid, Bytes>
    var put: map<Uuid, Bytes>
    var sent: seq<Message>
    var received: nat
    var up: bool

    constructor (side: Side)
      ensures this.side == side && View() == Fresh()
    {
      this.side, conns, dialing, opening, readers := side, {}, {}, {}, map[];
      taken, put, sent, received, up := map[], map[], [], 0, true;
    }

    ghost function View(): Endpoint
      reads this
    {
      Endpoint(conns, dialing, opening, readers, taken, put, sent, received, up)
    }

    method Open(c: Uuid)
      modifies this
      ensures View() == Opened(old(View()), c)
    {
      readers, taken := readers[c := 0], taken[c := []];
      opening, dialing := opening + {c}, dialing - {c};
    }

    /** The relay's side of a new public connection. */
    method HandleConnection(c: Uuid, addr: string, delivered: bool)
      requires side == Relay && c !in taken
      modifies this
      ensures View() == if delivered then Insert(Relay, Accept(old(View()), c, addr, true), c, false) else old(View())
    {
      if !delivered {
        return;
      }
      sent := sent + [TcpConnect(c, addr)];
      Open(c);
      conns, opening := conns + {c}, opening - {c};
    }

    /** The client's side: dial, enter the table, acknowledge. */
    method HandleConnect(c: Uuid, connected: bool, delivered: bool)
      requires side == Local
      modifies this
      ensures View() == if connected then Insert(Local, Dial(old(View()), c, true, delivered), c, delivered)
                        else Dial(old(View()), c, false, delivered)
    {
      if connected {
        Open(c);
        conns, opening := conns + {c}, opening - {c};
      } else {
        dialing := dialing - {c};
      }
      if delivered {
        sent := sent + [TcpConnectAck(c, connected)];
      }
    }

    method HandleData(c: Uuid, data: Bytes, cut: Option<nat>) returns (ok: bool)
      modifies this`put
      ensures (View(), ok) == AfterData(old(View()), c, data, cut)
    {
      if c !in conns {
        return false;
      }
      var written := if cut.Some? && cut.value <= |data| then data[..cut.value] else data;
      put := put[c := At(put, c) + written];
      return cut.None? || cut.value > |data|;
    }

    method HandleClose(c: Uuid)
      modifies this
      ensures View() == AfterClose(old(View()), c)
    {
      if c in conns {
        conns, readers := conns - {c}, readers - {c};
      }
    }

    /** One frame of the session loop. */
    method HandleFrame(m: Message, cut: Option<nat>)
      modifies this
      ensures View() == Dispatch(side, old(View()), m, cut)
    {
      match m
      case TcpData(c, data, _) =>
        up := HandleData(c, data, cut);
      case TcpClose(c, _) =>
        HandleClose(c);
      case TcpConnect(c, _) =>
        if side == Local {
          dialing := dialing + {c};
        }
      case TcpConnectAck(c, success) =>
        if side == Relay && !success {
          HandleClose(c);
        }
      case Disconnect =>
        up := false;
      case Error(_) =>
        up := false;
      case _ =>
    }

    method Leave(c: Uuid, reason: CloseReason, delivered: bool)
      modifies this
      ensures View() == Finish(side, old(View()), c, reason, delivered)
    {
      if delivered {
        sent := sent + [TcpClose(c, reason)];
      }
      readers := readers - {c};
      if side == Relay {
        conns := conns - {c};
      }
    }

    /** Forward what the socket gives until it ends, breaks, or the channel is gone. */
    method ReadLoop(c: Uuid, script: seq<(ReadResult, bool)>)
      requires c in readers && readers[c] == 0
      modifies this
      ensures View() == ReadAll(side, old(View()), c, script)
    {
      var sequence := 0;
      var rest := script;
      while rest != []
        invariant c in readers && readers[c] == sequence
        invariant ReadAll(side, old(View()), c, script) == ReadAll(side, View(), c, rest)
        decreases |rest|
      {
        var (result, delivered) := rest[0];
        match result {
          case Eof =>
            Leave(c, Normal, delivered);
            return;
          case Broke(text) =>
            if side == Relay {
              Leave(c, Failed(text), delivered);
            } else {
              readers := readers - {c};
            }
            return;
          case Got(data) =>
            taken := taken[c := At(taken, c) + data];
            if !delivered {
              readers := readers - {c};
              return;
            }
            sent := sent + [TcpData(c, data, sequence)];
            sequence := Next(sequence);
            readers := readers[c := sequence];
        }
        rest := rest[1..];
      }
    }
  }
}
