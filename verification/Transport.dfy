/**
 * The telemetry transport as one step system: producers push, the sender pops, sends partially,
 * fails, reconnects and stops, and the server reads connections in arbitrary pieces
 * (src/interceptor/egress/uds_client.py, src/core/server/uds_server.py).
 */
module Transport {
  import opened Collections
  import opened Framing
  import opened RingBuffer

  // The sender's hands: empty, or a payload (with its place in the push order) whose frame is partly sent.
  datatype Flight = Idle | Sending(payload: Bytes, index: int, sent: nat)

  // One connection: bytes the client got accepted, how many the server has read and what it made of
  // them, and, as history, the push positions of the frames fully sent on it.
  datatype Connection = Connection(wire: Bytes, readCount: nat, served: Served, completed: seq<int>)

  datatype State = State(
    capacity: nat,
    queue: seq<Bytes>,
    dropped: nat,
    flight: Flight,
    connected: bool,
    connections: seq<Connection>,
    stopping: bool,
    pushed: seq<Bytes>,  // history: everything pushed
    abandoned: nat)      // history: frames given up at a stop

  datatype Event =
    | Push(payload: Bytes)       // a producer, at any time
    | Connect                    // _connect succeeds
    | Disconnect                 // the sender finds the peer gone, or stop closes the socket
    | Pop                        // the sender takes the oldest payload
    | Send(count: nat)           // the kernel accepts some bytes of the frame
    | SendFails                  // send raises or returns 0: disconnect and unpop
    | StopRequested
    | Abandon                    // a stop breaks the send loop and the frame is not put back
    | Restart
    | Read(connection: nat, count: nat)  // the server reads some bytes of a connection

  function FrameOf(p: Bytes): Bytes
    requires |p| <= MAX_PAYLOAD_SIZE
  {
    EncodeFrame(p).bytes
  }

  predicate CanSend(s: State, n: nat) {
    && s.flight.Sending? && s.connections != []
    && |s.flight.payload| <= MAX_PAYLOAD_SIZE && s.flight.sent + n <= |FrameOf(s.flight.payload)|
  }

  function Enabled(maxSize: nat, s: State, e: Event): bool {
    match e
    case Push(p) => |p| <= maxSize
    case Connect => !s.connected
    case Disconnect => s.connected && s.flight.Idle?
    case Pop => s.connected && s.flight.Idle? && s.queue != []
    case Send(n) => CanSend(s, n) && s.connected && 0 < n
    case SendFails => s.flight.Sending?
    case StopRequested => true
    case Abandon => s.stopping && s.flight.Sending?
    case Restart => s.stopping && s.flight.Idle? && !s.connected
    case Read(c, n) =>
      c < |s.connections| && 0 < n && s.connections[c].readCount + n <= |s.connections[c].wire|
      && !s.connections[c].served.failed
  }

  function ServeChunk(maxSize: nat, before: Served, chunk: Bytes): Served {
    match FeedResult(maxSize, before.buffer, chunk)
    case Refused => Served(before.dispatched, FeedRest(maxSize, before.buffer, chunk), true)
    case Frames(frames) => Served(before.dispatched + frames, FeedRest(maxSize, before.buffer, chunk), false)
  }

  function ReadSome(maxSize: nat, c: Connection, n: nat): Connection
    requires c.readCount + n <= |c.wire|
  {
    c.(readCount := c.readCount + n,
       served := ServeChunk(maxSize, c.served, c.wire[c.readCount..c.readCount + n]))
  }

  /** The open connection after the kernel has taken n more bytes of the frame. */
  function LongerWire(s: State, n: nat): Connection
    requires CanSend(s, n)
  {
    var c, frame, f := s.connections[|s.connections| - 1], FrameOf(s.flight.payload), s.flight;
    c.(wire := c.wire + frame[f.sent..f.sent + n],
       completed := if f.sent + n == |frame| then c.completed + [f.index] else c.completed)
  }

  /** The kernel takes n more bytes of the frame; with the last of them the frame is done. */
  function AfterSend(s: State, n: nat): State
    requires CanSend(s, n)
  {
    s.(connections := s.connections[|s.connections| - 1 := LongerWire(s, n)],
       flight := if s.flight.sent + n == |FrameOf(s.flight.payload)| then Idle
                 else s.flight.(sent := s.flight.sent + n))
  }

  function AfterRead(maxSize: nat, s: State, k: nat, n: nat): State
    requires k < |s.connections| && s.connections[k].readCount + n <= |s.connections[k].wire|
  {
    s.(connections := s.connections[k := ReadSome(maxSize, s.connections[k], n)])
  }

  /** One step; a step that is not enabled leaves the system as it is. */
  function Next(maxSize: nat, s: State, e: Event): State {
    if !Enabled(maxSize, s, e) || s.capacity == 0 then s
    else
      match e
      case Push(p) =>
        s.(queue := PushTo(s.queue, s.capacity, p),
           dropped := s.dropped + (if |s.queue| == s.capacity then 1 else 0),
           pushed := s.pushed + [p])
      case Connect =>
        s.(connected := true,
           connections := s.connections + [Connection([], 0, Served([], [], false), [])])
      case Disconnect => s.(connected := false)
      case Pop => s.(queue := s.queue[1..], flight := Sending(s.queue[0], |s.pushed| - |s.queue|, 0))
      case Send(n) => AfterSend(s, n)
      case SendFails =>
        s.(connected := false, flight := Idle,
           queue := UnpopTo(s.queue, s.capacity, s.flight.payload),
           dropped := s.dropped + (if |s.queue| < s.capacity then 0 else 1))
      case StopRequested => s.(stopping := true)
      case Abandon => s.(flight := Idle, connected := false, abandoned := s.abandoned + 1)
      case Restart => s.(stopping := false)
      case Read(c, n) => AfterRead(maxSize, s, c, n)
  }

  function Initial(capacity: nat): State {
    State(capacity, [], 0, Idle, false, [], false, [], 0)
  }

  function Run(maxSize: nat, capacity: nat, events: seq<Event>): State {
    if events == [] then Initial(capacity)
    else Next(maxSize, Run(maxSize, capacity, events[..|events| - 1]), events[|events| - 1])
  }

  // ---------- the invariant ----------

  /** The payloads pushed at the given places. */
  function At(pushed: seq<Bytes>, places: seq<int>): (r: seq<Bytes>)
    ensures |r| == |places|
  {
    seq(|places|, i requires 0 <= i < |places| => if 0 <= places[i] < |pushed| then pushed[places[i]] else [])
  }

  function CompletedOf(cs: seq<Connection>): seq<int> {
    if cs == [] then [] else CompletedOf(cs[..|cs| - 1]) + cs[|cs| - 1].completed
  }

  /** Increasing places, all from lo up to but not including hi. */
  ghost predicate Places(s: seq<int>, hi: int) {
    StrictlyIncreasing(s) && forall i :: 0 <= i < |s| ==> 0 <= s[i] < hi
  }

  /** The wire is the frames completed on it and an incomplete tail. */
  ghost predicate WireInv(maxSize: nat, pushed: seq<Bytes>, c: Connection)
    requires AllFit(maxSize, pushed)
  {
    AtFits(maxSize, pushed, c.completed);
    var whole := EncodeAll(At(pushed, c.completed));
    && (forall i :: 0 <= i < |c.completed| ==> 0 <= c.completed[i] < |pushed|)
    && whole <= c.wire
    && HeadOf(maxSize, c.wire[|whole|..]).Partial?
  }

  /** The bytes after the completed frames. */
  function TailOf(maxSize: nat, pushed: seq<Bytes>, c: Connection): Bytes
    requires AllFit(maxSize, pushed)
    requires WireInv(maxSize, pushed, c)
  {
    AtFits(maxSize, pushed, c.completed);
    c.wire[|EncodeAll(At(pushed, c.completed))|..]
  }

  /** The server's side of a connection is the decoding of the bytes it has read. */
  ghost predicate ServerInv(maxSize: nat, c: Connection) {
    && c.readCount <= |c.wire|
    && var d := Decode(maxSize, c.wire[..c.readCount]);
       c.served == Served(d.frames, d.rest, false) && !Raises(maxSize, c.wire[..c.readCount])
  }

  ghost predicate ServersInv(maxSize: nat, cs: seq<Connection>) {
    forall c :: c in cs ==> ServerInv(maxSize, c)
  }

  /** First place that is neither completed, in flight nor lost. */
  function FirstPlace(s: State): int {
    |s.pushed| - |s.queue|
  }

  ghost predicate FlightInv(maxSize: nat, s: State)
    requires AllFit(maxSize, s.pushed)
  {
    s.flight.Sending? ==>
      var f := s.flight;
      && 0 <= f.index < FirstPlace(s) && f.payload == s.pushed[f.index] && f.sent < |FrameOf(f.payload)|
      && (|s.queue| < s.capacity ==> f.index == FirstPlace(s) - 1)
  }

  /** Exactly the open connection can take more bytes, and its tail is what is sent of the current frame. */
  ghost predicate OpenInv(maxSize: nat, s: State)
    requires AllFit(maxSize, s.pushed)
    requires forall c :: c in s.connections ==> WireInv(maxSize, s.pushed, c)
    requires FlightInv(maxSize, s)
  {
    && (s.flight.Sending? ==> s.connected)
    && (s.connected ==>
          && s.connections != []
          && TailOf(maxSize, s.pushed, s.connections[|s.connections| - 1])
             == if s.flight.Idle? then [] else FrameOf(s.flight.payload)[..s.flight.sent])
  }

  ghost predicate QueueInv(s: State) {
    && 0 < s.capacity && |s.queue| <= s.capacity
    && IsSuffix(s.queue, s.pushed)
    && |s.pushed| == |CompletedOf(s.connections)| + s.dropped + |s.queue|
                     + (if s.flight.Sending? then 1 else 0) + s.abandoned
  }

  ghost predicate Inv(maxSize: nat, s: State) {
    && AllFit(maxSize, s.pushed)
    && QueueInv(s)
    && FlightInv(maxSize, s)
    && Places(CompletedOf(s.connections), if s.flight.Sending? then s.flight.index else FirstPlace(s))
    && (forall c :: c in s.connections ==> WireInv(maxSize, s.pushed, c))
    && ServersInv(maxSize, s.connections)
    && OpenInv(maxSize, s)
  }

  lemma AtFits(maxSize: nat, pushed: seq<Bytes>, places: seq<int>)
    requires AllFit(maxSize, pushed)
    ensures AllFit(maxSize, At(pushed, places)) && AllFit(MAX_PAYLOAD_SIZE, At(pushed, places))
  {
  }

  // ---------- every step keeps the invariant ----------

  lemma AtGrows(pushed: seq<Bytes>, p: Bytes, places: seq<int>)
    requires forall i :: 0 <= i < |places| ==> 0 <= places[i] < |pushed|
    ensures At(pushed + [p], places) == At(pushed, places)
  {
  }

  lemma WireGrows(maxSize: nat, pushed: seq<Bytes>, p: Bytes, c: Connection)
    requires AllFit(maxSize, pushed) && AllFit(maxSize, pushed + [p])
    requires WireInv(maxSize, pushed, c)
    ensures WireInv(maxSize, pushed + [p], c)
    ensures TailOf(maxSize, pushed + [p], c) == TailOf(maxSize, pushed, c)
  {
    AtGrows(pushed, p, c.completed);
  }

  lemma PushKeeps(maxSize: nat, s: State, p: Bytes)
    requires Inv(maxSize, s) && |p| <= maxSize <= MAX_PAYLOAD_SIZE
    ensures Inv(maxSize, Next(maxSize, s, Push(p)))
  {
    hide WireInv, ServerInv, TailOf, FrameOf;
    var s' := Next(maxSize, s, Push(p));
    forall c | c in s'.connections
      ensures WireInv(maxSize, s'.pushed, c) && TailOf(maxSize, s'.pushed, c) == TailOf(maxSize, s.pushed, c)
    {
      WireGrows(maxSize, s.pushed, p, c);
    }
  }

  const UNUSED := Connection([], 0, Served([], [], false), [])

  lemma UnusedKeeps(maxSize: nat, pushed: seq<Bytes>)
    requires AllFit(maxSize, pushed)
    ensures WireInv(maxSize, pushed, UNUSED) && TailOf(maxSize, pushed, UNUSED) == [] && ServerInv(maxSize, UNUSED)
  {
    AtFits(maxSize, pushed, []);
    assert At(pushed, []) == [];
  }

  lemma ConnectKeeps(maxSize: nat, s: State)
    requires Inv(maxSize, s) && Enabled(maxSize, s, Connect)
    ensures Inv(maxSize, Next(maxSize, s, Connect))
  {
    hide WireInv, TailOf, Decode, HeadOf, ServerInv, FrameOf, At;
    var s' := Next(maxSize, s, Connect);
    assert s'.connections == s.connections + [UNUSED] && s'.connections[..|s.connections|] == s.connections;
    assert CompletedOf(s'.connections) == CompletedOf(s.connections) + [];
    UnusedKeeps(maxSize, s.pushed);
  }

  lemma PopKeeps(maxSize: nat, s: State)
    requires Inv(maxSize, s) && Enabled(maxSize, s, Pop) && maxSize <= MAX_PAYLOAD_SIZE
    ensures Inv(maxSize, Next(maxSize, s, Pop))
  {
    assert s.queue[0] == s.pushed[FirstPlace(s)];
  }

  lemma {:induction false} CompletedOfLast(cs: seq<Connection>, c: Connection)
    requires cs != [] && cs[|cs| - 1].completed <= c.completed
    ensures CompletedOf(cs[|cs| - 1 := c])
         == CompletedOf(cs) + c.completed[|cs[|cs| - 1].completed|..]
  {
    var k := |cs| - 1;
    assert cs[k := c][..k] == cs[..k];
    assert c.completed == cs[k].completed + c.completed[|cs[k].completed|..];
  }

  /** More bytes on the wire do not change what the server has read. */
  lemma ServerKeeps(maxSize: nat, c: Connection, c': Connection)
    requires ServerInv(maxSize, c)
    requires c.wire <= c'.wire && c'.readCount == c.readCount && c'.served == c.served
    ensures ServerInv(maxSize, c')
  {
    assert c'.wire[..c.readCount] == c.wire[..c.readCount];
  }

  lemma SendMoreWire(maxSize: nat, pushed: seq<Bytes>, c: Connection, frame: Bytes, payload: Bytes, sent: nat, n: nat)
    requires AllFit(maxSize, pushed) && WireInv(maxSize, pushed, c)
    requires |payload| <= maxSize && |payload| <= MAX_PAYLOAD_SIZE && frame == FrameOf(payload)
    requires sent + n < |frame| && TailOf(maxSize, pushed, c) == frame[..sent]
    ensures var c' := c.(wire := c.wire + frame[sent..sent + n]);
            WireInv(maxSize, pushed, c') && TailOf(maxSize, pushed, c') == frame[..sent + n]
  {
    AtFits(maxSize, pushed, c.completed);
    PrefixIsPartial(maxSize, payload, sent + n);
    var whole, c' := EncodeAll(At(pushed, c.completed)), c.(wire := c.wire + frame[sent..sent + n]);
    assert c'.wire[|whole|..] == c.wire[|whole|..] + frame[sent..sent + n];
    assert frame[..sent] + frame[sent..sent + n] == frame[..sent + n];
  }

  /** The frames of one more completed place. */
  lemma EncodeNext(maxSize: nat, pushed: seq<Bytes>, places: seq<int>, place: int)
    requires AllFit(maxSize, pushed) && 0 <= place < |pushed|
    ensures AllFit(MAX_PAYLOAD_SIZE, At(pushed, places)) && AllFit(MAX_PAYLOAD_SIZE, At(pushed, places + [place]))
    ensures EncodeAll(At(pushed, places + [place])) == EncodeAll(At(pushed, places)) + FrameOf(pushed[place])
  {
    AtFits(maxSize, pushed, places);
    AtFits(maxSize, pushed, places + [place]);
    assert At(pushed, places + [place]) == At(pushed, places) + [pushed[place]];
    EncodeAllSnoc(At(pushed, places), pushed[place], []);
    assert FrameOf(pushed[place]) + [] == FrameOf(pushed[place]);
    var all := EncodeAll(At(pushed, places + [place]));
    assert all + [] == all;
  }

  lemma EmptyIsPartial(maxSize: nat)
    ensures HeadOf(maxSize, []).Partial?
  {
  }

  lemma SendLastWire(maxSize: nat, pushed: seq<Bytes>, c: Connection, frame: Bytes, place: int, sent: nat)
    requires AllFit(maxSize, pushed) && WireInv(maxSize, pushed, c)
    requires 0 <= place < |pushed| && frame == FrameOf(pushed[place])
    requires sent <= |frame| && TailOf(maxSize, pushed, c) == frame[..sent]
    ensures var c' := c.(wire := c.wire + frame[sent..], completed := c.completed + [place]);
            WireInv(maxSize, pushed, c') && TailOf(maxSize, pushed, c') == []
  {
    hide EncodeAll, HeadOf, At, FrameOf;
    var c' := c.(wire := c.wire + frame[sent..], completed := c.completed + [place]);
    EncodeNext(maxSize, pushed, c.completed, place);
    EmptyIsPartial(maxSize);
    var whole := EncodeAll(At(pushed, c.completed));
    assert c.wire == whole + frame[..sent];
    assert frame == frame[..sent] + frame[sent..];
    assert c'.wire == whole + frame;
    assert (whole + frame)[|whole + frame|..] == [];
  }

  ghost predicate ConnectionsInv(maxSize: nat, pushed: seq<Bytes>, cs: seq<Connection>)
    requires AllFit(maxSize, pushed)
  {
    (forall c :: c in cs ==> WireInv(maxSize, pushed, c)) && ServersInv(maxSize, cs)
  }

  lemma ReplaceConnection(maxSize: nat, pushed: seq<Bytes>, cs: seq<Connection>, k: nat, c: Connection)
    requires AllFit(maxSize, pushed) && ConnectionsInv(maxSize, pushed, cs) && k < |cs|
    requires WireInv(maxSize, pushed, c) && ServerInv(maxSize, c)
    ensures ConnectionsInv(maxSize, pushed, cs[k := c])
  {
    forall d | d in cs[k := c] ensures d == c || d in cs {}
  }

  lemma PlacesSnoc(places: seq<int>, place: int, hi: int)
    requires Places(places, place) && 0 <= place < hi
    ensures Places(places + [place], hi)
  {
  }

  /** A new end for the open connection that fits the flight keeps the invariant. */
  lemma OpenEndKeeps(maxSize: nat, s: State, c': Connection, sent: nat, done: bool)
    requires Inv(maxSize, s) && s.flight.Sending? && s.connections != [] && s.connected
    requires sent < |FrameOf(s.flight.payload)|
    requires WireInv(maxSize, s.pushed, c') && ServerInv(maxSize, c')
    requires TailOf(maxSize, s.pushed, c') == if done then [] else FrameOf(s.flight.payload)[..sent]
    requires c'.completed == s.connections[|s.connections| - 1].completed + (if done then [s.flight.index] else [])
    ensures Inv(maxSize, s.(connections := s.connections[|s.connections| - 1 := c'],
                            flight := if done then Idle else s.flight.(sent := sent)))
  {
    hide WireInv, ServerInv, TailOf, FrameOf;
    var last, f := |s.connections| - 1, s.flight;
    var s' := s.(connections := s.connections[last := c'], flight := if done then Idle else f.(sent := sent));
    ReplaceConnection(maxSize, s.pushed, s.connections, last, c');
    CompletedOfLast(s.connections, c');
    if done {
      PlacesSnoc(CompletedOf(s.connections), f.index, FirstPlace(s));
      assert CompletedOf(s'.connections) == CompletedOf(s.connections) + [f.index];
    } else {
      assert CompletedOf(s'.connections) == CompletedOf(s.connections);
    }
    assert QueueInv(s') && FlightInv(maxSize, s');
  }

  /** What the invariant says of the open connection while a frame is being sent. */
  ghost predicate OpenFacts(maxSize: nat, s: State)
    requires AllFit(maxSize, s.pushed)
  {
    && s.flight.Sending? && s.connections != [] && 0 <= s.flight.index < |s.pushed|
    && s.flight.payload == s.pushed[s.flight.index] && |s.flight.payload| <= MAX_PAYLOAD_SIZE
    && var c := s.connections[|s.connections| - 1];
       && WireInv(maxSize, s.pushed, c) && ServerInv(maxSize, c)
       && s.flight.sent < |FrameOf(s.flight.payload)|
       && TailOf(maxSize, s.pushed, c) == FrameOf(s.flight.payload)[..s.flight.sent]
  }

  lemma OpenFactsHold(maxSize: nat, s: State)
    requires Inv(maxSize, s) && s.flight.Sending? && maxSize <= MAX_PAYLOAD_SIZE
    ensures OpenFacts(maxSize, s)
  {
    var c := s.connections[|s.connections| - 1];
    assert c in s.connections;
    assert WireInv(maxSize, s.pushed, c) && ServerInv(maxSize, c);
  }

  lemma LastBytesFit(maxSize: nat, s: State, n: nat)
    requires AllFit(maxSize, s.pushed) && OpenFacts(maxSize, s)
    requires s.flight.sent + n == |FrameOf(s.flight.payload)|
    ensures WireInv(maxSize, s.pushed, LongerWire(s, n)) && TailOf(maxSize, s.pushed, LongerWire(s, n)) == []
  {
    hide WireInv, TailOf, ServerInv, FrameOf;
    var c, frame, f := s.connections[|s.connections| - 1], FrameOf(s.flight.payload), s.flight;
    SendLastWire(maxSize, s.pushed, c, frame, f.index, f.sent);
    assert frame[f.sent..f.sent + n] == frame[f.sent..];
  }

  lemma MoreBytesFit(maxSize: nat, s: State, n: nat)
    requires AllFit(maxSize, s.pushed) && OpenFacts(maxSize, s)
    requires s.flight.sent + n < |FrameOf(s.flight.payload)|
    ensures WireInv(maxSize, s.pushed, LongerWire(s, n))
    ensures TailOf(maxSize, s.pushed, LongerWire(s, n)) == FrameOf(s.flight.payload)[..s.flight.sent + n]
  {
    hide WireInv, TailOf, ServerInv, FrameOf;
    var c, f := s.connections[|s.connections| - 1], s.flight;
    SendMoreWire(maxSize, s.pushed, c, FrameOf(f.payload), f.payload, f.sent, n);
  }

  lemma LongerWireFits(maxSize: nat, s: State, n: nat)
    requires AllFit(maxSize, s.pushed) && OpenFacts(maxSize, s)
    requires s.flight.sent + n <= |FrameOf(s.flight.payload)|
    ensures WireInv(maxSize, s.pushed, LongerWire(s, n)) && ServerInv(maxSize, LongerWire(s, n))
    ensures var done := s.flight.sent + n == |FrameOf(s.flight.payload)|;
            TailOf(maxSize, s.pushed, LongerWire(s, n))
            == if done then [] else FrameOf(s.flight.payload)[..s.flight.sent + n]
  {
    ServerKeeps(maxSize, s.connections[|s.connections| - 1], LongerWire(s, n));
    if s.flight.sent + n == |FrameOf(s.flight.payload)| {
      LastBytesFit(maxSize, s, n);
    } else {
      MoreBytesFit(maxSize, s, n);
    }
  }

  lemma AfterSendKeeps(maxSize: nat, s: State, n: nat)
    requires Inv(maxSize, s) && CanSend(s, n) && maxSize <= MAX_PAYLOAD_SIZE
    ensures Inv(maxSize, AfterSend(s, n))
  {
    hide WireInv, ServerInv, TailOf, FrameOf;
    OpenFactsHold(maxSize, s);
    LongerWireFits(maxSize, s, n);
    if s.flight.sent + n == |FrameOf(s.flight.payload)| {
      OpenEndKeeps(maxSize, s, LongerWire(s, n), 0, true);
    } else {
      OpenEndKeeps(maxSize, s, LongerWire(s, n), s.flight.sent + n, false);
    }
  }

  lemma UnpopIsSuffix(queue: seq<Bytes>, capacity: nat, pushed: seq<Bytes>, payload: Bytes)
    requires IsSuffix(queue, pushed) && |queue| < |pushed|
    requires |queue| < capacity ==> pushed[|pushed| - |queue| - 1] == payload
    ensures IsSuffix(UnpopTo(queue, capacity, payload), pushed)
  {
  }

  lemma SendFailsKeeps(maxSize: nat, s: State)
    requires Inv(maxSize, s) && Enabled(maxSize, s, SendFails)
    ensures Inv(maxSize, Next(maxSize, s, SendFails))
  {
    UnpopIsSuffix(s.queue, s.capacity, s.pushed, s.flight.payload);
    var s' := Next(maxSize, s, SendFails);
    assert s'.connections == s.connections && s'.pushed == s.pushed;
    assert QueueInv(s');
  }

  lemma AbandonKeeps(maxSize: nat, s: State)
    requires Inv(maxSize, s) && Enabled(maxSize, s, Abandon)
    ensures Inv(maxSize, Next(maxSize, s, Abandon))
  {
  }

  /** No part of a well-formed wire holds a forbidden length, and its frames begin those of the wire. */
  lemma ReadIsPrefix(maxSize: nat, pushed: seq<Bytes>, c: Connection, k: nat)
    requires AllFit(maxSize, pushed) && WireInv(maxSize, pushed, c) && k <= |c.wire|
    ensures !Raises(maxSize, c.wire[..k])
    ensures Decode(maxSize, c.wire[..k]).frames <= At(pushed, c.completed)
    ensures Decode(maxSize, c.wire) == Decoded(At(pushed, c.completed), TailOf(maxSize, pushed, c))
  {
    AtFits(maxSize, pushed, c.completed);
    var ps, tail := At(pushed, c.completed), TailOf(maxSize, pushed, c);
    assert c.wire == EncodeAll(ps) + tail;
    DecodeFramesAndTail(maxSize, ps, tail);
    assert c.wire == c.wire[..k] + c.wire[k..];
    if Raises(maxSize, c.wire[..k]) {
      RaisesForGood(maxSize, c.wire[..k], c.wire[k..]);
    } else {
      DecodeAppend(maxSize, c.wire[..k], c.wire[k..]);
    }
  }

  /** Serving one more chunk of a sound stream is decoding the longer stream. */
  lemma ServeChunkDecodes(maxSize: nat, a: Bytes, chunk: Bytes)
    requires !Raises(maxSize, a) && !Raises(maxSize, a + chunk)
    ensures var x, y := Decode(maxSize, a), Decode(maxSize, a + chunk);
            ServeChunk(maxSize, Served(x.frames, x.rest, false), chunk) == Served(y.frames, y.rest, false)
  {
    FeedContinues(maxSize, a, chunk);
  }

  lemma ReadSomeKeeps(maxSize: nat, pushed: seq<Bytes>, c: Connection, n: nat)
    requires AllFit(maxSize, pushed) && WireInv(maxSize, pushed, c) && ServerInv(maxSize, c)
    requires c.readCount + n <= |c.wire|
    ensures ServerInv(maxSize, ReadSome(maxSize, c, n))
  {
    hide WireInv, TailOf, Decode, HeadOf;
    var a, chunk := c.wire[..c.readCount], c.wire[c.readCount..c.readCount + n];
    assert c.wire[..c.readCount + n] == a + chunk;
    ReadIsPrefix(maxSize, pushed, c, c.readCount + n);
    ServeChunkDecodes(maxSize, a, chunk);
  }

  lemma {:induction false} CompletedOfSame(cs: seq<Connection>, cs': seq<Connection>)
    requires |cs| == |cs'| && forall i :: 0 <= i < |cs| ==> cs[i].completed == cs'[i].completed
    ensures CompletedOf(cs) == CompletedOf(cs')
  {
    if cs != [] {
      CompletedOfSame(cs[..|cs| - 1], cs'[..|cs| - 1]);
    }
  }

  lemma WireIgnoresServer(maxSize: nat, pushed: seq<Bytes>, c: Connection, c': Connection)
    requires AllFit(maxSize, pushed) && WireInv(maxSize, pushed, c)
    requires c'.wire == c.wire && c'.completed == c.completed
    ensures WireInv(maxSize, pushed, c') && TailOf(maxSize, pushed, c') == TailOf(maxSize, pushed, c)
  {
  }

  lemma ReadConnection(maxSize: nat, s: State, k: nat, n: nat)
    requires Inv(maxSize, s) && k < |s.connections| && s.connections[k].readCount + n <= |s.connections[k].wire|
    ensures var c, c' := s.connections[k], ReadSome(maxSize, s.connections[k], n);
            && WireInv(maxSize, s.pushed, c) && WireInv(maxSize, s.pushed, c') && ServerInv(maxSize, c')
            && TailOf(maxSize, s.pushed, c') == TailOf(maxSize, s.pushed, c)
            && c'.completed == c.completed
  {
    var c := s.connections[k];
    assert c in s.connections;
    ReadSomeKeeps(maxSize, s.pushed, c, n);
    WireIgnoresServer(maxSize, s.pushed, c, ReadSome(maxSize, c, n));
  }

  lemma AfterReadKeeps(maxSize: nat, s: State, k: nat, n: nat)
    requires Inv(maxSize, s) && k < |s.connections| && s.connections[k].readCount + n <= |s.connections[k].wire|
    ensures Inv(maxSize, AfterRead(maxSize, s, k, n))
  {
    hide WireInv, ServerInv, TailOf, FrameOf;
    var c', s' := ReadSome(maxSize, s.connections[k], n), AfterRead(maxSize, s, k, n);
    ReadConnection(maxSize, s, k, n);
    CompletedOfSame(s.connections, s'.connections);
    ReplaceConnection(maxSize, s.pushed, s.connections, k, c');
    assert QueueInv(s') && FlightInv(maxSize, s');
  }

  /** Stopping, restarting and closing an idle socket touch nothing else. */
  lemma ControlKeeps(maxSize: nat, s: State, e: Event)
    requires Inv(maxSize, s) && (e.Disconnect? || e.StopRequested? || e.Restart?)
    ensures Inv(maxSize, Next(maxSize, s, e))
  {
    var s' := Next(maxSize, s, e);
    assert s'.connections == s.connections && s'.pushed == s.pushed && s'.queue == s.queue && s'.flight == s.flight;
    assert QueueInv(s') && FlightInv(maxSize, s');
  }

  lemma NextKeeps(maxSize: nat, s: State, e: Event)
    requires Inv(maxSize, s) && maxSize <= MAX_PAYLOAD_SIZE
    ensures Inv(maxSize, Next(maxSize, s, e))
  {
    if Enabled(maxSize, s, e) {
      match e {
        case Push(p) => PushKeeps(maxSize, s, p);
        case Connect => ConnectKeeps(maxSize, s);
        case Pop => PopKeeps(maxSize, s);
        case Send(n) => AfterSendKeeps(maxSize, s, n);
        case SendFails => SendFailsKeeps(maxSize, s);
        case Abandon => AbandonKeeps(maxSize, s);
        case Read(c, n) => AfterReadKeeps(maxSize, s, c, n);
        case _ => ControlKeeps(maxSize, s, e);
      }
    }
  }

  /** The invariant holds after every interleaving. */
  lemma {:induction false} RunKeeps(maxSize: nat, capacity: nat, events: seq<Event>)
    requires 0 < capacity && maxSize <= MAX_PAYLOAD_SIZE
    ensures Inv(maxSize, Run(maxSize, capacity, events))
  {
    if events != [] {
      RunKeeps(maxSize, capacity, events[..|events| - 1]);
      NextKeeps(maxSize, Run(maxSize, capacity, events[..|events| - 1]), events[|events| - 1]);
    }
  }

  // ---------- what it guarantees ----------

  /**
   * Delivery: the frames completed on the connections, taken connection by connection, are pushed
   * payloads at strictly increasing places, so none is delivered twice; and what the server has
   * dispatched from a connection is an initial part of the payloads completed on it, whole and in order.
   */
  lemma DeliversOnceInOrder(maxSize: nat, capacity: nat, events: seq<Event>)
    requires 0 < capacity && maxSize <= MAX_PAYLOAD_SIZE
    ensures var s := Run(maxSize, capacity, events);
            && Places(CompletedOf(s.connections), |s.pushed|)
            && forall k :: 0 <= k < |s.connections| ==>
                 var c := s.connections[k];
                 && !c.served.failed
                 && c.served.dispatched <= At(s.pushed, c.completed)
                 && (c.readCount == |c.wire| ==> c.served.dispatched == At(s.pushed, c.completed))
  {
    RunKeeps(maxSize, capacity, events);
    var s := Run(maxSize, capacity, events);
    forall k | 0 <= k < |s.connections|
      ensures s.connections[k].served.dispatched <= At(s.pushed, s.connections[k].completed)
      ensures s.connections[k].readCount == |s.connections[k].wire|
              ==> s.connections[k].served.dispatched == At(s.pushed, s.connections[k].completed)
      ensures !s.connections[k].served.failed
    {
      var c := s.connections[k];
      assert c in s.connections;
      ReadIsPrefix(maxSize, s.pushed, c, c.readCount);
      assert c.wire[..|c.wire|] == c.wire;
    }
  }

  /** The buffer is always exactly the last items pushed, and every push is accounted for. */
  lemma BufferAndBalance(maxSize: nat, capacity: nat, events: seq<Event>)
    requires 0 < capacity && maxSize <= MAX_PAYLOAD_SIZE
    ensures var s := Run(maxSize, capacity, events);
            && |s.queue| <= s.capacity && |s.queue| <= |s.pushed|
            && s.queue == s.pushed[|s.pushed| - |s.queue|..]
            && |s.pushed| == |CompletedOf(s.connections)| + s.dropped + |s.queue|
                             + (if s.flight.Sending? then 1 else 0) + s.abandoned
  {
    RunKeeps(maxSize, capacity, events);
  }
}
