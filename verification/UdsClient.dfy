/** The sender's worker loop as an object that refines the transport's step system (src/interceptor/egress/uds_client.py). */
module UdsClient {
  import opened Collections
  import opened Framing
  import opened RingBuffer
  import opened Transport
  import opened Delivery

  // What happens at one turn of the send loop: the kernel accepts bytes, nothing is writable yet, the
  // connection breaks, or a producer pushes meanwhile. A script that runs out stands for the stop
  // flag being seen.
  datatype Env = Accepts(count: nat) | WouldBlock | Breaks | Produces(payload: Bytes)

  datatype SendResult = Sent | Failed | Stopped

  // The steps that a send takes, how much of the frame is on the wire at its end, and how it ends.
  datatype Trace = Trace(events: seq<Event>, sent: nat, result: SendResult)

  function Before(events: seq<Event>, t: Trace): Trace {
    t.(events := events + t.events)
  }

  function Min(a: nat, b: nat): nat {
    if a < b then a else b
  }

  // One turn of the send loop: its steps and how many bytes it put on the wire, unless the connection broke.
  datatype Attempt = Advanced(events: seq<Event>, bytes: nat) | Broken

  function AttemptOf(len: nat, sent: nat, e: Env): (r: Attempt)
    requires sent < len
    ensures r.Advanced? ==> sent + r.bytes <= len
  {
    match e
    case Produces(p) => Advanced([Push(p)], 0)
    case WouldBlock => Advanced([], 0)
    case Breaks => Broken
    case Accepts(count) =>
      if count == 0 then Broken else Advanced([Send(Min(count, len - sent))], Min(count, len - sent))
  }

  /** send breaks by raising or by accepting nothing; otherwise as much goes out as is accepted and left. */
  lemma AttemptMeans(len: nat, sent: nat, e: Env)
    requires sent < len
    ensures AttemptOf(len, sent, e).Broken? <==> e == Breaks || e == Accepts(0)
    ensures e.Accepts? && e.count > 0 ==>
              var n := AttemptOf(len, sent, e).bytes;
              && AttemptOf(len, sent, e).events == [Send(n)] && 0 < n <= e.count && n <= len - sent
              && (n == e.count || n == len - sent)
    ensures e.Produces? ==> AttemptOf(len, sent, e) == Advanced([Push(e.payload)], 0)
    ensures e == WouldBlock ==> AttemptOf(len, sent, e) == Advanced([], 0)
  {
  }

  /** Sending a frame of len bytes of which some are on the wire, while the environment follows a script. */
  function SendTrace(len: nat, sent: nat, script: seq<Env>): Trace
    decreases |script|
  {
    if sent >= len then Trace([], sent, Sent)
    else if script == [] then Trace([StopRequested], sent, Stopped)
    else
      match AttemptOf(len, sent, script[0])
      case Broken => Trace([], sent, Failed)
      case Advanced(events, n) => Before(events, SendTrace(len, sent + n, script[1..]))
  }

  /** The trace of a send goes on from where its loop stands. */
  lemma TraceGoesOn(whole: Trace, events: seq<Event>, len: nat, sent: nat, script: seq<Env>, i: nat)
    requires i < |script| && sent < len && whole == Before(events, SendTrace(len, sent, script[i..]))
    ensures match AttemptOf(len, sent, script[i])
            case Broken => whole == Trace(events, sent, Failed)
            case Advanced(more, n) => whole == Before(events + more, SendTrace(len, sent + n, script[i + 1..]))
  {
    assert script[i..][1..] == script[i + 1..];
    match AttemptOf(len, sent, script[i]) {
      case Broken =>
      case Advanced(more, n) =>
        var rest := SendTrace(len, sent + n, script[i + 1..]);
        assert events + (more + rest.events) == events + more + rest.events;
    }
  }

  /** The bytes that the steps put on the wire. */
  function BytesSent(events: seq<Event>): nat {
    if events == [] then 0 else (if events[0].Send? then events[0].count else 0) + BytesSent(events[1..])
  }

  /** A send never overshoots, counts every byte it puts on the wire, and succeeds exactly on the whole frame. */
  lemma {:induction false} SendCountsBytes(len: nat, sent: nat, script: seq<Env>)
    requires sent <= len
    ensures var t := SendTrace(len, sent, script);
            && sent <= t.sent <= len
            && t.sent == sent + BytesSent(t.events)
            && (t.result.Sent? <==> t.sent == len)
    decreases |script|
  {
    hide AttemptOf, BytesSent;
    if sent < len && script != [] && AttemptOf(len, sent, script[0]).Advanced? {
      var n := AttemptOf(len, sent, script[0]).bytes;
      SendCountsBytes(len, sent + n, script[1..]);
      StepCountsBytes(len, sent, script[0], SendTrace(len, sent + n, script[1..]));
    } else {
      EndCountsBytes();
    }
  }

  lemma EndCountsBytes()
    ensures BytesSent([]) == BytesSent([StopRequested]) == 0
  {
    assert [StopRequested][1..] == [];
  }

  lemma StepCountsBytes(len: nat, sent: nat, e: Env, rest: Trace)
    requires sent < len && AttemptOf(len, sent, e).Advanced?
    ensures var a := AttemptOf(len, sent, e);
            BytesSent(Before(a.events, rest).events) == a.bytes + BytesSent(rest.events)
  {
    AttemptBytes(len, sent, e);
    BytesOfAppend(AttemptOf(len, sent, e).events, rest.events);
  }

  lemma AttemptBytes(len: nat, sent: nat, e: Env)
    requires sent < len && AttemptOf(len, sent, e).Advanced?
    ensures BytesSent(AttemptOf(len, sent, e).events) == AttemptOf(len, sent, e).bytes
  {
    assert BytesSent([]) == 0;
  }

  lemma {:induction false} BytesOfAppend(a: seq<Event>, b: seq<Event>)
    ensures BytesSent(a + b) == BytesSent(a) + BytesSent(b)
  {
    if a == [] {
      assert a + b == b;
    } else {
      assert (a + b)[0] == a[0] && (a + b)[1..] == a[1..] + b;
      BytesOfAppend(a[1..], b);
    }
  }

  /** What follows a send: a whole frame is done, a broken one goes back, an interrupted one is given up. */
  function AfterSending(t: Trace): seq<Event> {
    match t.result
    case Sent => t.events
    case Failed => t.events + [SendFails]
    case Stopped => t.events + [Abandon]
  }

  function ReconnectSteps(connected: bool, connects: bool): seq<Event> {
    (if connected then [Disconnect] else []) + (if connects then [Connect] else [])
  }

  function ShipSteps(payload: Bytes, script: seq<Env>): seq<Event> {
    AfterSending(SendTrace(HEADER_SIZE + |payload|, 0, script))
  }

  /** The steps of one turn of the worker loop. */
  function TurnSteps(connected: bool, alive: bool, connects: bool, queue: seq<Bytes>, script: seq<Env>): seq<Event> {
    (if connected && alive then [] else ReconnectSteps(connected, connects))
    + (if ((connected && alive) || connects) && queue != [] then [Pop] + ShipSteps(queue[0], script) else [])
  }

  /** More bytes on the open connection. */
  function PutOnLast(wires: seq<Bytes>, bytes: Bytes): seq<Bytes> {
    if wires == [] then [] else wires[|wires| - 1 := wires[|wires| - 1] + bytes]
  }

  lemma PutNothing(wires: seq<Bytes>, frame: Bytes, k: nat)
    requires k <= |frame|
    ensures PutOnLast(wires, frame[k..k]) == wires
  {
    if wires != [] {
      assert wires[|wires| - 1] + frame[k..k] == wires[|wires| - 1];
    }
  }

  lemma PutTwice(wires: seq<Bytes>, frame: Bytes, k: nat, n: nat)
    requires k + n <= |frame|
    ensures PutOnLast(PutOnLast(wires, frame[..k]), frame[k..k + n]) == PutOnLast(wires, frame[..k + n])
  {
    assert frame[..k] + frame[k..k + n] == frame[..k + n];
    if wires != [] {
      var last := wires[|wires| - 1];
      assert last + frame[..k] + frame[k..k + n] == last + (frame[..k] + frame[k..k + n]);
    }
  }

  predicate Fits(maxSize: nat, script: seq<Env>) {
    forall i | 0 <= i < |script| :: script[i].Produces? ==> |script[i].payload| <= maxSize
  }

  /** Whatever is queued fits a frame. */
  lemma QueueFits(maxSize: nat, capacity: nat, events: seq<Event>)
    requires 0 < capacity && maxSize <= MAX_PAYLOAD_SIZE
    requires Run(maxSize, capacity, events).queue != []
    ensures |Run(maxSize, capacity, events).queue[0]| <= maxSize
  {
    RunKeeps(maxSize, capacity, events);
    var s := Run(maxSize, capacity, events);
    assert s.queue[0] == s.pushed[FirstPlace(s)];
  }

  // ---------- what a turn of the worker loop comes to ----------

  lemma StepsCons(maxSize: nat, s: State, e: Event, rest: seq<Event>)
    ensures Steps(maxSize, s, [e] + rest) == Steps(maxSize, Next(maxSize, s, e), rest)
  {
    StepsAppend(maxSize, s, [e], rest);
    StepsOne(maxSize, s, e);
  }

  /** The payload is in flight at its place, with so many bytes sent of its frame, on the open connection. */
  ghost predicate IsSending(maxSize: nat, s: State, payload: Bytes, index: int, sent: nat) {
    Inv(maxSize, s) && s.connected && s.flight == Sending(payload, index, sent) && sent < |FrameOf(payload)|
  }

  /** One attempt of the send loop that goes through. */
  lemma AttemptMoves(maxSize: nat, s: State, payload: Bytes, index: int, sent: nat, e: Env)
    requires |payload| <= maxSize <= MAX_PAYLOAD_SIZE && IsSending(maxSize, s, payload, index, sent)
    requires Fits(maxSize, [e]) && AttemptOf(|FrameOf(payload)|, sent, e).Advanced?
    ensures var a, s' := AttemptOf(|FrameOf(payload)|, sent, e), Steps(maxSize, s, AttemptOf(|FrameOf(payload)|, sent, e).events);
            && Inv(maxSize, s') && s'.connected && s'.abandoned == s.abandoned
            && (if sent + a.bytes == |FrameOf(payload)|
                then s'.flight.Idle? && CompletedOf(s'.connections) == CompletedOf(s.connections) + [index]
                else IsSending(maxSize, s', payload, index, sent + a.bytes)
                     && CompletedOf(s'.connections) == CompletedOf(s.connections))
            && (!e.Produces? ==> s'.queue == s.queue && s'.dropped == s.dropped && s'.pushed == s.pushed)
  {
    hide Inv, CompletedOf, FrameOf, AfterSend;
    var a := AttemptOf(|FrameOf(payload)|, sent, e);
    match e {
      case WouldBlock =>
        assert Steps(maxSize, s, []) == s;
      case Produces(p) =>
        assert [e][0] == e;
        StepsOne(maxSize, s, Push(p));
        NextKeeps(maxSize, s, Push(p));
      case Accepts(count) =>
        SendIsEnabled(maxSize, s, payload, index, sent, a.bytes);
        StepsOne(maxSize, s, Send(a.bytes));
        NextKeeps(maxSize, s, Send(a.bytes));
        CompletedAfterSend(maxSize, s, a.bytes);
        SendTouches(s, a.bytes);
        NothingMore(CompletedOf(s.connections));
    }
  }

  lemma NothingMore<T>(s: seq<T>)
    ensures s + [] == s
  {
  }

  lemma SendIsEnabled(maxSize: nat, s: State, payload: Bytes, index: int, sent: nat, n: nat)
    requires IsSending(maxSize, s, payload, index, sent) && maxSize <= MAX_PAYLOAD_SIZE
    requires 0 < n && sent + n <= |FrameOf(payload)|
    ensures CanSend(s, n) && Enabled(maxSize, s, Send(n)) && s.capacity > 0
  {
    OpenFactsHold(maxSize, s);
  }

  /** The send loop completes the frame, or leaves it in flight with the bytes sent that its trace counts. */
  lemma {:induction false} SendComesTo(maxSize: nat, s: State, payload: Bytes, index: int, sent: nat, script: seq<Env>)
    requires |payload| <= maxSize <= MAX_PAYLOAD_SIZE && IsSending(maxSize, s, payload, index, sent) && Fits(maxSize, script)
    ensures var t := SendTrace(|FrameOf(payload)|, sent, script);
            var s' := Steps(maxSize, s, t.events);
            && Inv(maxSize, s') && s'.connected && s'.abandoned == s.abandoned
            && (if t.result.Sent?
                then s'.flight.Idle? && CompletedOf(s'.connections) == CompletedOf(s.connections) + [index]
                else IsSending(maxSize, s', payload, index, t.sent) && CompletedOf(s'.connections) == CompletedOf(s.connections))
            && (t.result.Stopped? ==> s'.stopping)
            && ((forall e :: e in script ==> !e.Produces?) ==> s'.queue == s.queue && s'.dropped == s.dropped && s'.pushed == s.pushed)
    decreases |script|
  {
    hide Inv, CompletedOf, FrameOf, AttemptOf, Next;
    var len := |FrameOf(payload)|;
    if script == [] {
      StopIsSeen(maxSize, s);
    } else {
      var a := AttemptOf(len, sent, script[0]);
      if a.Broken? {
        assert Steps(maxSize, s, []) == s;
      } else {
        var mid := Steps(maxSize, s, a.events);
        AttemptMoves(maxSize, s, payload, index, sent, script[0]);
        if sent + a.bytes < len {
          SendComesTo(maxSize, mid, payload, index, sent + a.bytes, script[1..]);
          StepsAppend(maxSize, s, a.events, SendTrace(len, sent + a.bytes, script[1..]).events);
        } else {
          NothingMore(a.events);
        }
      }
    }
  }

  lemma StopIsSeen(maxSize: nat, s: State)
    requires Inv(maxSize, s) && maxSize <= MAX_PAYLOAD_SIZE
    ensures Steps(maxSize, s, [StopRequested]) == s.(stopping := true) && Inv(maxSize, s.(stopping := true))
  {
    hide WireInv, ServersInv, OpenInv, Places, CompletedOf;
    StepsOne(maxSize, s, StopRequested);
    NextKeeps(maxSize, s, StopRequested);
    assert s.capacity > 0;
  }

  /**
   * What becomes of a payload that the worker has taken. Sent: it is completed, once. Broken: it is completed on no
   * connection, and with no pushes meanwhile it is back at the head of the queue and nothing is dropped. Interrupted by a
   * stop: it is given up.
   */
  lemma ShipComesTo(maxSize: nat, s: State, payload: Bytes, index: int, script: seq<Env>)
    requires |payload| <= maxSize <= MAX_PAYLOAD_SIZE && IsSending(maxSize, s, payload, index, 0) && Fits(maxSize, script)
    ensures var t := SendTrace(HEADER_SIZE + |payload|, 0, script);
            var s' := Steps(maxSize, s, ShipSteps(payload, script));
            && s'.flight.Idle?
            && CompletedOf(s'.connections) == CompletedOf(s.connections) + (if t.result.Sent? then [index] else [])
            && s'.abandoned == s.abandoned + (if t.result.Stopped? then 1 else 0)
            && s'.connected == t.result.Sent?
            && ((forall e :: e in script ==> !e.Produces?) && |s.queue| < s.capacity ==>
                  && s'.queue == (if t.result.Failed? then [payload] else []) + s.queue
                  && s'.dropped == s.dropped && s'.pushed == s.pushed)
  {
    hide Inv, CompletedOf, FrameOf, SendTrace, Next;
    FrameLength(payload);
    var t := SendTrace(HEADER_SIZE + |payload|, 0, script);
    var mid := Steps(maxSize, s, t.events);
    SendComesTo(maxSize, s, payload, index, 0, script);
    NothingMore(CompletedOf(s.connections));
    match t.result {
      case Sent => assert [] + s.queue == s.queue;
      case Failed =>
        StepsAppend(maxSize, s, t.events, [SendFails]);
        StepsOne(maxSize, mid, SendFails);
        AfterFailure(maxSize, mid);
      case Stopped =>
        StepsAppend(maxSize, s, t.events, [Abandon]);
        StepsOne(maxSize, mid, Abandon);
        AfterGivingUp(maxSize, mid);
        assert [] + s.queue == s.queue;
    }
    CapacityStays(maxSize, s, t.events);
  }

  lemma AfterFailure(maxSize: nat, s: State)
    requires Inv(maxSize, s) && s.flight.Sending?
    ensures var s' := Next(maxSize, s, SendFails);
            && s'.flight.Idle? && !s'.connected && s'.connections == s.connections && s'.abandoned == s.abandoned
            && (|s.queue| < s.capacity ==>
                  s'.queue == [s.flight.payload] + s.queue && s'.dropped == s.dropped && s'.pushed == s.pushed)
  {
  }

  lemma AfterGivingUp(maxSize: nat, s: State)
    requires Inv(maxSize, s) && s.flight.Sending? && s.stopping
    ensures var s' := Next(maxSize, s, Abandon);
            && s'.flight.Idle? && !s'.connected && s'.connections == s.connections && s'.abandoned == s.abandoned + 1
            && s'.queue == s.queue && s'.dropped == s.dropped && s'.pushed == s.pushed
  {
  }

  lemma {:induction false} CapacityStays(maxSize: nat, s: State, events: seq<Event>)
    ensures Steps(maxSize, s, events).capacity == s.capacity
  {
    if events != [] {
      CapacityStays(maxSize, s, events[..|events| - 1]);
    }
  }

  lemma FrameLength(payload: Bytes)
    requires |payload| <= MAX_PAYLOAD_SIZE
    ensures |FrameOf(payload)| == HEADER_SIZE + |payload|
  {
  }

  class UDSClient {
    const buffer: BoundedRingBuffer<Bytes>
    ghost const maxSize: nat
    var connected: bool          // sock is not None
    var wires: seq<Bytes>        // bytes accepted on each connection, the current one last
    var running: bool
    ghost var log: seq<Event>    // the steps taken so far
    ghost var model: State       // the state they lead to

    constructor (buffer: BoundedRingBuffer<Bytes>, ghost maxSize: nat)
      requires buffer.Valid() && buffer.queue == [] && buffer.droppedCount == 0 && maxSize <= MAX_PAYLOAD_SIZE
      ensures this.buffer == buffer && this.maxSize == maxSize
      ensures Valid() && log == []
    {
      this.buffer, this.maxSize := buffer, maxSize;
      connected, wires, running := false, [], true;
      log, model := [], Initial(buffer.capacity);
    }

    /** The object's fields are those of the step system after the logged run. */
    ghost predicate Coupled()
      reads this, buffer
    {
      && maxSize <= MAX_PAYLOAD_SIZE
      && model == Run(maxSize, buffer.capacity, log)
      && buffer.Valid() && model.capacity == buffer.capacity
      && model.queue == buffer.queue && model.dropped == buffer.droppedCount
      && model.connected == connected && model.stopping == !running
      && |model.connections| == |wires|
      && (forall i :: 0 <= i < |wires| ==> model.connections[i].wire == wires[i])
      && (connected ==> wires != [])
    }

    /** Between turns of the worker loop nothing is in flight. */
    ghost predicate Valid()
      reads this, buffer
    {
      Coupled() && model.flight.Idle?
    }

    /** Takes the model one step along. */
    ghost method Follow(e: Event)
      requires model == Run(maxSize, buffer.capacity, log)
      modifies this`model, this`log
      ensures log == old(log) + [e]
      ensures model == Next(maxSize, old(model), e) && model == Run(maxSize, buffer.capacity, log)
    {
      model := Next(maxSize, model, e);
      log := log + [e];
      assert log[..|log| - 1] == old(log);
    }

    /** A producer's push, which can come at any time. */
    method Produce(payload: Bytes)
      requires Coupled() && |payload| <= maxSize
      modifies this`model, this`log, buffer
      ensures Coupled() && log == old(log) + [Push(payload)]
      ensures model.flight == old(model.flight)
    {
      buffer.Push(payload);
      Follow(Push(payload));
    }

    /** The kernel takes some bytes of the frame. */
    method Transmit(frame: Bytes, totalSent: nat, sent: nat)
      requires Coupled() && connected
      requires model.flight.Sending? && model.flight.sent == totalSent && 0 < sent && totalSent + sent <= |frame|
      requires |model.flight.payload| <= MAX_PAYLOAD_SIZE && frame == FrameOf(model.flight.payload)
      modifies this`wires, this`model, this`log
      ensures Coupled() && log == old(log) + [Send(sent)]
      ensures wires == PutOnLast(old(wires), frame[totalSent..totalSent + sent])
      ensures model.flight == if totalSent + sent == |frame| then Idle else old(model.flight).(sent := totalSent + sent)
    {
      var last := |wires| - 1;
      wires := wires[last := wires[last] + frame[totalSent..totalSent + sent]];
      Follow(Send(sent));
    }

    /** The stop flag is found set. */
    method SeeStop()
      requires Coupled()
      modifies this`running, this`model, this`log
      ensures Coupled() && !running && log == old(log) + [StopRequested] && model.flight == old(model.flight)
    {
      running := false;
      Follow(StopRequested);
    }

    /** One turn of the send loop. */
    method TrySend(frame: Bytes, totalSent: nat, e: Env) returns (sent: Option<nat>)
      requires Coupled() && connected && model.flight.Sending? && model.flight.sent == totalSent < |frame|
      requires |model.flight.payload| <= MAX_PAYLOAD_SIZE && frame == FrameOf(model.flight.payload)
      requires e.Produces? ==> |e.payload| <= maxSize
      modifies this`wires, this`model, this`log, buffer
      ensures Coupled()
      ensures match AttemptOf(|frame|, totalSent, e)
              case Broken => sent == None && log == old(log) && wires == old(wires) && model.flight == old(model.flight)
              case Advanced(events, n) =>
                && sent == Some(n) && log == old(log) + events
                && wires == PutOnLast(old(wires), frame[totalSent..totalSent + n])
                && model.flight == if totalSent + n == |frame| then Idle else old(model.flight).(sent := totalSent + n)
    {
      PutNothing(wires, frame, totalSent);
      match e {
        case Produces(p) =>
          Produce(p);
          sent := Some(0);
        case WouldBlock =>
          sent := Some(0);
        case Breaks =>
          sent := None;
        case Accepts(count) =>
          if count == 0 {
            return None;
          }
          var n := Min(count, |frame| - totalSent);
          Transmit(frame, totalSent, n);
          sent := Some(n);
      }
    }

    /** _send_frame while the environment does what the script says. */
    method SendFrame(frame: Bytes, script: seq<Env>) returns (result: SendResult)
      requires Coupled() && connected && model.flight.Sending? && model.flight.sent == 0
      requires |model.flight.payload| <= MAX_PAYLOAD_SIZE && frame == FrameOf(model.flight.payload)
      requires Fits(maxSize, script)
      modifies this`wires, this`running, this`model, this`log, buffer
      ensures Coupled()
      ensures var t := SendTrace(|frame|, 0, script);
              && result == t.result && log == old(log) + t.events && t.sent <= |frame|
              && wires == PutOnLast(old(wires), frame[..t.sent])
      ensures result.Sent? ==> model.flight.Idle?
      ensures !result.Sent? ==> model.flight.Sending? && model.flight.payload == old(model.flight.payload)
      ensures result.Stopped? ==> !running
    {
      hide Run, PutOnLast, AttemptOf;
      ghost var payload, whole, events: seq<Event> := model.flight.payload, SendTrace(|frame|, 0, script), [];
      var totalSent: nat, i := 0, 0;
      PutNothing(wires, frame, 0);
      while totalSent < |frame|
        invariant 0 <= i <= |script| && totalSent <= |frame|
        invariant Coupled() && log == old(log) + events
        invariant wires == PutOnLast(old(wires), frame[..totalSent])
        invariant whole == Before(events, SendTrace(|frame|, totalSent, script[i..]))
        invariant totalSent == |frame| ==> model.flight.Idle?
        invariant totalSent < |frame| ==>
            model.flight.Sending? && model.flight.sent == totalSent && model.flight.payload == payload
        decreases |script| - i
      {
        if i == |script| {
          SeeStop();
          return Stopped;
        }
        TraceGoesOn(whole, events, |frame|, totalSent, script, i);
        var sent := TrySend(frame, totalSent, script[i]);
        if sent.None? {
          return Failed;
        }
        PutTwice(old(wires), frame, totalSent, sent.value);
        events := events + AttemptOf(|frame|, totalSent, script[i]).events;
        totalSent := totalSent + sent.value;
        i := i + 1;
      }
      result := Sent;
    }

    /** start() on a client that has stopped. */
    method Start()
      requires Valid() && !running && !connected
      modifies this`running, this`model, this`log
      ensures Valid() && running && log == old(log) + [Restart]
    {
      running := true;
      Follow(Restart);
    }

    /** stop(), at any time: a frame in flight is given up, and the socket is closed. */
    method Stop()
      requires Coupled()
      modifies this`running, this`connected, this`model, this`log
      ensures Valid() && !running && !connected
      ensures log == old(log) + [StopRequested]
                     + (if old(model.flight.Sending?) then [Abandon] else if old(connected) then [Disconnect] else [])
    {
      SeeStop();
      ghost var wasConnected := connected;
      connected := false;
      if model.flight.Sending? {
        Follow(Abandon);
      } else if wasConnected {
        Follow(Disconnect);
      }
    }

    /** Drops a dead socket and tries to connect afresh. */
    method Reconnect(connects: bool)
      requires Valid()
      modifies this`connected, this`wires, this`model, this`log
      ensures Valid() && connected == connects && log == old(log) + ReconnectSteps(old(connected), connects)
    {
      if connected {
        connected := false;
        Follow(Disconnect);
      }
      if connects {
        connected := true;
        wires := wires + [[]];
        Follow(Connect);
      }
    }

    /** Pops the oldest payload into the sender's hands. */
    method Take() returns (payload: Option<Bytes>)
      requires Valid() && connected
      modifies this`model, this`log, buffer`queue
      ensures Coupled()
      ensures payload == if old(buffer.queue) == [] then None else Some(old(buffer.queue)[0])
      ensures payload.None? ==> model.flight.Idle? && log == old(log)
      ensures payload.Some? ==> |payload.value| <= maxSize && model.flight.Sending? && log == old(log) + [Pop]
                                && model.flight.payload == payload.value && model.flight.sent == 0
    {
      ghost var before := log;
      payload := buffer.Pop();
      if payload.Some? {
        QueueFits(maxSize, buffer.capacity, before);
        Follow(Pop);
      }
    }

    /** The connection broke: the socket is dropped and the payload goes back to the head of the buffer. */
    method PutBack(payload: Bytes)
      requires Coupled() && model.flight.Sending? && model.flight.payload == payload
      modifies this`connected, this`model, this`log, buffer
      ensures Valid() && log == old(log) + [SendFails]
    {
      connected := false;
      buffer.Unpop(payload);
      Follow(SendFails);
    }

    /** A stop interrupted the send: stop() drops the socket, and the payload is gone. */
    method GiveUp()
      requires Coupled() && model.flight.Sending? && !running
      modifies this`connected, this`model, this`log
      ensures Valid() && log == old(log) + [Abandon]
    {
      connected := false;
      Follow(Abandon);
    }

    /** Sends a payload taken from the buffer, and puts it back if the connection breaks. */
    method Ship(payload: Bytes, script: seq<Env>)
      requires Coupled() && connected && model.flight.Sending? && model.flight.sent == 0
      requires model.flight.payload == payload && |payload| <= maxSize && Fits(maxSize, script)
      modifies this, buffer
      ensures Valid() && log == old(log) + ShipSteps(payload, script)
      ensures var t := SendTrace(HEADER_SIZE + |payload|, 0, script);
              t.sent <= |FrameOf(payload)| && wires == PutOnLast(old(wires), FrameOf(payload)[..t.sent])
    {
      hide Run;
      var result := SendFrame(FrameOf(payload), script);
      if result.Failed? {
        PutBack(payload);
      } else if result.Stopped? {
        GiveUp();
      }
    }

    /** One turn of _egress_loop; stop() closes the socket after a turn that it interrupted. */
    method EgressTurn(alive: bool, connects: bool, script: seq<Env>)
      requires Valid() && running
      requires Fits(maxSize, script)
      modifies this, buffer
      ensures Valid()
      ensures log == old(log) + TurnSteps(old(connected), alive, connects, old(buffer.queue), script)
    {
      hide Run, SendTrace, ShipSteps, FrameOf;
      if !connected || !alive {
        Reconnect(connects);
        if !connected {
          return;
        }
      }
      var payload := Take();
      if payload.Some? {
        Ship(payload.value, script);
      }
    }
  }
}
