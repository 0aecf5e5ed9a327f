/**
 * What the transport never loses, and that delivery can always go on (src/interceptor/egress/uds_client.py,
 * src/interceptor/egress/ring_buffer.py).
 */
module Delivery {
  import opened Collections
  import opened Framing
  import opened RingBuffer
  import opened Transport

  // ---------- runs from any state ----------

  function Steps(maxSize: nat, s: State, events: seq<Event>): State {
    if events == [] then s else Next(maxSize, Steps(maxSize, s, events[..|events| - 1]), events[|events| - 1])
  }

  lemma {:induction false} StepsAppend(maxSize: nat, s: State, a: seq<Event>, b: seq<Event>)
    ensures Steps(maxSize, s, a + b) == Steps(maxSize, Steps(maxSize, s, a), b)
  {
    hide Next;
    if b == [] {
      assert a + b == a;
    } else {
      assert (a + b)[..|a + b| - 1] == a + b[..|b| - 1];
      StepsAppend(maxSize, s, a, b[..|b| - 1]);
    }
  }

  lemma StepsOne(maxSize: nat, s: State, e: Event)
    ensures Steps(maxSize, s, [e]) == Next(maxSize, s, e) && Steps(maxSize, s, []) == s
  {
    assert [e][..0] == [];
  }

  lemma {:induction false} RunIsSteps(maxSize: nat, capacity: nat, events: seq<Event>)
    ensures Run(maxSize, capacity, events) == Steps(maxSize, Initial(capacity), events)
  {
    hide Next;
    if events != [] {
      RunIsSteps(maxSize, capacity, events[..|events| - 1]);
    }
  }

  // ---------- what each step does to the completed places ----------

  lemma CompletedAfterSend(maxSize: nat, s: State, n: nat)
    requires CanSend(s, n)
    ensures CompletedOf(AfterSend(s, n).connections)
         == CompletedOf(s.connections) + (if s.flight.sent + n == |FrameOf(s.flight.payload)| then [s.flight.index] else [])
  {
    hide FrameOf;
    var last := s.connections[|s.connections| - 1];
    CompletedOfLast(s.connections, LongerWire(s, n));
    assert LongerWire(s, n).completed[|last.completed|..]
        == if s.flight.sent + n == |FrameOf(s.flight.payload)| then [s.flight.index] else [];
  }

  lemma CompletedAfterConnect(cs: seq<Connection>)
    ensures CompletedOf(cs + [UNUSED]) == CompletedOf(cs)
  {
    assert (cs + [UNUSED])[..|cs|] == cs;
    assert CompletedOf(cs) + [] == CompletedOf(cs);
  }

  lemma CompletedAfterRead(maxSize: nat, s: State, k: nat, n: nat)
    requires k < |s.connections| && s.connections[k].readCount + n <= |s.connections[k].wire|
    ensures CompletedOf(AfterRead(maxSize, s, k, n).connections) == CompletedOf(s.connections)
  {
    hide ServeChunk;
    CompletedOfSame(s.connections, AfterRead(maxSize, s, k, n).connections);
  }

  // ---------- nothing is dropped but what overflows ----------

  /** Something has been dropped only if more payloads have been pushed than the buffer holds. */
  ghost predicate DropsByOverflow(s: State) {
    s.dropped > 0 ==> |s.pushed| > s.capacity
  }

  lemma DropStep(maxSize: nat, s: State, e: Event)
    requires QueueInv(s) && DropsByOverflow(s)
    ensures DropsByOverflow(Next(maxSize, s, e)) && Next(maxSize, s, e).capacity == s.capacity
  {
    hide CompletedOf, FrameOf, ServeChunk;
  }

  lemma QueueOf(maxSize: nat, s: State)
    requires Inv(maxSize, s)
    ensures QueueInv(s)
  {
  }

  /** While no more payloads have been pushed than the buffer holds, none has been dropped, whatever broke. */
  lemma {:induction false} NothingDroppedEarly(maxSize: nat, capacity: nat, events: seq<Event>)
    requires 0 < capacity && maxSize <= MAX_PAYLOAD_SIZE
    ensures var s := Run(maxSize, capacity, events);
            && DropsByOverflow(s) && s.capacity == capacity
            && (|s.pushed| <= capacity ==> s.dropped == 0)
  {
    hide Inv, Next;
    if events != [] {
      var init := events[..|events| - 1];
      NothingDroppedEarly(maxSize, capacity, init);
      RunKeeps(maxSize, capacity, init);
      QueueOf(maxSize, Run(maxSize, capacity, init));
      DropStep(maxSize, Run(maxSize, capacity, init), events[|events| - 1]);
    }
  }

  // ---------- the latest payloads are safe ----------

  /** The places of the payloads that a stop has made the sender give up. */
  function GivenUp(maxSize: nat, capacity: nat, events: seq<Event>): set<int> {
    if events == [] then {}
    else
      var init, e := events[..|events| - 1], events[|events| - 1];
      GivenUp(maxSize, capacity, init) + NowGivenUp(maxSize, Run(maxSize, capacity, init), e)
  }

  function NowGivenUp(maxSize: nat, s: State, e: Event): set<int> {
    if e.Abandon? && Enabled(maxSize, s, e) then {s.flight.index} else {}
  }

  /** The payload pushed at place i is sent, queued, in flight or given up at a stop. */
  ghost predicate IsSafe(s: State, givenUp: set<int>, i: int) {
    i in CompletedOf(s.connections) || i >= FirstPlace(s) || (s.flight.Sending? && s.flight.index == i) || i in givenUp
  }

  /** So are all of the last payloads pushed, as many as the buffer holds. */
  ghost predicate RecentAreSafe(s: State, givenUp: set<int>) {
    forall i :: 0 <= i < |s.pushed| && |s.pushed| - s.capacity <= i ==> IsSafe(s, givenUp, i)
  }

  lemma SafeStep(maxSize: nat, s: State, e: Event, givenUp: set<int>)
    requires QueueInv(s) && FlightIsOlder(s) && RecentAreSafe(s, givenUp)
    ensures RecentAreSafe(Next(maxSize, s, e), givenUp + NowGivenUp(maxSize, s, e))
  {
    hide CompletedOf, AfterSend, AfterRead, FrameOf, IsSuffix;
    var s' := Next(maxSize, s, e);
    if Enabled(maxSize, s, e) {
      match e {
        case Connect => CompletedAfterConnect(s.connections);
        case Send(n) =>
          CompletedAfterSend(maxSize, s, n);
          SendTouches(s, n);
        case Read(k, n) =>
          CompletedAfterRead(maxSize, s, k, n);
          ReadTouches(maxSize, s, k, n);
        case _ =>
      }
    }
    forall i | 0 <= i < |s'.pushed| && |s'.pushed| - s'.capacity <= i
      ensures IsSafe(s', givenUp + NowGivenUp(maxSize, s, e), i)
    {
      if i < |s.pushed| {
        assert IsSafe(s, givenUp, i);
      }
    }
  }

  /** A payload in flight is older than all queued ones, and with room in the buffer just before them. */
  ghost predicate FlightIsOlder(s: State) {
    s.flight.Sending? ==>
      s.flight.index < FirstPlace(s) && (|s.queue| < s.capacity ==> s.flight.index == FirstPlace(s) - 1)
  }

  lemma SendTouches(s: State, n: nat)
    requires CanSend(s, n)
    ensures var s' := AfterSend(s, n);
            && s'.pushed == s.pushed && s'.queue == s.queue && s'.capacity == s.capacity && s'.dropped == s.dropped
            && s'.abandoned == s.abandoned && s'.connected == s.connected && s'.stopping == s.stopping
            && |s'.connections| == |s.connections|
            && s'.flight == if s.flight.sent + n == |FrameOf(s.flight.payload)| then Idle
                            else Sending(s.flight.payload, s.flight.index, s.flight.sent + n)
  {
    hide FrameOf;
  }

  lemma ReadTouches(maxSize: nat, s: State, k: nat, n: nat)
    requires k < |s.connections| && s.connections[k].readCount + n <= |s.connections[k].wire|
    ensures var s' := AfterRead(maxSize, s, k, n);
            s'.pushed == s.pushed && s'.queue == s.queue && s'.capacity == s.capacity && s'.flight == s.flight
  {
    hide ServeChunk;
  }

  /**
   * Under every interleaving of pushes, failures and reconnects each of the last payloads pushed, as many as the buffer
   * holds, has been sent completely, is queued, is in flight, or was given up by a stop in mid-frame.
   */
  lemma {:induction false} RecentPayloadsAreSafe(maxSize: nat, capacity: nat, events: seq<Event>)
    requires 0 < capacity && maxSize <= MAX_PAYLOAD_SIZE
    ensures RecentAreSafe(Run(maxSize, capacity, events), GivenUp(maxSize, capacity, events))
  {
    hide RecentAreSafe, Next, NowGivenUp;
    if events == [] {
      NothingPushed(capacity);
    } else {
      var init := events[..|events| - 1];
      RecentPayloadsAreSafe(maxSize, capacity, init);
      RunKeeps(maxSize, capacity, init);
      var s := Run(maxSize, capacity, init);
      SafeStep(maxSize, s, events[|events| - 1], GivenUp(maxSize, capacity, init));
    }
  }

  lemma NothingPushed(capacity: nat)
    ensures RecentAreSafe(Initial(capacity), {})
  {
  }

  /** A run without a stop in mid-frame gives nothing up. */
  lemma {:induction false} NothingGivenUp(maxSize: nat, capacity: nat, events: seq<Event>)
    requires Abandon !in events
    ensures GivenUp(maxSize, capacity, events) == {} && Run(maxSize, capacity, events).abandoned == 0
  {
    if events != [] {
      NothingGivenUp(maxSize, capacity, events[..|events| - 1]);
    }
  }

  // ---------- a broken send is sent again ----------

  function Pushes(ps: seq<Bytes>): (r: seq<Event>)
    ensures |r| == |ps| && forall i :: 0 <= i < |ps| ==> r[i] == Push(ps[i])
  {
    seq(|ps|, i requires 0 <= i < |ps| => Push(ps[i]))
  }

  lemma {:induction false} PushesWithRoom(maxSize: nat, s: State, ps: seq<Bytes>)
    requires |s.queue| + |ps| <= s.capacity && AllFit(maxSize, ps) && s.capacity > 0
    ensures Steps(maxSize, s, Pushes(ps)) == s.(queue := s.queue + ps, pushed := s.pushed + ps)
  {
    if ps == [] {
      assert s.queue + ps == s.queue && s.pushed + ps == s.pushed;
    } else {
      var init, p := ps[..|ps| - 1], ps[|ps| - 1];
      PushesWithRoom(maxSize, s, init);
      assert Pushes(ps)[..|ps| - 1] == Pushes(init) && p in ps;
      assert s.queue + init + [p] == s.queue + ps && s.pushed + init + [p] == s.pushed + ps;
    }
  }

  /** A broken send with room in the buffer puts the payload back at the head of the queue. */
  lemma BrokenSend(maxSize: nat, s: State)
    requires s.flight.Sending? && |s.queue| < s.capacity
    ensures Next(maxSize, s, SendFails) == s.(connected := false, flight := Idle, queue := [s.flight.payload] + s.queue)
  {
  }

  lemma ConnectAndPop(maxSize: nat, s: State)
    requires s.capacity > 0 && !s.connected && s.flight.Idle? && s.queue != [] && |s.queue| <= |s.pushed|
    ensures Steps(maxSize, s, [Connect, Pop])
         == s.(connected := true, connections := s.connections + [UNUSED], queue := s.queue[1..],
               flight := Sending(s.queue[0], FirstPlace(s), 0))
  {
    assert [Connect, Pop] == [Connect] + [Pop];
    StepsAppend(maxSize, s, [Connect], [Pop]);
    StepsOne(maxSize, s, Connect);
    StepsOne(maxSize, Next(maxSize, s, Connect), Pop);
  }

  /**
   * A send that breaks, whatever it has sent, with room in the buffer, also for what is pushed until the sender has
   * connected again: the next payload it takes is the same one, at its old place, and nothing is dropped.
   */
  lemma BrokenSendComesBack(maxSize: nat, s: State, ps: seq<Bytes>)
    requires Inv(maxSize, s) && s.flight.Sending? && |s.queue| + 1 + |ps| <= s.capacity && AllFit(maxSize, ps)
    ensures var s' := Steps(maxSize, s, [SendFails] + Pushes(ps) + [Connect, Pop]);
            && s'.flight == Sending(s.flight.payload, s.flight.index, 0)
            && s'.queue == s.queue + ps && s'.dropped == s.dropped && s'.abandoned == s.abandoned
            && s'.connected && s'.pushed == s.pushed + ps
            && s'.connections == s.connections + [UNUSED]
  {
    hide Next, WireInv, ServersInv, OpenInv, Places, AllFit, FrameOf, IsSuffix;
    var payload := s.flight.payload;
    var broken := s.(connected := false, flight := Idle, queue := [payload] + s.queue);
    var waiting := broken.(queue := [payload] + (s.queue + ps), pushed := s.pushed + ps);
    BrokenSend(maxSize, s);
    StepsOne(maxSize, s, SendFails);
    StepsAppend(maxSize, s, [SendFails], Pushes(ps));
    PushesWithRoom(maxSize, broken, ps);
    assert [payload] + s.queue + ps == [payload] + (s.queue + ps);
    StepsAppend(maxSize, s, [SendFails] + Pushes(ps), [Connect, Pop]);
    QueueIsNoLonger(maxSize, s);
    ConnectAndPop(maxSize, waiting);
    assert waiting.queue[1..] == s.queue + ps;
  }

  // ---------- delivery can always go on ----------

  function PlaceRange(lo: int, hi: int): (r: seq<int>)
    requires lo <= hi
    ensures |r| == hi - lo && forall i :: 0 <= i < |r| ==> r[i] == lo + i
  {
    seq(hi - lo, i => lo + i)
  }

  /** From s these steps, all of them the sender's, lead to s' with the given places sent besides, and nothing lost. */
  ghost predicate Delivers(maxSize: nat, s: State, events: seq<Event>, s': State, places: seq<int>) {
    && s' == Steps(maxSize, s, events) && Inv(maxSize, s')
    && (forall e :: e in events ==> e.Connect? || e.Pop? || e.Send?)
    && CompletedOf(s'.connections) == CompletedOf(s.connections) + places
    && s'.pushed == s.pushed && s'.dropped == s.dropped && s'.abandoned == s.abandoned && s'.capacity == s.capacity
  }

  lemma DeliversMore(maxSize: nat, s: State, a: seq<Event>, t: State, x: seq<int>, b: seq<Event>, u: State, y: seq<int>)
    requires Delivers(maxSize, s, a, t, x) && Delivers(maxSize, t, b, u, y)
    ensures Delivers(maxSize, s, a + b, u, x + y)
  {
    hide Inv, CompletedOf, Steps;
    StepsAppend(maxSize, s, a, b);
    assert CompletedOf(s.connections) + (x + y) == CompletedOf(s.connections) + x + y;
  }

  /** The rest of the frame in flight goes out in one piece. */
  lemma FinishFlight(maxSize: nat, s: State) returns (n: nat)
    requires Inv(maxSize, s) && s.flight.Sending? && maxSize <= MAX_PAYLOAD_SIZE
    ensures var s' := Next(maxSize, s, Send(n));
            && Delivers(maxSize, s, [Send(n)], s', [s.flight.index])
            && s'.flight.Idle? && s'.connected && s'.queue == s.queue
  {
    hide WireInv, ServerInv, TailOf, FrameOf, LongerWire;
    OpenFactsHold(maxSize, s);
    n := |FrameOf(s.flight.payload)| - s.flight.sent;
    StepsOne(maxSize, s, Send(n));
    NextKeeps(maxSize, s, Send(n));
    CompletedAfterSend(maxSize, s, n);
    SendTouches(s, n);
  }

  lemma TakeNext(maxSize: nat, s: State)
    requires Inv(maxSize, s) && s.flight.Idle? && s.connected && s.queue != [] && maxSize <= MAX_PAYLOAD_SIZE
    ensures var s' := Next(maxSize, s, Pop);
            && Delivers(maxSize, s, [Pop], s', [])
            && s'.flight == Sending(s.queue[0], FirstPlace(s), 0) && s'.queue == s.queue[1..]
  {
    hide WireInv, ServerInv, TailOf, FrameOf;
    StepsOne(maxSize, s, Pop);
    NextKeeps(maxSize, s, Pop);
    assert CompletedOf(s.connections) + [] == CompletedOf(s.connections);
  }

  /** A connected idle sender can send everything that is queued, in order. */
  lemma {:induction false} DrainQueue(maxSize: nat, s: State) returns (events: seq<Event>, s': State)
    requires Inv(maxSize, s) && s.flight.Idle? && s.connected && maxSize <= MAX_PAYLOAD_SIZE
    ensures Delivers(maxSize, s, events, s', PlaceRange(FirstPlace(s), |s.pushed|)) && s'.queue == [] && s'.flight.Idle?
    decreases |s.queue|
  {
    hide Inv, CompletedOf, Delivers;
    QueueIsNoLonger(maxSize, s);
    if s.queue == [] {
      events, s' := [], s;
      NothingToDo(maxSize, s);
      assert PlaceRange(FirstPlace(s), |s.pushed|) == [];
    } else {
      TakeNext(maxSize, s);
      var taken := Next(maxSize, s, Pop);
      InvOf(maxSize, s, [Pop], taken, []);
      var n := FinishFlight(maxSize, taken);
      var sent := Next(maxSize, taken, Send(n));
      DeliversMore(maxSize, s, [Pop], taken, [], [Send(n)], sent, [FirstPlace(s)]);
      InvOf(maxSize, s, [Pop] + [Send(n)], sent, [] + [FirstPlace(s)]);
      var more;
      more, s' := DrainQueue(maxSize, sent);
      DeliversMore(maxSize, s, [Pop] + [Send(n)], sent, [] + [FirstPlace(s)], more, s', PlaceRange(FirstPlace(sent), |s.pushed|));
      events := [Pop] + [Send(n)] + more;
      assert [] + [FirstPlace(s)] + PlaceRange(FirstPlace(sent), |s.pushed|) == PlaceRange(FirstPlace(s), |s.pushed|);
    }
  }

  lemma QueueIsNoLonger(maxSize: nat, s: State)
    requires Inv(maxSize, s)
    ensures 0 <= FirstPlace(s) <= |s.pushed|
  {
  }

  lemma InvOf(maxSize: nat, s: State, events: seq<Event>, s': State, places: seq<int>)
    requires Delivers(maxSize, s, events, s', places)
    ensures Inv(maxSize, s') && s'.pushed == s.pushed
  {
  }

  lemma NothingToDo(maxSize: nat, s: State)
    requires Inv(maxSize, s)
    ensures Delivers(maxSize, s, [], s, [])
  {
    assert CompletedOf(s.connections) + [] == CompletedOf(s.connections);
  }

  lemma ConnectAgain(maxSize: nat, s: State)
    requires Inv(maxSize, s) && !s.connected && maxSize <= MAX_PAYLOAD_SIZE
    ensures var s' := Next(maxSize, s, Connect);
            && Delivers(maxSize, s, [Connect], s', [])
            && s'.connected && s'.queue == s.queue && s'.flight == s.flight && s'.flight.Idle?
  {
    hide WireInv, ServerInv, TailOf, FrameOf;
    StepsOne(maxSize, s, Connect);
    NextKeeps(maxSize, s, Connect);
    CompletedAfterConnect(s.connections);
    assert CompletedOf(s.connections) + [] == CompletedOf(s.connections);
  }

  /** The places that are still to be sent: the one in flight and the queued ones. */
  function Pending(s: State): seq<int>
    requires 0 <= FirstPlace(s) <= |s.pushed|
  {
    (if s.flight.Sending? then [s.flight.index] else []) + PlaceRange(FirstPlace(s), |s.pushed|)
  }

  /**
   * From every reachable state the sender's own steps can send everything that is in flight or queued, completely and
   * in order, and lose nothing: no failure leaves the system in a state in which delivery is stuck.
   */
  lemma CanDeliverAll(maxSize: nat, capacity: nat, history: seq<Event>) returns (events: seq<Event>, s': State)
    requires 0 < capacity && maxSize <= MAX_PAYLOAD_SIZE
    ensures var s := Run(maxSize, capacity, history);
            && 0 <= FirstPlace(s) <= |s.pushed|
            && Delivers(maxSize, s, events, s', Pending(s)) && s'.queue == [] && s'.flight.Idle?
  {
    hide Inv, CompletedOf, Delivers, Run;
    var s := Run(maxSize, capacity, history);
    RunKeeps(maxSize, capacity, history);
    QueueIsNoLonger(maxSize, s);
    if s.flight.Sending? {
      var n := FinishFlight(maxSize, s);
      var sent := Next(maxSize, s, Send(n));
      InvOf(maxSize, s, [Send(n)], sent, [s.flight.index]);
      var more;
      more, s' := DrainQueue(maxSize, sent);
      DeliversMore(maxSize, s, [Send(n)], sent, [s.flight.index], more, s', PlaceRange(FirstPlace(sent), |s.pushed|));
      events := [Send(n)] + more;
    } else if s.connected {
      events, s' := DrainQueue(maxSize, s);
      assert [] + PlaceRange(FirstPlace(s), |s.pushed|) == PlaceRange(FirstPlace(s), |s.pushed|);
    } else {
      ConnectAgain(maxSize, s);
      var ready := Next(maxSize, s, Connect);
      InvOf(maxSize, s, [Connect], ready, []);
      var more;
      more, s' := DrainQueue(maxSize, ready);
      DeliversMore(maxSize, s, [Connect], ready, [], more, s', PlaceRange(FirstPlace(ready), |s.pushed|));
      events := [Connect] + more;
    }
  }
}
