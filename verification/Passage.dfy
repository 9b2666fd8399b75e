/** Runs that get somewhere: a packet can cross an idle path, a reply comes back, a control message can overtake. */
module Passage {
  import opened Bytes
  import opened FrameCodec
  import opened Places
  import opened Pipeline
  import opened PipelineSafety
  import opened PipelineRuns
  import opened Delivery
  import opened Origins

  ghost predicate Leads(w: World, w': World) {
    exists actions :: Run(w, actions) == Some(w')
  }

  /** What the actions below stand for, one by one. */
  lemma Dispatch(w: World)
    ensures forall c {:trigger Next(w, Submit(c))} :: Next(w, Submit(c)) == DoSubmit(w, c)
    ensures forall c {:trigger Next(w, Receive(c))} :: Next(w, Receive(c)) == DoReceive(w, c)
    ensures forall n {:trigger Next(w, TakeUnix(n))} :: Next(w, TakeUnix(n)) == DoTakeUnix(w, n)
    ensures forall n {:trigger Next(w, TakeUp(n))} :: Next(w, TakeUp(n)) == DoTakeUp(w, n)
    ensures forall n {:trigger Next(w, Lookup(n))} :: Next(w, Lookup(n)) == DoLookup(w, n)
    ensures forall n {:trigger Next(w, Deliver(n))} :: Next(w, Deliver(n)) == DoDeliver(w, n)
    ensures forall h {:trigger Next(w, TakeSink(h))} :: Next(w, TakeSink(h)) == DoTakeSink(w, h)
    ensures forall h {:trigger Next(w, WriteFrame(h))} :: Next(w, WriteFrame(h)) == DoWriteFrame(w, h)
    ensures forall h, count {:trigger Next(w, Carry(h, count))} :: Next(w, Carry(h, count)) == DoCarry(w, h, count)
    ensures forall h {:trigger Next(w, ReadFrame(h))} :: Next(w, ReadFrame(h)) == DoReadFrame(w, h)
    ensures forall h {:trigger Next(w, Forward(h))} :: Next(w, Forward(h)) == DoForward(w, h)
    ensures forall s {:trigger Next(w, TakeSock(s))} :: Next(w, TakeSock(s)) == DoTakeSock(w, s)
    ensures forall s {:trigger Next(w, Process(s))} :: Next(w, Process(s)) == DoProcess(w, s)
    ensures forall s {:trigger Next(w, PassUp(s))} :: Next(w, PassUp(s)) == DoPassUp(w, s)
  {
    hide DoSubmit, DoReceive, DoTakeUnix, DoTakeUp, DoLookup, DoDeliver, DoTakeSink, DoWriteFrame, DoCarry, DoReadFrame;
    hide DoForward, DoTakeSock, DoProcess, DoPassUp;
  }

  lemma Stay(w: World)
    ensures Leads(w, w)
  {
    assert Run(w, []) == Some(w);
  }

  lemma {:induction false} RunConcat(w: World, first: seq<Action>, second: seq<Action>)
    requires Run(w, first).Some?
    ensures Run(w, first + second) == Run(Run(w, first).value, second)
    decreases |first|
  {
    hide Next;
    if first == [] {
      assert first + second == second;
    } else {
      assert (first + second)[1..] == first[1..] + second;
      RunConcat(Next(w, first[0]).value, first[1..], second);
    }
  }

  lemma ThenStep(w: World, mid: World, a: Action)
    requires Leads(w, mid) && Next(mid, a).Some?
    ensures Leads(w, Next(mid, a).value)
  {
    hide Next;
    var actions :| Run(w, actions) == Some(mid);
    RunConcat(w, actions, [a]);
    assert [a][1..] == [];
    assert Run(mid, [a]) == Run(Next(mid, a).value, []);
  }

  lemma ReachesOn(w: World, w': World)
    requires Reachable(w) && Leads(w, w')
    ensures Reachable(w')
  {
    var before :| Run(START, before) == Some(w);
    var after :| Run(w, after) == Some(w');
    RunConcat(START, before, after);
  }

  /** Nothing changes but at these places. */
  ghost predicate SameBut(c: Content, c': Content, changed: set<Place>) {
    forall p {:trigger At(c', p)} :: p !in changed ==> At(c', p) == At(c, p)
  }

  /** The same connections, clients and ports. */
  ghost predicate SameSetting(w: World, w': World) {
    && w'.facts.halves == w.facts.halves && w'.facts.clients == w.facts.clients && w'.facts.accepted == w.facts.accepted
    && w'.table == w.table && w'.closed == w.closed
  }

  ghost predicate Idle(c: Content, p: Place) {
    At(c, p) == []
  }

  /** One step that moves the only token of `a` to `b`. */
  lemma Hop(w0: World, w: World, action: Action, a: Place, b: Place, t: Token, t': Token) returns (w': World)
    requires Leads(w0, w) && a != b && At(w.content, a) == [t] && Idle(w.content, b)
    requires Next(w, action) == Some(w.(content := Shift(w.content, a, b, t')))
    ensures Leads(w0, w') && w' == w.(content := w'.content)
    ensures Idle(w'.content, a) && At(w'.content, b) == [t'] && SameBut(w.content, w'.content, {a, b})
  {
    ThenStep(w0, w, action);
    hide Leads, Next;
    w' := Next(w, action).value;
  }

  // ---------------------------------------------------------------- the legs of the way

  /** From a client's read task to the forwarder. */
  lemma Departure(w0: World, w: World, c: Client, to: Host, toPort: u16, data: seq<u8>) returns (w': World)
    requires Leads(w0, w) && c in w.facts.clients && Idle(w.content, ClientHand(c))
    requires Idle(w.content, UnixQueue(w.facts.clients[c].host)) && Idle(w.content, UnixHand(w.facts.clients[c].host))
    ensures Leads(w0, w') && w'.table == w.table && w'.closed == w.closed && w'.streams == w.streams
    ensures var packet := Packet(to, w.facts.clients[c].port, toPort, data);
            && w'.facts == WithAccepted(w.facts, c, packet)
            && At(w'.content, UnixHand(w.facts.clients[c].host)) == [Outgoing(c, packet)]
    ensures SameBut(w.content, w'.content, {UnixHand(w.facts.clients[c].host)})
  {
    var n, packet := w.facts.clients[c].host, Packet(to, w.facts.clients[c].port, toPort, data);
    hide Leads, At, Shift, Next;
    var w1 := Pickup(w0, w, c, to, toPort, data);
    Dispatch(w1);
    var w2 := Hop(w0, w1, Submit(c), ClientHand(c), UnixQueue(n), Outgoing(c, packet), Outgoing(c, packet));
    Dispatch(w2);
    w' := Hop(w0, w2, TakeUnix(n), UnixQueue(n), UnixHand(n), Outgoing(c, packet), Outgoing(c, packet));
  }

  lemma Pickup(w0: World, w: World, c: Client, to: Host, toPort: u16, data: seq<u8>) returns (w': World)
    requires Leads(w0, w) && c in w.facts.clients && Idle(w.content, ClientHand(c))
    ensures var packet := Packet(to, w.facts.clients[c].port, toPort, data);
            && Leads(w0, w')
            && w' == w.(facts := WithAccepted(w.facts, c, packet), content := w'.content)
            && At(w'.content, ClientHand(c)) == [Outgoing(c, packet)]
    ensures SameBut(w.content, w'.content, {ClientHand(c)})
  {
    ThenStep(w0, w, Accept(c, to, toPort, data));
    hide Leads;
    w' := Next(w, Accept(c, to, toPort, data)).value;
  }

  /** From the forwarder into the sink of a connection to the addressee. */
  lemma Entry(w0: World, w: World, h: Half, c: Client, packet: Packet) returns (w': World)
    requires Leads(w0, w) && h in w.facts.halves && w.facts.halves[h].target == packet.host
    requires At(w.content, UnixHand(w.facts.halves[h].origin)) == [Outgoing(c, packet)] && Idle(w.content, Sink(h))
    ensures Leads(w0, w') && w' == w.(content := w'.content)
    ensures var t, n := Framed(h, Data(packet.srcPort, packet.dstPort, packet.data)), w.facts.halves[h].origin;
            && At(w'.content, Sink(h)) == [t] && At(w'.content, Entered(h)) == At(w.content, Entered(h)) + [t]
            && Idle(w'.content, UnixHand(n))
            && SameBut(w.content, w'.content, {UnixHand(n), Forwarded(n), Sink(h), Entered(h)})
  {
    var n := w.facts.halves[h].origin;
    ThenStep(w0, w, SendFrame(n, h));
    hide Leads;
    w' := Next(w, SendFrame(n, h)).value;
  }

  /** What the reader gets of a frame, and the bytes of it that stay in the reader's buffer. */
  function Cut(frame: Frame): Frame {
    if frame.Data? then frame.(data := frame.data[..|frame.data| % 0x1_0000]) else frame
  }

  function Surplus(frame: Frame): seq<u8> {
    if frame.Data? then frame.data[|frame.data| % 0x1_0000..] else []
  }

  lemma CutIffTooLong(frame: Frame)
    ensures Cut(frame) == frame <==> Fits(frame)
    ensures Surplus(frame) == [] <==> Fits(frame)
  {
  }

  ghost predicate OtherStreams(w: World, w': World, h: Half) {
    forall g | g != h :: StreamOf(w', g) == StreamOf(w, g)
  }

  /** From the sink, as bytes, into the hand of the read task at the other end. */
  lemma Crossing(w0: World, w: World, h: Half, frame: Frame) returns (w': World)
    requires Leads(w0, w) && h in w.facts.halves && At(w.content, Sink(h)) == [Framed(h, frame)]
    requires Idle(w.content, WriteHand(h)) && Idle(w.content, Wire(h)) && Idle(w.content, ReadHand(h))
    requires StreamOf(w, h) == Stream([], [])
    ensures Leads(w0, w') && SameSetting(w, w')
    ensures StreamOf(w', h) == Stream([], Surplus(frame)) && OtherStreams(w, w', h)
    ensures Idle(w'.content, Sink(h)) && At(w'.content, ReadHand(h)) == [Framed(h, Cut(frame))]
    ensures At(w'.content, Passed(h)) == At(w.content, Passed(h)) + [Framed(h, frame)]
    ensures SameBut(w.content, w'.content, {Sink(h), Passed(h), ReadHand(h)})
  {
    var t := Framed(h, frame);
    hide Leads, At, Shift, Encoding, Parse, Next, Cut, Surplus;
    Dispatch(w);
    var w1 := Hop(w0, w, TakeSink(h), Sink(h), WriteHand(h), t, t);
    var w2 := Write(w0, w1, h, frame);
    w' := Read(w0, w2, h, frame);
  }

  lemma Write(w0: World, w: World, h: Half, frame: Frame) returns (w': World)
    requires Leads(w0, w) && At(w.content, WriteHand(h)) == [Framed(h, frame)] && Idle(w.content, Wire(h))
    requires StreamOf(w, h) == Stream([], [])
    ensures Leads(w0, w') && SameSetting(w, w') && StreamOf(w', h) == Stream([], Encoding(frame))
    ensures OtherStreams(w, w', h)
    ensures Idle(w'.content, WriteHand(h)) && At(w'.content, Wire(h)) == [Framed(h, frame)]
    ensures SameBut(w.content, w'.content, {WriteHand(h), Wire(h)})
  {
    var bytes := Encoding(frame);
    assert [] + bytes == bytes && bytes[..|bytes|] == bytes && bytes[|bytes|..] == [];
    hide Leads, Encoding, Next;
    Dispatch(w);
    ThenStep(w0, w, WriteFrame(h));
    var w1 := Next(w, WriteFrame(h)).value;
    assert StreamOf(w1, h) == Stream(bytes, []);
    Dispatch(w1);
    ThenStep(w0, w1, Carry(h, |bytes|));
    w' := Next(w1, Carry(h, |bytes|)).value;
  }

  lemma Read(w0: World, w: World, h: Half, frame: Frame) returns (w': World)
    requires Leads(w0, w) && h in w.facts.halves
    requires At(w.content, Wire(h)) == [Framed(h, frame)] && Idle(w.content, ReadHand(h))
    requires StreamOf(w, h) == Stream([], Encoding(frame))
    ensures Leads(w0, w') && SameSetting(w, w') && StreamOf(w', h) == Stream([], Surplus(frame))
    ensures OtherStreams(w, w', h)
    ensures Idle(w'.content, Wire(h)) && At(w'.content, ReadHand(h)) == [Framed(h, Cut(frame))]
    ensures At(w'.content, Passed(h)) == At(w.content, Passed(h)) + [Framed(h, frame)]
    ensures SameBut(w.content, w'.content, {Wire(h), Passed(h), ReadHand(h)})
  {
    ParsesToCut(frame);
    hide Leads, Encoding, Parse, Next, Cut, Surplus;
    Dispatch(w);
    ThenStep(w0, w, ReadFrame(h));
    w' := Next(w, ReadFrame(h)).value;
    var t := Framed(h, frame);
    assert TakeOff(w.content, h) == Shift(w.content, Wire(h), Passed(h), t);
    assert w'.content == Push(TakeOff(w.content, h), ReadHand(h), Framed(h, Cut(frame)));
    ContentAfterRead(w.content, h, t, Framed(h, Cut(frame)));
    hide TakeOff, Shift, Push, DoReadFrame, At;
  }

  lemma ParsesToCut(frame: Frame)
    ensures Parse(Encoding(frame)) == Got(Cut(frame), Surplus(frame))
  {
    ParseOfEncoding(frame, []);
    assert Encoding(frame) + [] == Encoding(frame) && Surplus(frame) + [] == Surplus(frame);
    hide Encoding, Parse;
  }

  lemma ContentAfterRead(c: Content, h: Half, t: Token, t': Token)
    requires At(c, Wire(h)) == [t] && Idle(c, ReadHand(h))
    ensures var c' := Push(Shift(c, Wire(h), Passed(h), t), ReadHand(h), t');
            && Idle(c', Wire(h)) && At(c', ReadHand(h)) == [t'] && At(c', Passed(h)) == At(c, Passed(h)) + [t]
            && SameBut(c, c', {Wire(h), Passed(h), ReadHand(h)})
  {
  }

  /** From the read task to the task that delivers for the socket. */
  lemma Rise(w0: World, w: World, h: Half, frame: Frame) returns (w': World)
    requires Leads(w0, w) && h in w.facts.halves && frame.Data? && At(w.content, ReadHand(h)) == [Framed(h, frame)]
    requires Idle(w.content, SockQueue(SockOf(w.facts, h))) && Idle(w.content, SockHand(SockOf(w.facts, h)))
    ensures Leads(w0, w') && w' == w.(content := w'.content)
    ensures Idle(w'.content, ReadHand(h))
    ensures At(w'.content, SockHand(SockOf(w.facts, h))) == [Labelled(w.facts, h, frame)]
    ensures SameBut(w.content, w'.content, {ReadHand(h), SockHand(SockOf(w.facts, h))})
  {
    var s, t := SockOf(w.facts, h), Labelled(w.facts, h, frame);
    hide Leads, At, Shift, Next;
    Dispatch(w);
    var w1 := Hop(w0, w, Forward(h), ReadHand(h), SockQueue(s), Framed(h, frame), t);
    Dispatch(w1);
    w' := Hop(w0, w1, TakeSock(s), SockQueue(s), SockHand(s), t, t);
  }

  /** From there up to the forwarder towards the clients. */
  lemma Ascent(w0: World, w: World, s: Sock, t: Token) returns (w': World)
    requires Leads(w0, w) && At(w.content, SockHand(s)) == [t] && t.Incoming? && !IsControl(t)
    requires Idle(w.content, Upstream(s.host)) && Idle(w.content, NetHand(s.host)) && Idle(w.content, Chosen(s.host))
    ensures Leads(w0, w') && w' == w.(content := w'.content)
    ensures At(w'.content, NetHand(s.host)) == [t]
    ensures SameBut(w.content, w'.content, {SockHand(s), Split(s), NetHand(s.host)})
  {
    var w1 := Climb(w0, w, s, t);
    hide Leads, At, Shift, Next;
    Dispatch(w1);
    w' := Hop(w0, w1, TakeUp(s.host), Upstream(s.host), NetHand(s.host), t, t);
  }

  /** A client frame parts from the control messages and waits for the forwarder. */
  lemma Climb(w0: World, w: World, s: Sock, t: Token) returns (w': World)
    requires Leads(w0, w) && At(w.content, SockHand(s)) == [t]
    requires t.Incoming? && !IsControl(t) && Idle(w.content, Upstream(s.host))
    ensures Leads(w0, w') && w' == w.(content := w'.content)
    ensures Idle(w'.content, SockHand(s)) && At(w'.content, Upstream(s.host)) == [t]
    ensures SameBut(w.content, w'.content, {SockHand(s), Split(s), Upstream(s.host)})
  {
    Dispatch(w);
    ThenStep(w0, w, PassUp(s));
    hide Leads, Next;
    w' := Next(w, PassUp(s)).value;
  }

  /** Through the port table to the client bound to the port. */
  lemma Landing(w0: World, w: World, n: Host, t: Token, c: Client) returns (w': World)
    requires Leads(w0, w) && At(w.content, NetHand(n)) == [t] && t.Incoming?
    requires (n, t.packet.dstPort) in w.table && w.table[(n, t.packet.dstPort)] == c
    requires Idle(w.content, Chosen(n)) && Idle(w.content, ClientQueue(c)) && c !in w.closed
    ensures Leads(w0, w')
    ensures At(w'.content, Received(c))
            == At(w.content, Received(c)) + [Local(t.via, t.packet.host, t.packet.srcPort, t.packet.data)]
  {
    var chosen, got := Resolved(t.via, c, t.packet), Local(t.via, t.packet.host, t.packet.srcPort, t.packet.data);
    var w1 := Table(w0, w, n, t, c);
    hide Leads, At, Shift, Next;
    Dispatch(w1);
    var w2 := Hop(w0, w1, Deliver(n), Chosen(n), ClientQueue(c), chosen, got);
    w' := Fetch(w0, w2, c, got);
  }

  lemma Fetch(w0: World, w: World, c: Client, t: Token) returns (w': World)
    requires Leads(w0, w) && At(w.content, ClientQueue(c)) == [t]
    ensures Leads(w0, w') && At(w'.content, Received(c)) == At(w.content, Received(c)) + [t]
  {
    hide Leads, Next;
    Dispatch(w);
    ThenStep(w0, w, Receive(c));
    w' := Next(w, Receive(c)).value;
  }

  lemma Table(w0: World, w: World, n: Host, t: Token, c: Client) returns (w': World)
    requires Leads(w0, w) && At(w.content, NetHand(n)) == [t] && t.Incoming? && Idle(w.content, Chosen(n))
    requires (n, t.packet.dstPort) in w.table && w.table[(n, t.packet.dstPort)] == c
    ensures Leads(w0, w') && w' == w.(content := w'.content)
    ensures At(w'.content, Chosen(n)) == [Resolved(t.via, c, t.packet)]
    ensures SameBut(w.content, w'.content, {NetHand(n), Tabled(n), Chosen(n)})
  {
    hide Leads, Next;
    Dispatch(w);
    ThenStep(w0, w, Lookup(n));
    w' := Next(w, Lookup(n)).value;
  }

  // ---------------------------------------------------------------- pings

  /** Nothing is on this direction, and its reader has nothing to do. */
  ghost predicate QuietLink(w: World, h: Half) {
    && Idle(w.content, Sink(h)) && Idle(w.content, WriteHand(h)) && Idle(w.content, Wire(h))
    && Idle(w.content, ReadHand(h)) && StreamOf(w, h) == Stream([], [])
  }

  /** The ping task of a direction sends a ping. */
  lemma SendsPing(w0: World, w: World, h: Half) returns (w': World)
    requires Leads(w0, w) && h in w.facts.halves && Idle(w.content, Sink(h))
    ensures Next(w, SendPing(h)) == Some(w') && Leads(w0, w') && w' == w.(content := w'.content)
    ensures At(w'.content, Sink(h)) == [Framed(h, Ping)]
    ensures At(w'.content, Entered(h)) == At(w.content, Entered(h)) + [Framed(h, Ping)]
    ensures SameBut(w.content, w'.content, {Sink(h), Entered(h)})
  {
    ThenStep(w0, w, SendPing(h));
    hide Leads;
    w' := Next(w, SendPing(h)).value;
  }

  /** The read task at the other end answers it in the other direction. */
  lemma AnswersPing(w0: World, w: World, h: Half) returns (w': World)
    requires Leads(w0, w) && h in w.facts.halves && At(w.content, ReadHand(h)) == [Framed(h, Ping)]
    requires var back := w.facts.halves[h].back; back in w.facts.halves && back != h && Idle(w.content, Sink(back))
    ensures Leads(w0, w') && w' == w.(content := w'.content) && Idle(w'.content, ReadHand(h))
    ensures At(w'.content, Answered(h)) == At(w.content, Answered(h)) + [Framed(h, Ping)]
    ensures var back := w.facts.halves[h].back;
            && At(w'.content, Sink(back)) == [Framed(back, Pong)]
            && At(w'.content, Entered(back)) == At(w.content, Entered(back)) + [Framed(back, Pong)]
            && SameBut(w.content, w'.content, {ReadHand(h), Answered(h), Sink(back), Entered(back)})
  {
    ThenStep(w0, w, Answer(h));
    hide Leads;
    w' := Next(w, Answer(h)).value;
  }

  lemma HearsPong(w0: World, w: World, h: Half) returns (w': World)
    requires Leads(w0, w) && h in w.facts.halves && At(w.content, ReadHand(h)) == [Framed(h, Pong)]
    ensures Leads(w0, w') && SameBut(w.content, w'.content, {ReadHand(h), Heard(h)})
    ensures At(w'.content, Heard(h)) == At(w.content, Heard(h)) + [Framed(h, Pong)]
  {
    ThenStep(w0, w, Hear(h));
    hide Leads;
    w' := Next(w, Hear(h)).value;
  }

  /** A ping crosses. */
  lemma PingCrosses(w0: World, w: World, h: Half) returns (w': World)
    requires Leads(w0, w) && h in w.facts.halves && QuietLink(w, h)
    ensures Leads(w0, w') && w'.facts.halves == w.facts.halves && OtherStreams(w, w', h)
    ensures At(w'.content, ReadHand(h)) == [Framed(h, Ping)]
    ensures At(w'.content, Entered(h)) == At(w.content, Entered(h)) + [Framed(h, Ping)]
    ensures SameBut(w.content, w'.content, {Sink(h), Entered(h), Passed(h), ReadHand(h)})
  {
    hide Leads, At, Next, StreamOf;
    var w1 := SendsPing(w0, w, h);
    SameStreams(w, w1);
    w' := Crossing(w0, w1, h, Ping);
  }

  /** A ping crosses and is answered. */
  lemma PingGoesOut(w0: World, w: World, h: Half, back: Half) returns (w': World)
    requires Leads(w0, w) && h in w.facts.halves && back in w.facts.halves
    requires w.facts.halves[h].back == back && back != h
    requires QuietLink(w, h) && QuietLink(w, back)
    ensures Leads(w0, w') && w'.facts.halves == w.facts.halves
    ensures At(w'.content, Entered(h)) == At(w.content, Entered(h)) + [Framed(h, Ping)]
    ensures At(w'.content, Answered(h)) == At(w.content, Answered(h)) + [Framed(h, Ping)]
    ensures At(w'.content, Sink(back)) == [Framed(back, Pong)] && StreamOf(w', back) == Stream([], [])
    ensures At(w'.content, Entered(back)) == At(w.content, Entered(back)) + [Framed(back, Pong)]
    ensures At(w'.content, Heard(back)) == At(w.content, Heard(back))
    ensures Idle(w'.content, WriteHand(back)) && Idle(w'.content, Wire(back)) && Idle(w'.content, ReadHand(back))
  {
    hide Leads, At, Next, StreamOf;
    var w1 := PingCrosses(w0, w, h);
    w' := AnswersPing(w0, w1, h);
    SameStreams(w1, w');
  }

  lemma SameStreams(w: World, w': World)
    requires w'.streams == w.streams
    ensures forall h :: StreamOf(w', h) == StreamOf(w, h)
  {
  }

  /** A ping sent over a quiet connection can be answered, and the pong heard by the side that sent it. */
  lemma PingComesBack(w: World, h: Half) returns (w': World)
    requires Reachable(w) && h in w.facts.halves && QuietLink(w, h) && QuietLink(w, w.facts.halves[h].back)
    ensures Leads(w, w')
    ensures var back := w.facts.halves[h].back;
            && At(w'.content, Entered(h)) == At(w.content, Entered(h)) + [Framed(h, Ping)]
            && At(w'.content, Answered(h)) == At(w.content, Answered(h)) + [Framed(h, Ping)]
            && At(w'.content, Entered(back)) == At(w.content, Entered(back)) + [Framed(back, Pong)]
            && At(w'.content, Heard(back)) == At(w.content, Heard(back)) + [Framed(back, Pong)]
  {
    ReachableInv(w);
    assert Linked(w.facts);
    hide Inv, Reachable, Leads, At, Next, QuietLink, Linked;
    var back := w.facts.halves[h].back;
    assert back in w.facts.halves && back != h by { LinkedEnds(w.facts, h); }
    Stay(w);
    var w1 := PingGoesOut(w, w, h, back);
    w' := PongComesHome(w, w1, h, back);
  }

  lemma LinkedEnds(facts: Facts, h: Half)
    requires Linked(facts) && h in facts.halves
    ensures facts.halves[h].back in facts.halves && facts.halves[h].back != h
  {
  }

  lemma PongComesHome(w0: World, w: World, h: Half, back: Half) returns (w': World)
    requires Leads(w0, w) && back in w.facts.halves && back != h
    requires At(w.content, Sink(back)) == [Framed(back, Pong)] && StreamOf(w, back) == Stream([], [])
    requires Idle(w.content, WriteHand(back)) && Idle(w.content, Wire(back)) && Idle(w.content, ReadHand(back))
    ensures Leads(w0, w') && At(w'.content, Heard(back)) == At(w.content, Heard(back)) + [Framed(back, Pong)]
    ensures forall p: Place | p.Entered? || p.Answered? :: At(w'.content, p) == At(w.content, p)
  {
    hide Leads, At, Next, StreamOf;
    var w1 := Crossing(w0, w, back, Pong);
    w' := HearsPong(w0, w1, back);
  }

  // ---------------------------------------------------------------- whole journeys

  /** Nothing is queued, held or under way between client `c` and client `d` over connection `h`. */
  ghost predicate IdlePath(w: World, c: Client, h: Half, d: Client)
    requires c in w.facts.clients && h in w.facts.halves
  {
    var from, to, s := w.facts.clients[c].host, w.facts.halves[h].target, SockOf(w.facts, h);
    && Idle(w.content, ClientHand(c)) && Idle(w.content, UnixQueue(from))
    && Idle(w.content, UnixHand(from)) && Idle(w.content, Sink(h))
    && Idle(w.content, WriteHand(h)) && Idle(w.content, Wire(h))
    && Idle(w.content, ReadHand(h)) && StreamOf(w, h) == Stream([], [])
    && Idle(w.content, SockQueue(s)) && Idle(w.content, SockHand(s))
    && Idle(w.content, Upstream(to)) && Idle(w.content, NetHand(to))
    && Idle(w.content, Chosen(to)) && Idle(w.content, ClientQueue(d))
  }

  /**
   Over an idle path a client's packet reaches the client bound to the addressed port, under the
   sender's host and port.
   */
  lemma PacketArrives(w: World, c: Client, h: Half, toPort: u16, data: seq<u8>, d: Client) returns (w': World)
    requires c in w.facts.clients && h in w.facts.halves && w.facts.halves[h].origin == w.facts.clients[c].host
    requires (w.facts.halves[h].target, toPort) in w.table && w.table[(w.facts.halves[h].target, toPort)] == d
    requires d !in w.closed && IdlePath(w, c, h, d)
    requires |data| < 0x1_0000 && !(w.facts.clients[c].port == 0 && toPort == 0)
    ensures Leads(w, w')
    ensures At(w'.content, Received(d))
            == At(w.content, Received(d)) + [Local(h, w.facts.clients[c].host, w.facts.clients[c].port, data)]
  {
    var to, s := w.facts.halves[h].target, SockOf(w.facts, h);
    var frame := Data(w.facts.clients[c].port, toPort, data);
    var w1 := Outbound(w, c, h, toPort, data);
    CutIffTooLong(frame);
    hide Leads, At, Idle, StreamOf, Cut, Surplus, Labelled, SockOf;
    assert Labelled(w1.facts, h, frame) == Labelled(w.facts, h, frame) && SockOf(w1.facts, h) == SockOf(w.facts, h) by {
      SameLabels(w.facts, w1.facts, h, frame);
    }
    var w2 := Upbound(w, w1, h, frame, d);
    w' := Landing(w, w2, to, Labelled(w.facts, h, frame), d);
  }

  lemma SameLabels(f: Facts, g: Facts, h: Half, frame: Frame)
    requires h in f.halves && g.halves == f.halves && frame.Data?
    ensures Labelled(g, h, frame) == Labelled(f, h, frame) && SockOf(g, h) == SockOf(f, h)
  {
  }

  /** The second half: from the read task to the forwarder towards the clients. */
  lemma Upbound(w0: World, w: World, h: Half, frame: Frame, d: Client) returns (w': World)
    requires Leads(w0, w) && h in w.facts.halves && KindOf(frame) == Payload
    requires At(w.content, ReadHand(h)) == [Framed(h, frame)]
    requires var s, to := SockOf(w.facts, h), w.facts.halves[h].target;
             && Idle(w.content, SockQueue(s)) && Idle(w.content, SockHand(s))
             && Idle(w.content, Upstream(to)) && Idle(w.content, NetHand(to))
             && Idle(w.content, Chosen(to)) && Idle(w.content, ClientQueue(d))
    ensures Leads(w0, w') && w' == w.(content := w'.content)
    ensures At(w'.content, NetHand(w.facts.halves[h].target)) == [Labelled(w.facts, h, frame)]
    ensures Idle(w'.content, Chosen(w.facts.halves[h].target)) && Idle(w'.content, ClientQueue(d))
    ensures At(w'.content, Received(d)) == At(w.content, Received(d))
  {
    var up := Labelled(w.facts, h, frame);
    assert up.Incoming? && !IsControl(up) && SockOf(w.facts, h).host == w.facts.halves[h].target;
    hide Leads, At, Labelled, SockOf;
    var w1 := Rise(w0, w, h, frame);
    w' := Ascent(w0, w1, SockOf(w.facts, h), up);
  }

  /** Where a frame leaves a trace on its way from a client to the reader. */
  function Touched(h: Half, origin: Host): set<Place> {
    {ReadHand(h), Passed(h), Entered(h), Forwarded(origin)}
  }

  /** The first half of the way: from the client to the read task at the other end of the connection. */
  lemma Outbound(w: World, c: Client, h: Half, toPort: u16, data: seq<u8>) returns (w': World)
    requires c in w.facts.clients && h in w.facts.halves && w.facts.halves[h].origin == w.facts.clients[c].host
    requires var n := w.facts.clients[c].host;
             && Idle(w.content, ClientHand(c)) && Idle(w.content, UnixQueue(n)) && Idle(w.content, UnixHand(n))
             && Idle(w.content, Sink(h)) && Idle(w.content, WriteHand(h)) && Idle(w.content, Wire(h))
             && Idle(w.content, ReadHand(h)) && StreamOf(w, h) == Stream([], [])
    ensures Leads(w, w') && w'.table == w.table && w'.closed == w.closed
    ensures w'.facts.halves == w.facts.halves && w'.facts.clients == w.facts.clients
    ensures At(w'.content, Passed(h))
            == At(w.content, Passed(h)) + [Framed(h, Data(w.facts.clients[c].port, toPort, data))]
    ensures At(w'.content, ReadHand(h)) == [Framed(h, Cut(Data(w.facts.clients[c].port, toPort, data)))]
    ensures At(w'.content, Entered(h))
            == At(w.content, Entered(h)) + [Framed(h, Data(w.facts.clients[c].port, toPort, data))]
    ensures SameBut(w.content, w'.content, Touched(h, w.facts.halves[h].origin))
    ensures StreamOf(w', h) == Stream([], Surplus(Data(w.facts.clients[c].port, toPort, data)))
  {
    var frame := Data(w.facts.clients[c].port, toPort, data);
    hide Leads, At, Cut, Surplus, StreamOf;
    var w1 := Insertion(w, c, h, toPort, data);
    w' := Crossing(w, w1, h, frame);
  }

  /** From the client into the sink. */
  lemma Insertion(w: World, c: Client, h: Half, toPort: u16, data: seq<u8>) returns (w': World)
    requires c in w.facts.clients && h in w.facts.halves && w.facts.halves[h].origin == w.facts.clients[c].host
    requires var n := w.facts.clients[c].host;
             Idle(w.content, ClientHand(c)) && Idle(w.content, UnixQueue(n)) &&
             Idle(w.content, UnixHand(n)) && Idle(w.content, Sink(h))
    ensures Leads(w, w') && w'.table == w.table && w'.closed == w.closed
    ensures w'.facts.halves == w.facts.halves
    ensures w'.facts.clients == w.facts.clients && StreamOf(w', h) == StreamOf(w, h)
    ensures var t := Framed(h, Data(w.facts.clients[c].port, toPort, data));
            At(w'.content, Sink(h)) == [t] && At(w'.content, Entered(h)) == At(w.content, Entered(h)) + [t]
    ensures SameBut(w.content, w'.content, {Sink(h), Entered(h), Forwarded(w.facts.halves[h].origin)})
  {
    var to := w.facts.halves[h].target;
    Stay(w);
    hide Leads, At;
    var w1 := Departure(w, w, c, to, toPort, data);
    w' := Entry(w, w1, h, c, Packet(to, w.facts.clients[c].port, toPort, data));
    assert StreamOf(w', h) == StreamOf(w, h);
  }

  /**
   A reply finds its way: a client that received something as (host, port) answers to exactly
   that host and port, and over an idle path whoever is bound to the port there gets the reply
   under the answering client's own host and port.
   */
  lemma ReplyComesBack(w: World, c: Client, t: Token, h: Half, reply: seq<u8>, asker: Client) returns (w': World)
    requires Reachable(w) && t in At(w.content, Received(c)) && t.Local?
    requires c in w.facts.clients && h in w.facts.halves
    requires w.facts.halves[h].origin == w.facts.clients[c].host && w.facts.halves[h].target == t.host
    requires (t.host, t.port) in w.table && w.table[(t.host, t.port)] == asker
    requires asker !in w.closed && IdlePath(w, c, h, asker)
    requires |reply| < 0x1_0000 && !(w.facts.clients[c].port == 0 && t.port == 0)
    ensures Leads(w, w') && Reachable(w')
    ensures asker in w.facts.clients && w.facts.clients[asker] == ClientInfo(t.host, t.port)
    ensures At(w'.content, Received(asker))
            == At(w.content, Received(asker)) + [Local(h, w.facts.clients[c].host, w.facts.clients[c].port, reply)]
  {
    ReachableInv(w);
    hide Leads, Reachable, Sound;
    w' := PacketArrives(w, c, h, t.port, reply, asker);
    ReachesOn(w, w');
  }

  /**
   Between kinds the order is not kept: after the split a control message can be processed
   while a client frame sent before it, on the same connection, is still queued.
   */
  lemma ControlCanOvertake(data: seq<u8>, message: seq<u8>) returns (w: World, h: Half)
    requires |data| < 0x1_0000 && |message| < 0x1_0000
    ensures Reachable(w) && h in w.facts.halves
    ensures At(w.content, Entered(h)) == [Framed(h, Data(7, 7, data)), Framed(h, Data(0, 0, message))]
    ensures Idle(w.content, Tabled(w.facts.halves[h].target))
    ensures At(w.content, Handled(SockOf(w.facts, h))) == [Labelled(w.facts, h, Data(0, 0, message))]
  {
    h := 0;
    var w1 := FirstCrosses(data);
    hide Reachable, Idle, IdleSock, Leads, Labelled, SockOf, At, StreamOf;
    w := Overtake(w1, h, Data(7, 7, data), message);
    SameLabels(w1.facts, w.facts, h, Data(0, 0, message));
    ReachesOn(w1, w);
  }

  /** Between two fresh hosts, one client frame of any length has crossed their only connection. */
  lemma Crossed(data: seq<u8>) returns (w: World)
    ensures Reachable(w) && w.facts.halves == map[0 := HalfInfo(1, 2, 0, 1), 1 := HalfInfo(2, 1, 0, 0)]
    ensures w.facts.clients == map[5 := ClientInfo(1, 7)]
    ensures var t := Framed(0, Data(7, 7, data));
            && At(w.content, Entered(0)) == [t] && At(w.content, Passed(0)) == [t]
            && At(w.content, ReadHand(0)) == [Framed(0, Cut(t.frame))] && StreamOf(w, 0) == Stream([], Surplus(t.frame))
    ensures SameBut(map[], w.content, Touched(0, 1))
  {
    var w1 := Meet();
    hide Reachable, Next, Cut, Surplus;
    w := Outbound(w1, 5, 0, 7, data);
    ReachesOn(w1, w);
    hide Leads, StreamOf, SameBut;
    assert At(w1.content, Entered(0)) == [] && At(w1.content, Passed(0)) == [];
  }

  /** A client frame is all there ever was on a connection, and is in its reader's hand. */
  lemma FirstCrosses(data: seq<u8>) returns (w: World)
    requires |data| < 0x1_0000
    ensures Reachable(w) && 0 in w.facts.halves && w.facts.halves[0].target == 2
    ensures At(w.content, Entered(0)) == [Framed(0, Data(7, 7, data))]
    ensures At(w.content, ReadHand(0)) == [Framed(0, Data(7, 7, data))] && StreamOf(w, 0) == Stream([], [])
    ensures Idle(w.content, Sink(0)) && Idle(w.content, WriteHand(0)) && Idle(w.content, Wire(0))
    ensures Idle(w.content, Upstream(2)) && Idle(w.content, Tabled(2)) && IdleSock(w.content, SockOf(w.facts, 0))
  {
    w := Crossed(data);
    CutIffTooLong(Data(7, 7, data));
    AllIdle(w.content, 0, 1);
    hide Reachable, IdleSock, Cut, Surplus, SameBut, StreamOf, Idle, At;
  }

  /** Everything else is as idle as at the start. */
  lemma AllIdle(c: Content, h: Half, n: Host)
    requires SameBut(map[], c, Touched(h, n))
    ensures forall p :: p !in Touched(h, n) ==> Idle(c, p)
    ensures forall s :: IdleSock(c, s)
  {
    assert forall p :: At(map[], p) == [];
    hide At;
  }

  /** Two hosts with a connection, and a client bound to port 7 on the first. */
  lemma Meet() returns (w: World)
    ensures Reachable(w) && w.content == map[] && w.streams == map[]
    ensures w.facts.halves == map[0 := HalfInfo(1, 2, 0, 1), 1 := HalfInfo(2, 1, 0, 0)]
    ensures w.facts.clients == map[5 := ClientInfo(1, 7)]
  {
    Stay(START);
    hide Leads;
    ThenStep(START, START, Open(0, 1, 1, 2, 0, 0));
    var w1 := Next(START, Open(0, 1, 1, 2, 0, 0)).value;
    ThenStep(START, w1, Bind(5, 1, 7));
    w := Next(w1, Bind(5, 1, 7)).value;
    assert Reachable(START) by { assert Run(START, []) == Some(START); }
    ReachesOn(START, w);
  }

  /** Nothing is on the link of this direction, and nothing is left over in its reader's buffer. */
  ghost predicate IdleLink(w: World, h: Half) {
    && Idle(w.content, Sink(h)) && Idle(w.content, WriteHand(h))
    && Idle(w.content, Wire(h)) && Idle(w.content, ReadHand(h))
    && StreamOf(w, h) == Stream([], [])
  }

  ghost predicate IdleSock(c: Content, s: Sock) {
    Idle(c, SockQueue(s)) && Idle(c, SockHand(s)) && Idle(c, Handled(s))
  }

  /** While a client frame waits on its way up, a control message sent after it is processed. */
  lemma Overtake(w: World, h: Half, frame: Frame, message: seq<u8>) returns (w': World)
    requires h in w.facts.halves && KindOf(frame) == Payload && |message| < 0x1_0000
    requires At(w.content, ReadHand(h)) == [Framed(h, frame)] && StreamOf(w, h) == Stream([], [])
    requires Idle(w.content, Sink(h)) && Idle(w.content, WriteHand(h)) && Idle(w.content, Wire(h))
    requires IdleSock(w.content, SockOf(w.facts, h)) && Idle(w.content, Upstream(w.facts.halves[h].target))
    requires Idle(w.content, Tabled(w.facts.halves[h].target))
    ensures Leads(w, w') && w'.facts.halves == w.facts.halves
    ensures At(w'.content, Entered(h)) == At(w.content, Entered(h)) + [Framed(h, Data(0, 0, message))]
    ensures Idle(w'.content, Tabled(w.facts.halves[h].target))
    ensures At(w'.content, Handled(SockOf(w.facts, h))) == [Labelled(w.facts, h, Data(0, 0, message))]
  {
    Stay(w);
    hide Leads, At, Labelled, SockOf, IdleLink, IdleSock, Idle;
    var w1 := WaitAbove(w, w, h, frame);
    IdleBelow(w, w1, h);
    StaysIdle(w.content, w1.content, Tabled(w.facts.halves[h].target));
    var w2 := ControlCrosses(w, w1, h, message);
    SameLabels(w.facts, w2.facts, h, Data(0, 0, message));
    RestStaysIdle(w1.content, w2.content, SockOf(w.facts, h), h);
    w' := ControlRises(w, w2, h, message);
  }

  /** A client frame goes up as far as the queue to the forwarder. */
  lemma WaitAbove(w0: World, w: World, h: Half, frame: Frame) returns (w': World)
    requires Leads(w0, w) && h in w.facts.halves && KindOf(frame) == Payload
    requires At(w.content, ReadHand(h)) == [Framed(h, frame)] && StreamOf(w, h) == Stream([], [])
    requires Idle(w.content, Sink(h)) && Idle(w.content, WriteHand(h)) && Idle(w.content, Wire(h))
    requires IdleSock(w.content, SockOf(w.facts, h)) && Idle(w.content, Upstream(w.facts.halves[h].target))
    ensures Leads(w0, w') && w'.facts == w.facts && w'.streams == w.streams
    ensures var s := SockOf(w.facts, h);
            && SameBut(w.content, w'.content, {ReadHand(h), SockHand(s), Split(s), Upstream(w.facts.halves[h].target)})
            && Idle(w'.content, ReadHand(h)) && Idle(w'.content, SockHand(s))
  {
    var s, up := SockOf(w.facts, h), Labelled(w.facts, h, frame);
    assert up.Incoming? && !IsControl(up) && s.host == w.facts.halves[h].target;
    hide Leads, Labelled, At, SockOf;
    var w1 := Rise(w0, w, h, frame);
    w' := Climb(w0, w1, s, up);
  }

  /** The link and the socket are idle again, with the client frame waiting above them. */
  lemma IdleBelow(w: World, w': World, h: Half)
    requires h in w.facts.halves && w'.facts == w.facts && w'.streams == w.streams
    requires var s := SockOf(w.facts, h);
             && SameBut(w.content, w'.content, {ReadHand(h), SockHand(s), Split(s), Upstream(w.facts.halves[h].target)})
             && Idle(w'.content, ReadHand(h)) && Idle(w'.content, SockHand(s)) && IdleSock(w.content, s)
    requires Idle(w.content, Sink(h)) && Idle(w.content, WriteHand(h))
    requires Idle(w.content, Wire(h)) && StreamOf(w, h) == Stream([], [])
    ensures IdleLink(w', h) && IdleSock(w'.content, SockOf(w.facts, h))
    ensures At(w'.content, Entered(h)) == At(w.content, Entered(h))
    ensures forall n :: At(w'.content, Tabled(n)) == At(w.content, Tabled(n))
  {
    assert StreamOf(w', h) == StreamOf(w, h);
    hide At, StreamOf, SockOf;
  }

  /** A control message crosses the link. */
  lemma ControlCrosses(w0: World, w: World, h: Half, message: seq<u8>) returns (w': World)
    requires Leads(w0, w) && h in w.facts.halves && |message| < 0x1_0000 && IdleLink(w, h)
    ensures Leads(w0, w') && w'.facts.halves == w.facts.halves
    ensures SameBut(w.content, w'.content, {Sink(h), Entered(h), Passed(h), ReadHand(h)})
    ensures At(w'.content, Entered(h)) == At(w.content, Entered(h)) + [Framed(h, Data(0, 0, message))]
    ensures At(w'.content, ReadHand(h)) == [Framed(h, Data(0, 0, message))]
  {
    var control := Data(0, 0, message);
    CutIffTooLong(control);
    hide Leads, Next, Cut, Surplus;
    var w1 := Inject(w0, w, h, control);
    assert StreamOf(w1, h) == StreamOf(w, h);
    hide At, StreamOf;
    w' := Crossing(w0, w1, h, control);
  }

  lemma StaysIdle(c: Content, c': Content, p: Place)
    requires Idle(c, p) && At(c', p) == At(c, p)
    ensures Idle(c', p)
  {
  }

  /** What is beyond the reader is as idle as before. */
  lemma RestStaysIdle(c: Content, c': Content, s: Sock, h: Half)
    requires SameBut(c, c', {Sink(h), Entered(h), Passed(h), ReadHand(h)})
    ensures IdleSock(c, s) ==> IdleSock(c', s)
    ensures forall n :: Idle(c, Tabled(n)) ==> Idle(c', Tabled(n))
  {
    assert At(c', SockQueue(s)) == At(c, SockQueue(s));
    assert At(c', SockHand(s)) == At(c, SockHand(s)) && At(c', Handled(s)) == At(c, Handled(s));
    hide At;
  }

  /** And is processed. */
  lemma ControlRises(w0: World, w: World, h: Half, message: seq<u8>) returns (w': World)
    requires Leads(w0, w) && h in w.facts.halves && At(w.content, ReadHand(h)) == [Framed(h, Data(0, 0, message))]
    requires IdleSock(w.content, SockOf(w.facts, h))
    ensures Leads(w0, w') && w'.facts == w.facts && At(w'.content, Entered(h)) == At(w.content, Entered(h))
    ensures At(w'.content, Handled(SockOf(w.facts, h))) == [Labelled(w.facts, h, Data(0, 0, message))]
    ensures forall n :: Idle(w.content, Tabled(n)) ==> Idle(w'.content, Tabled(n))
  {
    var control := Data(0, 0, message);
    assert IsControl(Labelled(w.facts, h, control));
    hide Leads, Next, At, Labelled, SockOf;
    var w1 := Rise(w0, w, h, control);
    w' := Handle(w0, w1, SockOf(w.facts, h), Labelled(w.facts, h, control));
  }

  lemma Handle(w0: World, w: World, s: Sock, t: Token) returns (w': World)
    requires Leads(w0, w) && At(w.content, SockHand(s)) == [t]
    requires t.Incoming? && IsControl(t) && Idle(w.content, Handled(s))
    ensures Leads(w0, w') && w' == w.(content := w'.content)
    ensures At(w'.content, Handled(s)) == [t] && SameBut(w.content, w'.content, {SockHand(s), Split(s), Handled(s)})
  {
    Dispatch(w);
    ThenStep(w0, w, Process(s));
    hide Leads, Next;
    w' := Next(w, Process(s)).value;
  }

  lemma Inject(w0: World, w: World, h: Half, frame: Frame) returns (w': World)
    requires Leads(w0, w) && h in w.facts.halves && Idle(w.content, Sink(h)) && KindOf(frame) == Control
    ensures Leads(w0, w') && w' == w.(content := w'.content)
    ensures At(w'.content, Sink(h)) == [Framed(h, frame)]
    ensures At(w'.content, Entered(h)) == At(w.content, Entered(h)) + [Framed(h, frame)]
    ensures SameBut(w.content, w'.content, {Sink(h), Entered(h)})
  {
    ThenStep(w0, w, SendControl(h, frame.data));
    hide Leads;
    w' := Next(w, SendControl(h, frame.data)).value;
  }

  // ---------------------------------------------------------------- payloads too long for the length field

  /**
   The bound on payloads matters: a client frame that crosses an idle connection keeps the order
   law of its connection if and only if its payload has at most 65535 bytes.
   */
  lemma OrderIsKeptIffPayloadFits(data: seq<u8>) returns (w: World, h: Half)
    ensures Reachable(w) && h in w.facts.halves && At(w.content, Entered(h)) == [Framed(h, Data(7, 7, data))]
    ensures (forall k :: InOrder(w, h, k)) <==> |data| < 0x1_0000
  {
    h := 0;
    w := Crossed(data);
    hide Reachable, InOrder, SameBut, StreamOf;
    OrderIsKeptIffNoneCut(w, h);
    assert Framed(h, Data(7, 7, data)) in At(w.content, Passed(h));
  }

  // ---------------------------------------------------------------- what surplus bytes can do

  /** A payload whose surplus bytes begin with this frame's encoding, between two stretches of zeros. */
  function Smuggling(frame: Frame): (data: seq<u8>)
    requires |Encoding(frame)| < 0x1_0000
    ensures |data| == 0x1_0000 + |Encoding(frame)|
  {
    Zeros(|Encoding(frame)|) + Encoding(frame) + Zeros(0x1_0000 - |Encoding(frame)|)
  }

  lemma SurplusOfSmuggling(frame: Frame)
    requires Fits(frame) && |Encoding(frame)| < 0x1_0000
    ensures var data := Smuggling(frame);
            Surplus(Data(7, 7, data)) == Encoding(frame) + Zeros(0x1_0000 - |Encoding(frame)|)
    ensures Parse(Surplus(Data(7, 7, Smuggling(frame)))) == Got(frame, Zeros(0x1_0000 - |Encoding(frame)|))
  {
    var n := |Encoding(frame)|;
    ParseOfFitting(frame, Zeros(0x1_0000 - n));
    hide Encoding, Parse, Zeros;
    assert |Smuggling(frame)| % 0x1_0000 == n;
    assert Smuggling(frame)[n..] == Encoding(frame) + Zeros(0x1_0000 - n);
  }

  /**
   Any frame can be made up: after a single payload of one client, too long by just this frame,
   the reader at the other end decodes it next.
   */
  lemma AnyFrameCanBeSmuggled(frame: Frame) returns (w: World)
    requires Fits(frame) && |Encoding(frame)| < 0x1_0000
    ensures Reachable(w) && w.facts.halves == map[0 := HalfInfo(1, 2, 0, 1), 1 := HalfInfo(2, 1, 0, 0)]
    ensures w.facts.clients == map[5 := ClientInfo(1, 7)]
    ensures At(w.content, Entered(0)) == [Framed(0, Data(7, 7, Smuggling(frame)))]
    ensures At(w.content, Entered(1)) == [] && At(w.content, Heard(0)) == []
    ensures Decoded(w.facts, 0, frame) && At(w.content, ReadHand(0)) == [Framed(0, frame)]
  {
    var first := Data(7, 7, Smuggling(frame));
    hide Reachable, Cut, Surplus, Smuggling, Encoding, Parse, StreamOf, At, Idle, Leads, SockOf, SameBut, Decoded;
    var w1 := Crossed(Smuggling(frame));
    CutOfData(first);
    SurplusOfSmuggling(frame);
    RestIsIdle(w1.content, 0, 1, SockQueue(SockOf(w1.facts, 0)));
    RestIsIdle(w1.content, 0, 1, Wire(0));
    w := SecondRead(w1, 0, Cut(first), frame);
    ReachesOn(w1, w);
    SecondReadKeeps(w1.content, w.content, 0, 1, SockOf(w1.facts, 0));
  }

  lemma RestIsIdle(c: Content, h: Half, n: Host, p: Place)
    requires SameBut(map[], c, Touched(h, n)) && p !in Touched(h, n)
    ensures Idle(c, p)
  {
  }

  lemma SecondReadKeeps(c: Content, c': Content, h: Half, n: Host, s: Sock)
    requires SameBut(map[], c, Touched(h, n)) && SameBut(c, c', {ReadHand(h), SockQueue(s)})
    ensures At(c', Entered(h)) == At(c, Entered(h))
    ensures At(c', Heard(h)) == [] && forall g :: g != h ==> At(c', Entered(g)) == []
  {
  }

  /** The reader hands its frame on and decodes another from what is left in its buffer. */
  lemma SecondRead(w: World, h: Half, first: Frame, frame: Frame) returns (w': World)
    requires h in w.facts.halves && first.Data? && At(w.content, ReadHand(h)) == [Framed(h, first)]
    requires Idle(w.content, SockQueue(SockOf(w.facts, h))) && Idle(w.content, Wire(h))
    requires Parse(StreamOf(w, h).buffer).Got? && Parse(StreamOf(w, h).buffer).frame == frame
    ensures Leads(w, w') && SameSetting(w, w') && Decoded(w'.facts, h, frame)
    ensures At(w'.content, ReadHand(h)) == [Framed(h, frame)]
    ensures SameBut(w.content, w'.content, {ReadHand(h), SockQueue(SockOf(w.facts, h))})
  {
    Stay(w);
    hide Leads, At, Parse, SockOf, Decoded;
    var w1 := MakeRoom(w, w, h, first);
    assert StreamOf(w1, h) == StreamOf(w, h);
    w' := ReadNext(w, w1, h, frame);
  }

  lemma CutOfData(frame: Frame)
    requires frame.Data?
    ensures Cut(frame).Data?
  {
  }

  /** The frame in the reader's hand goes on to the socket's queue. */
  lemma MakeRoom(w0: World, w: World, h: Half, frame: Frame) returns (w': World)
    requires Leads(w0, w) && h in w.facts.halves && frame.Data? && At(w.content, ReadHand(h)) == [Framed(h, frame)]
    requires Idle(w.content, SockQueue(SockOf(w.facts, h)))
    ensures Leads(w0, w') && w' == w.(content := w'.content) && Idle(w'.content, ReadHand(h))
    ensures SameBut(w.content, w'.content, {ReadHand(h), SockQueue(SockOf(w.facts, h))})
  {
    hide Leads, At, Shift, Next;
    Dispatch(w);
    w' := Hop(w0, w, Forward(h), ReadHand(h), SockQueue(SockOf(w.facts, h)),
              Framed(h, frame), Labelled(w.facts, h, frame));
  }

  /** And the reader decodes the next one, though nothing more was under way. */
  lemma ReadNext(w0: World, w: World, h: Half, frame: Frame) returns (w': World)
    requires Leads(w0, w) && h in w.facts.halves && Idle(w.content, ReadHand(h)) && Idle(w.content, Wire(h))
    requires Parse(StreamOf(w, h).buffer).Got? && Parse(StreamOf(w, h).buffer).frame == frame
    ensures Leads(w0, w') && SameSetting(w, w') && Decoded(w'.facts, h, frame)
    ensures At(w'.content, ReadHand(h)) == [Framed(h, frame)] && SameBut(w.content, w'.content, {ReadHand(h)})
  {
    hide Leads, Parse, Next;
    Dispatch(w);
    ThenStep(w0, w, ReadFrame(h));
    w' := Next(w, ReadFrame(h)).value;
    assert w'.content == Push(w.content, ReadHand(h), Framed(h, frame));
  }

  /** For example a packet from a port no client has: it is decoded, and nobody sent it. */
  lemma PacketCanBeForged() returns (w: World)
    ensures Reachable(w) && Decoded(w.facts, 0, Data(8, 7, [])) && !Honest(w.facts, 0, Data(8, 7, []))
  {
    w := AnyFrameCanBeSmuggled(Data(8, 7, []));
  }

  /** Or a pong, though no ping was ever sent: it is heard. */
  lemma PongCanBeUnasked() returns (w: World)
    ensures Reachable(w) && 0 in w.facts.halves && w.facts.halves[0].back == 1
    ensures At(w.content, Entered(1)) == [] && At(w.content, Heard(0)) == [Framed(0, Pong)]
  {
    var w1 := AnyFrameCanBeSmuggled(Pong);
    hide Reachable;
    Stay(w1);
    ThenStep(w1, w1, Hear(0));
    w := Next(w1, Hear(0)).value;
    ReachesOn(w1, w);
    hide Leads;
  }
}
