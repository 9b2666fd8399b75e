/**
 From the clients into the connections: what a client sends goes, in order and once, through
 its host's queue to the forwarder, which puts each packet on a connection or drops it.
 */
module Submission {
  import opened Bytes
  import opened FrameCodec
  import opened FrameStream
  import opened Merging
  import opened Places
  import opened Pipeline
  import opened PipelineSafety
  import opened PipelineRuns

  /** The packets of one client among some tokens, in order. */
  function PacketsOf(ts: seq<Token>, c: Client): seq<Packet> {
    if ts == [] then []
    else
      var last := ts[|ts| - 1];
      PacketsOf(ts[..|ts| - 1], c)
          + (if (last.Outgoing? || last.Settled?) && last.client == c then [last.packet] else [])
  }

  /** A packet as the client frame it becomes on a connection, unless it is a control message. */
  function AsPayload(packet: Packet): seq<Frame> {
    var frame := Data(packet.srcPort, packet.dstPort, packet.data);
    if KindOf(frame) == Payload then [frame] else []
  }

  /** The client frames the forwarder has put on a direction, of one client or of all. */
  function SentOver(ts: seq<Token>, h: Half, c: Option<Client>): seq<Frame> {
    if ts == [] then []
    else
      var last := ts[|ts| - 1];
      SentOver(ts[..|ts| - 1], h, c)
      + (if last.Settled? && last.over == Some(h) && (c == None || c == Some(last.client)) then AsPayload(last.packet)
         else [])
  }

  // ---------------------------------------------------------------- the invariant

  /** A client's packets, from those the forwarder is done with back to the client's read task. */
  function Submitted(content: Content, n: Host, c: Client): seq<Packet> {
    PacketsOf(At(content, Forwarded(n)), c) + PacketsOf(At(content, UnixHand(n)), c)
    + PacketsOf(At(content, UnixQueue(n)), c) + PacketsOf(At(content, ClientHand(c)), c)
  }

  ghost predicate ClientOk(w: World, c: Client) {
    if c in w.facts.clients then Submitted(w.content, w.facts.clients[c].host, c) == AcceptedFrom(w.facts, c)
    else AcceptedFrom(w.facts, c) == [] && forall n :: Submitted(w.content, n, c) == []
  }

  ghost predicate HalfOk(w: World, h: Half) {
    if h in w.facts.halves then
      SentOver(At(w.content, Forwarded(w.facts.halves[h].origin)), h, None)
      == Frames(At(w.content, Entered(h)), h, {Payload})
    else
      Frames(At(w.content, Entered(h)), h, {Payload}) == [] &&
      forall n :: SentOver(At(w.content, Forwarded(n)), h, None) == []
  }

  /** A client's read task holds only what it has read itself. */
  ghost predicate HandOk(w: World, c: Client) {
    forall t | t in At(w.content, ClientHand(c)) :: t.Outgoing? && t.client == c
  }

  ghost predicate Submits(w: World) {
    (forall c :: ClientOk(w, c) && HandOk(w, c)) && forall h :: HalfOk(w, h)
  }

  // ---------------------------------------------------------------- tokens come and go

  lemma PacketsOfPush(ts: seq<Token>, t: Token, c: Client)
    ensures PacketsOf(ts + [t], c)
            == PacketsOf(ts, c) + (if (t.Outgoing? || t.Settled?) && t.client == c then [t.packet] else [])
  {
    assert (ts + [t])[..|ts|] == ts;
  }

  lemma {:induction false} PacketsOfPop(ts: seq<Token>, c: Client)
    requires ts != []
    ensures PacketsOf(ts, c)
            == (if (ts[0].Outgoing? || ts[0].Settled?) && ts[0].client == c then [ts[0].packet] else [])
               + PacketsOf(ts[1..], c)
  {
    if |ts| > 1 {
      var n := |ts| - 1;
      PacketsOfPop(ts[..n], c);
      assert ts[..n][1..] == ts[1..][..n - 1] && ts[1..][n - 1] == ts[n];
    }
  }

  lemma SentOverPush(ts: seq<Token>, t: Token, h: Half, c: Option<Client>)
    ensures SentOver(ts + [t], h, c)
            == SentOver(ts, h, c)
               + (if t.Settled? && t.over == Some(h) && (c == None || c == Some(t.client)) then AsPayload(t.packet)
                  else [])
  {
    assert (ts + [t])[..|ts|] == ts;
  }

  // ---------------------------------------------------------------- steps that change nothing here

  /** The stages before the connections, and what entered these, are as before. */
  ghost predicate SameStart(w: World, w': World) {
    && w'.facts.clients == w.facts.clients && w'.facts.halves == w.facts.halves && w'.facts.accepted == w.facts.accepted
    && (forall p: Place | p.ClientHand? || p.UnixQueue? || p.UnixHand? || p.Forwarded? ::
          At(w'.content, p) == At(w.content, p))
    && forall h :: Frames(At(w'.content, Entered(h)), h, {Payload}) == Frames(At(w.content, Entered(h)), h, {Payload})
  }

  lemma SameStartKeeps(w: World, w': World)
    requires Submits(w) && SameStart(w, w')
    ensures Submits(w')
  {
    hide At, PacketsOf, SentOver, Frames;
    forall c
      ensures ClientOk(w', c) && HandOk(w', c)
    {
      assert ClientOk(w, c) && HandOk(w, c);
      assert forall n :: Submitted(w'.content, n, c) == Submitted(w.content, n, c);
    }
    forall h
      ensures HalfOk(w', h)
    {
      assert HalfOk(w, h);
    }
  }

  predicate IsSubmission(a: Action) {
    a.Open? || a.Bind? || a.Accept? || a.Submit? || a.TakeUnix? || a.SendFrame? || a.DropUnsent?
  }

  lemma LinkStepIsElsewhere(w: World, a: Action)
    requires Next(w, a).Some? && OnLink(a)
    ensures SameStart(w, Next(w, a).value)
  {
    hide SameStart, DoReadFrame, DoTakeSink, DoWriteFrame, DoLose, DoHear, DoForward, DoAnswer;
    match a
    case Answer(h) => AnswerIsElsewhere(w, h);
    case ReadFrame(h) => ReadIsElsewhere(w, h);
    case TakeSink(h) => WritingIsElsewhere(w, h);
    case WriteFrame(h) => WritingIsElsewhere(w, h);
    case Lose(h) => WritingIsElsewhere(w, h);
    case Carry(h, count) => CarryIsElsewhere(w, h, count);
    case Hear(h) => HandingOnIsElsewhere(w, h);
    case Forward(h) => HandingOnIsElsewhere(w, h);
  }

  lemma WritingIsElsewhere(w: World, h: Half)
    ensures DoTakeSink(w, h).Some? ==> SameStart(w, DoTakeSink(w, h).value)
    ensures DoWriteFrame(w, h).Some? ==> SameStart(w, DoWriteFrame(w, h).value)
    ensures DoLose(w, h).Some? ==> SameStart(w, DoLose(w, h).value)
  {
    hide Frames, Encoding, Room, StreamOf;
  }

  lemma CarryIsElsewhere(w: World, h: Half, count: nat)
    requires DoCarry(w, h, count).Some?
    ensures SameStart(w, DoCarry(w, h, count).value)
  {
    hide Frames, StreamOf, At;
  }

  lemma HandingOnIsElsewhere(w: World, h: Half)
    ensures DoHear(w, h).Some? ==> SameStart(w, DoHear(w, h).value)
    ensures DoForward(w, h).Some? ==> SameStart(w, DoForward(w, h).value)
  {
    hide Frames, Labelled, Room, KindOf;
  }

  lemma ReadIsElsewhere(w: World, h: Half)
    requires DoReadFrame(w, h).Some?
    ensures SameStart(w, DoReadFrame(w, h).value)
  {
    hide Frames, Parse, Room, StreamOf;
  }

  predicate OfSocket(a: Action) {
    a.TakeSock? || a.Process? || a.PassUp?
  }

  lemma SocketStepIsElsewhere(w: World, a: Action)
    requires Next(w, a).Some? && OfSocket(a)
    ensures SameStart(w, Next(w, a).value)
  {
    hide Frames, Room, IsControl, KindOf;
  }

  predicate OfTable(a: Action) {
    a.TakeUp? || a.Lookup? || a.Deliver? || a.DropDelivery? || a.Receive? || a.CloseClient?
  }

  lemma TableStepIsElsewhere(w: World, a: Action)
    requires Next(w, a).Some? && OfTable(a)
    ensures SameStart(w, Next(w, a).value)
  {
    if a.Lookup? {
      LookupIsElsewhere(w, a.host);
    } else {
      hide Frames, Room, DoLookup;
    }
  }

  lemma LookupIsElsewhere(w: World, n: Host)
    requires DoLookup(w, n).Some?
    ensures SameStart(w, DoLookup(w, n).value)
  {
    hide Frames, Room;
  }

  lemma EnteringIsElsewhere(w: World, h: Half, frame: Frame)
    requires KindOf(frame) != Payload
    ensures SameStart(w, w.(content := Enter(w.content, h, frame)))
  {
    var t := Framed(h, frame);
    assert One(t, h, {Payload}) == [];
    forall g
      ensures Frames(At(Enter(w.content, h, frame), Entered(g)), g, {Payload})
              == Frames(At(w.content, Entered(g)), g, {Payload})
    {
      FramesOfPush(Push(w.content, Sink(h), t), Entered(h), t, g, {Payload});
    }
    hide Frames;
  }

  lemma AnswerIsElsewhere(w: World, h: Half)
    requires DoAnswer(w, h).Some?
    ensures SameStart(w, DoAnswer(w, h).value)
  {
    var answered := w.(content := Shift(w.content, ReadHand(h), Answered(h), At(w.content, ReadHand(h))[0]));
    hide Frames;
    assert SameStart(w, answered);
    hide At, Shift, Enter;
    EnteringIsElsewhere(answered, w.facts.halves[h].back, Pong);
    hide Reads, Room;
  }

  // ---------------------------------------------------------------- steps of the clients and the forwarder

  /** A packet that goes on to the next stage keeps its position. */
  lemma MovesOn(later: seq<Token>, earlier: seq<Token>, t: Token, c: Client)
    requires earlier != [] && earlier[0].Outgoing? && (t.Outgoing? || t.Settled?)
    requires t.client == earlier[0].client && t.packet == earlier[0].packet
    ensures PacketsOf(later + [t], c) + PacketsOf(earlier[1..], c) == PacketsOf(later, c) + PacketsOf(earlier, c)
  {
    PacketsOfPush(later, t, c);
    PacketsOfPop(earlier, c);
    hide PacketsOf;
    Associate(PacketsOf(later, c), if t.client == c then [t.packet] else [], PacketsOf(earlier[1..], c));
  }

  /** A client none of whose packets has moved. */
  lemma OtherClientOk(w: World, w': World, d: Client)
    requires ClientOk(w, d) && HandOk(w, d) && AcceptedFrom(w'.facts, d) == AcceptedFrom(w.facts, d)
    requires d in w'.facts.clients <==> d in w.facts.clients
    requires d in w.facts.clients ==> w'.facts.clients[d] == w.facts.clients[d]
    requires At(w'.content, ClientHand(d)) == At(w.content, ClientHand(d))
    requires forall n :: Submitted(w'.content, n, d) == Submitted(w.content, n, d)
    ensures ClientOk(w', d) && HandOk(w', d)
  {
    hide Submitted, At, AcceptedFrom;
  }

  /** Nothing has been settled and nothing has entered a connection. */
  lemma HalvesStayOk(w: World, w': World)
    requires Submits(w) && w'.facts.halves == w.facts.halves
    requires forall n :: At(w'.content, Forwarded(n)) == At(w.content, Forwarded(n))
    requires forall h :: At(w'.content, Entered(h)) == At(w.content, Entered(h))
    ensures forall h :: HalfOk(w', h)
  {
    hide At, SentOver, Frames;
    forall h
      ensures HalfOk(w', h)
    {
      assert HalfOk(w, h);
    }
  }

  lemma AcceptKeeps(w: World, c: Client, to: Host, toPort: u16, data: seq<u8>)
    requires Submits(w) && DoAccept(w, c, to, toPort, data).Some?
    ensures Submits(DoAccept(w, c, to, toPort, data).value)
  {
    var w' := DoAccept(w, c, to, toPort, data).value;
    HalvesStayOk(w, w');
    hide HalfOk, ClientOk, HandOk, DoAccept;
    forall d
      ensures ClientOk(w', d) && HandOk(w', d)
    {
      AcceptKeepsClient(w, c, to, toPort, data, d);
    }
  }

  lemma AcceptKeepsClient(w: World, c: Client, to: Host, toPort: u16, data: seq<u8>, d: Client)
    requires ClientOk(w, d) && HandOk(w, d) && DoAccept(w, c, to, toPort, data).Some?
    ensures var w' := DoAccept(w, c, to, toPort, data).value; ClientOk(w', d) && HandOk(w', d)
  {
    var w' := DoAccept(w, c, to, toPort, data).value;
    var t := Outgoing(c, Packet(to, w.facts.clients[c].port, toPort, data));
    var n := w.facts.clients[c].host;
    hide PacketsOf;
    if d == c {
      PacketsOfPush(At(w.content, ClientHand(c)), t, c);
      assert At(w'.content, ClientHand(c)) == At(w.content, ClientHand(c)) + [t];
      Associate(PacketsOf(At(w.content, Forwarded(n)), c) + PacketsOf(At(w.content, UnixHand(n)), c)
                + PacketsOf(At(w.content, UnixQueue(n)), c),
                PacketsOf(At(w.content, ClientHand(c)), c), [t.packet]);
    } else {
      assert forall m :: Submitted(w'.content, m, d) == Submitted(w.content, m, d);
      OtherClientOk(w, w', d);
    }
  }

  lemma SubmitKeeps(w: World, c: Client)
    requires Submits(w) && DoSubmit(w, c).Some?
    ensures Submits(DoSubmit(w, c).value)
  {
    var w' := DoSubmit(w, c).value;
    SubmitElsewhere(w, c);
    hide HalfOk, ClientOk, HandOk, DoSubmit, At;
    HalvesStayOk(w, w');
    forall d
      ensures ClientOk(w', d) && HandOk(w', d)
    {
      assert ClientOk(w, d) && HandOk(w, d) && HandOk(w, c);
      SubmitKeepsClient(w, c, d);
    }
  }

  lemma SubmitElsewhere(w: World, c: Client)
    requires DoSubmit(w, c).Some?
    ensures var w' := DoSubmit(w, c).value;
            && w'.facts == w.facts && (forall n :: At(w'.content, Forwarded(n)) == At(w.content, Forwarded(n)))
            && forall h :: At(w'.content, Entered(h)) == At(w.content, Entered(h))
  {
  }

  /** A move between two neighbouring stages of host `m`, or of another, keeps what a client has submitted. */
  lemma SubmittedAfterMove(c: Content, m: Host, a: Place, b: Place, t: Token, n: Host, d: Client)
    requires (a == UnixQueue(m) && b == UnixHand(m)) || (a == UnixHand(m) && b == Forwarded(m))
    requires At(c, a) != [] && At(c, a)[0].Outgoing? && (t.Outgoing? || t.Settled?)
    requires t.client == At(c, a)[0].client && t.packet == At(c, a)[0].packet
    ensures Submitted(Shift(c, a, b, t), n, d) == Submitted(c, n, d)
  {
    hide At, Shift, PacketsOf;
    var c' := Shift(c, a, b, t);
    ShiftAt(c, a, b, t);
    ShiftElsewhere(c, a, b, t);
    MovesOn(At(c, b), At(c, a), t, d);
    var done, hand := PacketsOf(At(c, Forwarded(n)), d), PacketsOf(At(c, UnixHand(n)), d);
    var queue := PacketsOf(At(c, UnixQueue(n)), d);
    if n == m && a == UnixQueue(m) {
      Associate(done, hand, queue);
      Associate(done, PacketsOf(At(c', UnixHand(n)), d), PacketsOf(At(c', UnixQueue(n)), d));
    }
  }

  lemma SubmittedAfterSubmit(c: Content, n: Host, e: Client, d: Client)
    requires At(c, ClientHand(e)) != [] && At(c, ClientHand(e))[0].Outgoing? && At(c, ClientHand(e))[0].client == e
    ensures var c' := Shift(c, ClientHand(e), UnixQueue(n), At(c, ClientHand(e))[0]);
            if d == e then Submitted(c', n, d) == Submitted(c, n, d)
            else forall m :: Submitted(c', m, d) == Submitted(c, m, d)
  {
    hide At, Shift, PacketsOf;
    var t := At(c, ClientHand(e))[0];
    var c' := Shift(c, ClientHand(e), UnixQueue(n), t);
    ShiftAt(c, ClientHand(e), UnixQueue(n), t);
    ShiftElsewhere(c, ClientHand(e), UnixQueue(n), t);
    if d == e {
      MovesOn(At(c, UnixQueue(n)), At(c, ClientHand(e)), t, d);
      var before := PacketsOf(At(c, Forwarded(n)), d) + PacketsOf(At(c, UnixHand(n)), d);
      Associate(before, PacketsOf(At(c, UnixQueue(n)), d), PacketsOf(At(c, ClientHand(d)), d));
      Associate(before, PacketsOf(At(c', UnixQueue(n)), d), PacketsOf(At(c', ClientHand(d)), d));
    } else {
      PacketsOfPush(At(c, UnixQueue(n)), t, d);
      assert PacketsOf(At(c', UnixQueue(n)), d) == PacketsOf(At(c, UnixQueue(n)), d);
    }
  }

  lemma SubmitKeepsClient(w: World, c: Client, d: Client)
    requires ClientOk(w, d) && HandOk(w, d) && HandOk(w, c) && DoSubmit(w, c).Some?
    ensures ClientOk(DoSubmit(w, c).value, d) && HandOk(DoSubmit(w, c).value, d)
  {
    hide Submitted, Shift, Room;
    var t := At(w.content, ClientHand(c))[0];
    assert t in At(w.content, ClientHand(c));
    SubmittedAfterSubmit(w.content, w.facts.clients[c].host, c, d);
    ShiftAt(w.content, ClientHand(c), UnixQueue(w.facts.clients[c].host), t);
    ShiftElsewhere(w.content, ClientHand(c), UnixQueue(w.facts.clients[c].host), t);
    hide At;
    if d != c {
      OtherClientOk(w, DoSubmit(w, c).value, d);
    }
  }

  lemma TakeUnixKeeps(w: World, m: Host)
    requires Submits(w) && DoTakeUnix(w, m).Some? && At(w.content, UnixQueue(m))[0].Outgoing?
    ensures Submits(DoTakeUnix(w, m).value)
  {
    var w' := DoTakeUnix(w, m).value;
    HalvesStayOk(w, w');
    hide HalfOk, ClientOk, HandOk, DoTakeUnix;
    forall d
      ensures ClientOk(w', d) && HandOk(w', d)
    {
      assert ClientOk(w, d) && HandOk(w, d);
      TakeUnixKeepsClient(w, m, d);
    }
  }

  lemma TakeUnixKeepsClient(w: World, m: Host, d: Client)
    requires ClientOk(w, d) && HandOk(w, d) && DoTakeUnix(w, m).Some? && At(w.content, UnixQueue(m))[0].Outgoing?
    ensures ClientOk(DoTakeUnix(w, m).value, d) && HandOk(DoTakeUnix(w, m).value, d)
  {
    hide Submitted, At, Shift, Room, HandOk, ClientOk;
    var t := At(w.content, UnixQueue(m))[0];
    ShiftElsewhere(w.content, UnixQueue(m), UnixHand(m), t);
    forall n
      ensures Submitted(DoTakeUnix(w, m).value.content, n, d) == Submitted(w.content, n, d)
    {
      SubmittedAfterMove(w.content, m, UnixQueue(m), UnixHand(m), t, n, d);
    }
    OtherClientOk(w, DoTakeUnix(w, m).value, d);
  }

  lemma SettleKeepsClient(w: World, m: Host, over: Option<Half>, d: Client)
    requires ClientOk(w, d) && HandOk(w, d)
    requires At(w.content, UnixHand(m)) != [] && At(w.content, UnixHand(m))[0].Outgoing?
    ensures var w' := w.(content := Settle(w.content, m, over)); ClientOk(w', d) && HandOk(w', d)
  {
    hide Submitted, At, Shift, HandOk, ClientOk;
    var Outgoing(client, packet) := At(w.content, UnixHand(m))[0];
    var w' := w.(content := Settle(w.content, m, over));
    ShiftElsewhere(w.content, UnixHand(m), Forwarded(m), Settled(client, packet, over));
    forall n
      ensures Submitted(w'.content, n, d) == Submitted(w.content, n, d)
    {
      SubmittedAfterMove(w.content, m, UnixHand(m), Forwarded(m), Settled(client, packet, over), n, d);
    }
    OtherClientOk(w, w', d);
  }

  lemma DropUnsentKeeps(w: World, m: Host)
    requires Submits(w) && DoDropUnsent(w, m).Some?
    ensures Submits(DoDropUnsent(w, m).value)
  {
    var w' := DoDropUnsent(w, m).value;
    hide ClientOk, HandOk;
    forall d
      ensures ClientOk(w', d) && HandOk(w', d)
    {
      assert ClientOk(w, d) && HandOk(w, d);
      SettleKeepsClient(w, m, None, d);
    }
    forall h
      ensures HalfOk(w', h)
    {
      assert HalfOk(w, h);
      SettleElsewhere(w, m, None, h);
      SettleLeavesEntered(w.content, m, None);
      hide SentOver, Frames, At, Settle;
    }
  }

  /** What settling a packet means for a direction it is not sent over. */
  lemma SettleElsewhere(w: World, m: Host, over: Option<Half>, h: Half)
    requires At(w.content, UnixHand(m)) != [] && At(w.content, UnixHand(m))[0].Outgoing? && over != Some(h)
    ensures var c' := Settle(w.content, m, over);
            forall n :: SentOver(At(c', Forwarded(n)), h, None) == SentOver(At(w.content, Forwarded(n)), h, None)
  {
    hide SentOver, At, Shift, Settle;
    forall n
      ensures SentOver(At(Settle(w.content, m, over), Forwarded(n)), h, None)
              == SentOver(At(w.content, Forwarded(n)), h, None)
    {
      AfterSettling(w.content, m, over, n);
      if n == m {
        var Outgoing(client, packet) := At(w.content, UnixHand(m))[0];
        NotSentOver(At(w.content, Forwarded(m)), Settled(client, packet, over), h);
      }
    }
  }

  lemma NotSentOver(ts: seq<Token>, t: Token, h: Half)
    requires t.Settled? && t.over != Some(h)
    ensures SentOver(ts + [t], h, None) == SentOver(ts, h, None)
  {
    SentOverPush(ts, t, h, None);
    hide SentOver, AsPayload;
  }

  lemma AfterSettling(c: Content, m: Host, over: Option<Half>, n: Host)
    requires At(c, UnixHand(m)) != [] && At(c, UnixHand(m))[0].Outgoing?
    ensures var Outgoing(client, packet) := At(c, UnixHand(m))[0];
            At(Settle(c, m, over), Forwarded(n))
            == if n == m then At(c, Forwarded(m)) + [Settled(client, packet, over)] else At(c, Forwarded(n))
  {
  }

  /** What it means for the one it is sent over. */
  lemma SettleThere(w: World, m: Host, h: Half)
    requires At(w.content, UnixHand(m)) != [] && At(w.content, UnixHand(m))[0].Outgoing?
    ensures var c' := Settle(w.content, m, Some(h));
            SentOver(At(c', Forwarded(m)), h, None)
            == SentOver(At(w.content, Forwarded(m)), h, None) + AsPayload(At(w.content, UnixHand(m))[0].packet)
  {
    var Outgoing(client, packet) := At(w.content, UnixHand(m))[0];
    var t := Settled(client, packet, Some(h));
    SentOverPush(At(w.content, Forwarded(m)), t, h, None);
    hide SentOver, At, Shift;
    ShiftAt(w.content, UnixHand(m), Forwarded(m), t);
  }

  lemma EnteredPayload(c: Content, h: Half, frame: Frame, g: Half)
    ensures Frames(At(Enter(c, h, frame), Entered(g)), g, {Payload})
            == Frames(At(c, Entered(g)), g, {Payload}) + (if g == h && KindOf(frame) == Payload then [frame] else [])
    ensures forall n :: At(Enter(c, h, frame), Forwarded(n)) == At(c, Forwarded(n))
  {
    FramesOfPush(Push(c, Sink(h), Framed(h, frame)), Entered(h), Framed(h, frame), g, {Payload});
    hide Frames;
  }

  lemma SendFrameKeeps(w: World, m: Host, h: Half)
    requires Submits(w) && DoSendFrame(w, m, h).Some?
    ensures Submits(DoSendFrame(w, m, h).value)
  {
    var w' := DoSendFrame(w, m, h).value;
    var settled := w.(content := Settle(w.content, m, Some(h)));
    var Packet(_, srcPort, dstPort, data) := At(w.content, UnixHand(m))[0].packet;
    hide ClientOk, HandOk, HalfOk, Settle;
    forall d
      ensures ClientOk(w', d) && HandOk(w', d)
    {
      assert ClientOk(w, d) && HandOk(w, d);
      SettleKeepsClient(w, m, Some(h), d);
      EnterKeepsClient(settled, h, Data(srcPort, dstPort, data), d);
    }
    forall g
      ensures HalfOk(w', g)
    {
      assert HalfOk(w, g);
      SendFrameKeepsHalf(w, m, h, g);
    }
  }

  lemma EnterKeepsClient(w: World, h: Half, frame: Frame, d: Client)
    requires ClientOk(w, d) && HandOk(w, d)
    ensures var w' := w.(content := Enter(w.content, h, frame)); ClientOk(w', d) && HandOk(w', d)
  {
    var w' := w.(content := Enter(w.content, h, frame));
    hide PacketsOf;
    assert forall n :: Submitted(w'.content, n, d) == Submitted(w.content, n, d);
    OtherClientOk(w, w', d);
  }

  lemma SendFrameKeepsHalf(w: World, m: Host, h: Half, g: Half)
    requires HalfOk(w, g) && DoSendFrame(w, m, h).Some?
    ensures HalfOk(DoSendFrame(w, m, h).value, g)
  {
    var settled := Settle(w.content, m, Some(h));
    var Packet(_, srcPort, dstPort, data) := At(w.content, UnixHand(m))[0].packet;
    hide SentOver, Frames, At, Settle, Enter, Room;
    EnteredPayload(settled, h, Data(srcPort, dstPort, data), g);
    SettleLeavesEntered(w.content, m, Some(h));
    if g == h {
      SettleThere(w, m, h);
    } else {
      SettleElsewhere(w, m, Some(h), g);
    }
  }

  lemma SettleLeavesEntered(c: Content, m: Host, over: Option<Half>)
    requires At(c, UnixHand(m)) != [] && At(c, UnixHand(m))[0].Outgoing?
    ensures forall g :: At(Settle(c, m, over), Entered(g)) == At(c, Entered(g))
  {
  }

  lemma BindKeeps(w: World, c: Client, host: Host, port: u16)
    requires Submits(w) && DoBind(w, c, host, port).Some?
    ensures Submits(DoBind(w, c, host, port).value)
  {
    var w' := DoBind(w, c, host, port).value;
    HalvesStayOk(w, w');
    hide HalfOk, Submitted, At;
    forall d
      ensures ClientOk(w', d) && HandOk(w', d)
    {
      assert ClientOk(w, d) && HandOk(w, d);
    }
  }

  lemma OpenKeeps(w: World, h: Half, back: Half, one: Host, other: Host, oneSock: nat, otherSock: nat)
    requires Submits(w) && DoOpen(w, h, back, one, other, oneSock, otherSock).Some?
    ensures Submits(DoOpen(w, h, back, one, other, oneSock, otherSock).value)
  {
    var w' := DoOpen(w, h, back, one, other, oneSock, otherSock).value;
    hide Submitted, At, SentOver, Frames;
    forall d
      ensures ClientOk(w', d) && HandOk(w', d)
    {
      assert ClientOk(w, d) && HandOk(w, d);
    }
    forall g
      ensures HalfOk(w', g)
    {
      assert HalfOk(w, g);
    }
  }

  // ---------------------------------------------------------------- every run

  lemma StepKeeps(w: World, a: Action)
    requires Submits(w) && Inv(w) && Next(w, a).Some?
    ensures Submits(Next(w, a).value)
  {
    hide Submits, SameStart;
    match a
    case Open(h, back, one, other, oneSock, otherSock) => OpenKeeps(w, h, back, one, other, oneSock, otherSock);
    case Bind(c, host, port) => BindKeeps(w, c, host, port);
    case Accept(c, to, toPort, data) => AcceptKeeps(w, c, to, toPort, data);
    case Submit(c) => SubmitKeeps(w, c);
    case TakeUnix(m) =>
      QueueIsOutgoing(w, m);
      TakeUnixKeeps(w, m);
    case SendFrame(m, h) => SendFrameKeeps(w, m, h);
    case DropUnsent(m) => DropUnsentKeeps(w, m);
    case _ =>
      OtherStepIsElsewhere(w, a);
      SameStartKeeps(w, Next(w, a).value);
  }

  lemma OtherStepIsElsewhere(w: World, a: Action)
    requires Next(w, a).Some? && !IsSubmission(a)
    ensures SameStart(w, Next(w, a).value)
  {
    hide SameStart, Enter;
    if OnLink(a) {
      LinkStepIsElsewhere(w, a);
    } else if OfSocket(a) {
      SocketStepIsElsewhere(w, a);
    } else if OfTable(a) {
      TableStepIsElsewhere(w, a);
    } else {
      match a
      case SendControl(h, data) => EnteringIsElsewhere(w, h, Data(0, 0, data));
      case SendPing(h) => EnteringIsElsewhere(w, h, Ping);
    }
  }

  lemma QueueIsOutgoing(w: World, m: Host)
    requires Inv(w) && At(w.content, UnixQueue(m)) != []
    ensures At(w.content, UnixQueue(m))[0].Outgoing?
  {
    assert Good(w.facts, UnixQueue(m), At(w.content, UnixQueue(m))[0]);
  }

  lemma {:induction false} RunKeeps(w: World, actions: seq<Action>)
    requires Submits(w) && Inv(w) && Run(w, actions).Some?
    ensures Submits(Run(w, actions).value)
    decreases |actions|
  {
    hide Submits, Inv, Next;
    if actions != [] {
      StepKeepsInv(w, actions[0]);
      StepKeeps(w, actions[0]);
      RunKeeps(Next(w, actions[0]).value, actions[1..]);
    }
  }

  lemma ReachableSubmits(w: World)
    requires Reachable(w)
    ensures Submits(w)
  {
    var actions :| Run(START, actions) == Some(w);
    StartHolds();
    assert forall p :: At(START.content, p) == [];
    assert Submits(START) by { hide At; }
    hide Submits, Inv, Run;
    RunKeeps(START, actions);
  }

  // ---------------------------------------------------------------- what this means

  /**
   In every reachable state, what was read from a client is, in order and once each, what its
   host's forwarder is done with, and then what is in the forwarder's hand, in the queue and in
   the client's read task.
   */
  lemma PacketsAreSubmittedInOrder(w: World, c: Client)
    requires Reachable(w) && c in w.facts.clients
    ensures var n := w.facts.clients[c].host;
            AcceptedFrom(w.facts, c)
            == PacketsOf(At(w.content, Forwarded(n)), c) + PacketsOf(At(w.content, UnixHand(n)), c)
               + PacketsOf(At(w.content, UnixQueue(n)), c) + PacketsOf(At(w.content, ClientHand(c)), c)
  {
    ReachableSubmits(w);
    hide Reachable, PacketsOf, At, AcceptedFrom;
    assert ClientOk(w, c);
  }

  lemma {:induction false} OneAmongAll(ts: seq<Token>, h: Half, c: Client)
    ensures exists others :: Merged(SentOver(ts, h, None), SentOver(ts, h, Some(c)), others)
  {
    if ts == [] {
      assert Merged(SentOver(ts, h, None), SentOver(ts, h, Some(c)), []);
    } else {
      var t, before := ts[|ts| - 1], ts[..|ts| - 1];
      OneAmongAll(before, h, c);
      var others :| Merged(SentOver(before, h, None), SentOver(before, h, Some(c)), others);
      assert ts == before + [t];
      SentOverPush(before, t, h, None);
      SentOverPush(before, t, h, Some(c));
      hide SentOver, AsPayload, Merged;
      if t.Settled? && t.over == Some(h) {
        var one := AsPayload(t.packet);
        OneMoreAmongAll(SentOver(before, h, None), SentOver(before, h, Some(c)), others, one,
                        if t.client == c then one else []);
      } else {
        assert SentOver(before, h, None) + [] == SentOver(before, h, None);
        assert SentOver(before, h, Some(c)) + [] == SentOver(before, h, Some(c));
      }
    }
  }

  lemma OneMoreAmongAll(all: seq<Frame>, some: seq<Frame>, others: seq<Frame>, one: seq<Frame>, plus: seq<Frame>)
    requires Merged(all, some, others) && (plus == one || plus == [])
    ensures exists more :: Merged(all + one, some + plus, more)
  {
    if plus == one {
      MergedConcat(all, some, others, one);
      assert Merged(all + one, some + plus, others);
    } else {
      MergedSwap(all, some, others);
      MergedConcat(all, others, some, one);
      MergedSwap(all + one, others + one, some);
      assert some + plus == some;
      assert Merged(all + one, some + plus, others + one);
    }
  }

  /**
   In every reachable state, the client frames that entered a direction are exactly those its
   host's forwarder has put there, in order; each client's are among them in the order in which
   the client sent them.
   */
  lemma EnteredAsForwarded(w: World, h: Half, c: Client)
    requires Reachable(w) && h in w.facts.halves
    ensures var done := At(w.content, Forwarded(w.facts.halves[h].origin));
            var entered := Frames(At(w.content, Entered(h)), h, {Payload});
            && entered == SentOver(done, h, None)
            && exists others :: Merged(entered, SentOver(done, h, Some(c)), others)
  {
    ReachableSubmits(w);
    hide Reachable, SentOver, At, Frames, Merged;
    assert HalfOk(w, h);
    OneAmongAll(At(w.content, Forwarded(w.facts.halves[h].origin)), h, c);
  }

  /** Packets as the client frames they become, control messages left out. */
  function AsPayloads(packets: seq<Packet>): seq<Frame> {
    if packets == [] then []
    else AsPayloads(packets[..|packets| - 1]) + AsPayload(packets[|packets| - 1])
  }

  lemma AsPayloadsPush(packets: seq<Packet>, packet: Packet)
    ensures AsPayloads(packets + [packet]) == AsPayloads(packets) + AsPayload(packet)
  {
    assert (packets + [packet])[..|packets|] == packets;
  }

  lemma {:induction false} AllOverOne(ts: seq<Token>, h: Half, c: Client)
    requires forall t | t in ts && (t.Outgoing? || t.Settled?) && t.client == c :: t.Settled? && t.over == Some(h)
    ensures SentOver(ts, h, Some(c)) == AsPayloads(PacketsOf(ts, c))
  {
    if ts == [] {
      assert AsPayloads([]) == [];
    } else {
      var before, t := ts[..|ts| - 1], ts[|ts| - 1];
      assert t in ts && forall u | u in before :: u in ts;
      assert ts == before + [t];
      hide PacketsOf, SentOver, AsPayload, AsPayloads;
      AllOverOne(before, h, c);
      PacketsOfPush(before, t, c);
      SentOverPush(before, t, h, Some(c));
      if t.Settled? && t.client == c {
        AsPayloadsPush(PacketsOf(before, c), t.packet);
      } else {
        assert PacketsOf(before, c) + [] == PacketsOf(before, c);
        assert SentOver(before, h, Some(c)) + [] == SentOver(before, h, Some(c));
      }
    }
  }

  /**
   A client all of whose packets have gone over one connection so far: what it sent first, as
   many packets as the forwarder is done with, entered that connection in this order, among the
   frames of the other clients.
   */
  lemma OneConnectionKeepsTheClientsOrder(w: World, h: Half, c: Client)
    requires Reachable(w) && h in w.facts.halves && c in w.facts.clients
    requires w.facts.clients[c].host == w.facts.halves[h].origin
    requires forall t | t in At(w.content, Forwarded(w.facts.halves[h].origin)) && t.Settled? && t.client == c ::
               t.over == Some(h)
    ensures var k := |PacketsOf(At(w.content, Forwarded(w.facts.halves[h].origin)), c)|;
            && k <= |AcceptedFrom(w.facts, c)|
            && exists others ::
                 Merged(Frames(At(w.content, Entered(h)), h, {Payload}),
                        AsPayloads(AcceptedFrom(w.facts, c)[..k]), others)
  {
    hide Reachable, At, PacketsOf, SentOver, Frames, Merged, AsPayloads, AcceptedFrom;
    var n := w.facts.halves[h].origin;
    var done := At(w.content, Forwarded(n));
    ReachableInv(w);
    SettledOnly(w, n);
    hide Inv;
    AllOverOne(done, h, c);
    PacketsAreSubmittedInOrder(w, c);
    EnteredAsForwarded(w, h, c);
    FrontOf(AcceptedFrom(w.facts, c), PacketsOf(done, c), PacketsOf(At(w.content, UnixHand(n)), c),
            PacketsOf(At(w.content, UnixQueue(n)), c), PacketsOf(At(w.content, ClientHand(c)), c));
  }

  lemma FrontOf<T>(whole: seq<T>, a: seq<T>, b: seq<T>, c: seq<T>, d: seq<T>)
    requires whole == a + b + c + d
    ensures |a| <= |whole| && whole[..|a|] == a
  {
  }

  lemma SettledOnly(w: World, n: Host)
    requires Inv(w)
    ensures forall t | t in At(w.content, Forwarded(n)) :: t.Settled?
  {
    forall t | t in At(w.content, Forwarded(n))
      ensures t.Settled?
    {
      assert Good(w.facts, Forwarded(n), t);
    }
  }
}
