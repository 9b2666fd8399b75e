/** The pings and pongs of the pipeline: every one is accounted for, and without timers their exchange dies down. */
module Heartbeat {
  import opened Bytes
  import opened FrameCodec
  import opened Places
  import opened Pipeline
  import opened PipelineSafety
  import opened PipelineRuns
  import opened Delivery
  import opened Origins
  import opened Merging

  /** As many pongs entered the other direction as pings were answered; nothing happens on connections not yet open. */
  ghost predicate Balanced(w: World) {
    && (forall h | h in w.facts.halves :: BalancedAt(w, h))
    && (forall h | h !in w.facts.halves :: At(w.content, Entered(h)) == [] && At(w.content, Answered(h)) == [])
  }

  ghost predicate BalancedAt(w: World, h: Half)
    requires h in w.facts.halves
  {
    var back := w.facts.halves[h].back;
    |Frames(At(w.content, Entered(back)), back, {PongKind})| == |At(w.content, Answered(h))|
  }

  lemma SameLogs(w: World, w': World)
    requires Balanced(w) && w'.facts.halves == w.facts.halves
    requires forall h :: At(w'.content, Entered(h)) == At(w.content, Entered(h))
    requires forall h :: At(w'.content, Answered(h)) == At(w.content, Answered(h))
    ensures Balanced(w')
  {
    forall h | h in w'.facts.halves
      ensures BalancedAt(w', h)
    {
      assert BalancedAt(w, h);
    }
  }

  lemma FramesOfEnter(c: Content, h0: Half, frame: Frame, g: Half, ks: set<Kind>)
    ensures var entered := if g == h0 then One(Framed(h0, frame), g, ks) else [];
            Frames(At(Enter(c, h0, frame), Entered(g)), g, ks) == Frames(At(c, Entered(g)), g, ks) + entered
  {
    FramesOfPush(Push(c, Sink(h0), Framed(h0, frame)), Entered(h0), Framed(h0, frame), g, ks);
  }

  lemma EnterAddsNoPong(c: Content, h0: Half, frame: Frame, g: Half)
    requires !frame.Pong?
    ensures Frames(At(Enter(c, h0, frame), Entered(g)), g, {PongKind}) == Frames(At(c, Entered(g)), g, {PongKind})
  {
    FramesOfEnter(c, h0, frame, g, {PongKind});
    assert One(Framed(h0, frame), g, {PongKind}) == [];
    hide Enter, Frames, At;
  }

  lemma EnterKeepsBalance(w: World, h0: Half, frame: Frame)
    requires Balanced(w) && h0 in w.facts.halves && !frame.Pong?
    ensures Balanced(w.(content := Enter(w.content, h0, frame)))
  {
    var c' := Enter(w.content, h0, frame);
    assert forall h :: h != h0 ==> At(c', Entered(h)) == At(w.content, Entered(h));
    assert forall h :: At(c', Answered(h)) == At(w.content, Answered(h));
    hide Enter, At, Frames;
    forall h | h in w.facts.halves
      ensures BalancedAt(w.(content := c'), h)
    {
      assert BalancedAt(w, h);
      EnterAddsNoPong(w.content, h0, frame, w.facts.halves[h].back);
    }
  }

  lemma BackIsInjective(facts: Facts, g: Half, h: Half)
    requires Linked(facts) && g in facts.halves && h in facts.halves
    requires facts.halves[g].back == facts.halves[h].back
    ensures g == h
  {
    assert facts.halves[facts.halves[g].back].back == g;
  }

  /** Answering logs one ping at `h` and puts one pong into the other direction. */
  lemma LogsOfAnswer(w: World, h: Half)
    requires DoAnswer(w, h).Some?
    ensures var c' := DoAnswer(w, h).value.content;
            var back := w.facts.halves[h].back;
            && DoAnswer(w, h).value.facts == w.facts
            && back in w.facts.halves
            && (forall g :: |At(c', Answered(g))| == |At(w.content, Answered(g))| + (if g == h then 1 else 0))
            && (forall g :: g != back ==> At(c', Entered(g)) == At(w.content, Entered(g)))
            && |Frames(At(c', Entered(back)), back, {PongKind})|
                == |Frames(At(w.content, Entered(back)), back, {PongKind})| + 1
  {
    var hand, back := At(w.content, ReadHand(h)), w.facts.halves[h].back;
    var answered := Shift(w.content, ReadHand(h), Answered(h), hand[0]);
    FramesOfEnter(answered, back, Pong, back, {PongKind});
    hide Frames;
    assert At(answered, Entered(back)) == At(w.content, Entered(back));
  }

  lemma AnswerKeepsBalance(w: World, h0: Half)
    requires Balanced(w) && Linked(w.facts) && DoAnswer(w, h0).Some?
    ensures Balanced(DoAnswer(w, h0).value)
  {
    LogsOfAnswer(w, h0);
    hide DoAnswer, Linked, At, Frames;
    forall h | h in w.facts.halves
      ensures BalancedAt(DoAnswer(w, h0).value, h)
    {
      assert BalancedAt(w, h);
      if w.facts.halves[h].back == w.facts.halves[h0].back {
        BackIsInjective(w.facts, h, h0);
      }
    }
  }

  lemma OpenKeepsBalance(w: World, h: Half, back: Half, one: Host, other: Host, oneSock: nat, otherSock: nat)
    requires Balanced(w) && Linked(w.facts) && DoOpen(w, h, back, one, other, oneSock, otherSock).Some?
    ensures Balanced(DoOpen(w, h, back, one, other, oneSock, otherSock).value)
  {
    var w' := DoOpen(w, h, back, one, other, oneSock, otherSock).value;
    forall g | g in w'.facts.halves
      ensures BalancedAt(w', g)
    {
      assert g in w.facts.halves ==> BalancedAt(w, g);
    }
  }

  lemma LinkStepsKeepBalance(w: World, a: Action)
    requires Balanced(w) && Next(w, a).Some? && OnLink(a) && !a.Answer?
    ensures Balanced(Next(w, a).value)
  {
    hide Balanced, Parse, Encoding, Labelled, Room, Reads, StreamOf;
    SameLogs(w, Next(w, a).value);
  }

  lemma HostStepsKeepBalance(w: World, a: Action)
    requires Balanced(w) && Next(w, a).Some? && !OnLink(a)
    requires !a.Open? && !a.SendFrame? && !a.SendControl? && !a.SendPing? && !a.Answer?
    ensures Balanced(Next(w, a).value)
  {
    hide Balanced, Room, IsControl;
    SameLogs(w, Next(w, a).value);
  }

  lemma SendFrameKeepsBalance(w: World, n: Host, h: Half)
    requires Balanced(w) && Linked(w.facts) && DoSendFrame(w, n, h).Some?
    ensures Balanced(DoSendFrame(w, n, h).value)
  {
    var packet := At(w.content, UnixHand(n))[0].packet;
    var settled := w.(content := Settle(w.content, n, Some(h)));
    hide Balanced;
    SameLogs(w, settled);
    EnterKeepsBalance(settled, h, Data(packet.srcPort, packet.dstPort, packet.data));
  }

  lemma StepKeepsBalance(w: World, a: Action)
    requires Balanced(w) && Linked(w.facts) && Next(w, a).Some?
    ensures Balanced(Next(w, a).value)
  {
    hide Balanced, Linked;
    match a
    case Open(h, back, one, other, oneSock, otherSock) => OpenKeepsBalance(w, h, back, one, other, oneSock, otherSock);
    case SendFrame(n, h) => SendFrameKeepsBalance(w, n, h);
    case SendControl(h, data) => EnterKeepsBalance(w, h, Data(0, 0, data));
    case SendPing(h) => EnterKeepsBalance(w, h, Ping);
    case Answer(h) => AnswerKeepsBalance(w, h);
    case _ => if OnLink(a) { LinkStepsKeepBalance(w, a); } else { HostStepsKeepBalance(w, a); }
  }

  lemma {:induction false} RunKeepsBalance(w: World, actions: seq<Action>)
    requires Balanced(w) && Inv(w) && Run(w, actions).Some?
    ensures Balanced(Run(w, actions).value)
    decreases |actions|
  {
    if actions != [] {
      StepKeepsInv(w, actions[0]);
      StepKeepsBalance(w, actions[0]);
      assert Linked(w.facts);
      hide Next;
      RunKeepsBalance(Next(w, actions[0]).value, actions[1..]);
    }
  }

  /** The frames of a kind between a connection's sink and the hand of its read task. */
  function UnderWay(c: Content, h: Half, k: Kind): nat {
    |Flow(c, [ReadHand(h)] + LinkWay(h), h, {k})|
  }

  function LostOf(c: Content, h: Half, k: Kind): nat {
    |Frames(At(c, Lost(h)), h, {k})|
  }

  lemma {:induction false} AllOfAKind(ts: seq<Token>, h: Half, frame: Frame)
    requires forall t | t in ts :: t == Framed(h, frame)
    ensures |Frames(ts, h, {KindOf(frame)})| == |ts|
  {
    if ts != [] {
      assert ts[0] in ts && forall t | t in ts[1..] :: t in ts;
      AllOfAKind(ts[1..], h, frame);
    }
  }

  /** How many more frames of a kind were decoded than were passed, or fewer: the work of cut payloads. */
  function Extra(w: World, h: Half, k: Kind): int {
    |OfKinds(DecodedOn(w.facts, h), {k})| - |OfKinds(Carried(At(w.content, Passed(h))), {k})|
  }

  /** What was decoded before the first cut has no part in it; if nothing was cut there is none. */
  lemma ExtraIsSinceTheCut(w: World, h: Half, k: Kind)
    requires Reachable(w)
    ensures Uncut(w, h) <= DecodedOn(w.facts, h) && Uncut(w, h) <= Carried(At(w.content, Passed(h)))
    ensures var n, passed := |Uncut(w, h)|, Carried(At(w.content, Passed(h)));
            Extra(w, h, k) == |OfKinds(DecodedOn(w.facts, h)[n..], {k})| - |OfKinds(passed[n..], {k})|
    ensures NoneCut(w.content, h) ==> Extra(w, h, k) == 0
  {
    var n, passed, decoded := |Uncut(w, h)|, Carried(At(w.content, Passed(h))), DecodedOn(w.facts, h);
    hide Reachable, Inv, Carried, DecodedOn, OfKinds, Whole, At;
    UncutIsDecoded(w, h);
    WholeIsFirst(passed);
    UncutOfUncut(w, h);
    assert decoded == decoded[..n] + decoded[n..] && passed == passed[..n] + passed[n..] && decoded[..n] == passed[..n];
    OfKindsOfConcat(decoded[..n], decoded[n..], {k});
    OfKindsOfConcat(passed[..n], passed[n..], {k});
  }

  lemma UncutOfUncut(w: World, h: Half)
    requires Reachable(w)
    ensures NoneCut(w.content, h) ==> DecodedOn(w.facts, h) == Carried(At(w.content, Passed(h)))
  {
    ReachableInv(w);
    assert InStep(w, h);
  }

  /**
   In every run, the pings a side has sent, with what cut payloads added, are exactly those
   still under way or lost, those whose pong is under way back or lost, and those whose pong
   has arrived; so without cuts in either direction pongs received never exceed pings sent.
   */
  lemma PingsAreAccountedFor(w: World, h: Half)
    requires Reachable(w) && h in w.facts.halves
    ensures var c, back := w.content, w.facts.halves[h].back;
            var sent := |Frames(At(c, Entered(h)), h, {PingKind})|;
            var heard := |At(c, Heard(back))|;
            && sent + Extra(w, h, PingKind) + Extra(w, back, PongKind)
               == UnderWay(c, h, PingKind) + LostOf(c, h, PingKind)
                  + UnderWay(c, back, PongKind) + LostOf(c, back, PongKind) + heard
            && (NoneCut(c, h) && NoneCut(c, back) ==> heard <= sent)
  {
    var back := w.facts.halves[h].back;
    ReachableInv(w);
    ReachableBalanced(w);
    assert Linked(w.facts) && BalancedAt(w, h);
    hide Reachable, NoneCut, Frames, Flow, Extra;
    LogAndLink(w, h, PingKind, Ping, Answered(h));
    LogAndLink(w, back, PongKind, Pong, Heard(back));
    ExtraIsSinceTheCut(w, h, PingKind);
    ExtraIsSinceTheCut(w, back, PongKind);
  }

  lemma ReachableBalanced(w: World)
    requires Reachable(w)
    ensures Balanced(w)
  {
    var actions :| Run(START, actions) == Some(w);
    StartHolds();
    assert Balanced(START);
    hide Inv, Run;
    RunKeepsBalance(START, actions);
  }

  /** The pings (or pongs) sent are those logged at the far end, those under way and those lost. */
  lemma LogAndLink(w: World, h: Half, k: Kind, frame: Frame, end: Place)
    requires Inv(w) && h in w.facts.halves
    requires (k == PingKind && frame == Ping && end == Answered(h))
             || (k == PongKind && frame == Pong && end == Heard(h))
    ensures |Frames(At(w.content, Entered(h)), h, {k})| + Extra(w, h, k)
            == |At(w.content, end)| + UnderWay(w.content, h, k) + LostOf(w.content, h, k)
  {
    var c, way := w.content, WayFromReader(w.facts, h, k) + LinkWay(h);
    assert way[0] == end && way[1..] == [ReadHand(h)] + LinkWay(h);
    hide Inv, Frames, Flow, Merged, LinkWay, WayFromReader, At, OfKinds, Carried, DecodedOn;
    BeatsAtEnd(w, h, frame, end);
    LinkLaw(w, h, {k});
    WholeWay(w, h, k);
    MergedCounts(Frames(At(c, Entered(h)), h, {k}),
                 OfKinds(Carried(At(c, Passed(h))), {k}) + Flow(c, LinkWay(h), h, {k}),
                 Frames(At(c, Lost(h)), h, {k}));
    FlowOfCons(c, way, h, {k});
  }

  lemma BeatsAtEnd(w: World, h: Half, frame: Frame, end: Place)
    requires Inv(w) && ((frame == Ping && end == Answered(h)) || (frame == Pong && end == Heard(h)))
    ensures |Frames(At(w.content, end), h, {KindOf(frame)})| == |At(w.content, end)|
  {
    forall t | t in At(w.content, end)
      ensures t == Framed(h, frame)
    {
      assert Good(w.facts, end, t);
    }
    AllOfAKind(At(w.content, end), h, frame);
  }
}
