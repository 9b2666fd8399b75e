/**
 Where what is delivered came from, also on connections where a payload too long has been read:
 everything decoded before that was sent, and everything decoded after it is known exactly.
 */
module Origins {
  import opened Bytes
  import opened FrameCodec
  import opened FrameStream
  import opened Merging
  import opened Places
  import opened Pipeline
  import opened PipelineSafety
  import opened PipelineRuns
  import opened Delivery

  /** What was decoded on a direction before the first frame too long was read there. */
  function Uncut(w: World, h: Half): seq<Frame> {
    Whole(Carried(At(w.content, Passed(h))))
  }

  function First<T>(s: seq<T>, n: nat): seq<T> {
    if n <= |s| then s[..n] else s
  }

  lemma {:induction false} WholeIsFirst(frames: seq<Frame>)
    ensures Whole(frames) <= frames && AllFit(Whole(frames))
    ensures |Whole(frames)| < |frames| ==> !Fits(frames[|Whole(frames)|])
  {
    if frames != [] && Fits(frames[0]) {
      WholeIsFirst(frames[1..]);
      assert frames == [frames[0]] + frames[1..];
    }
  }

  // ---------------------------------------------------------------- everything that is decoded

  /**
   Whatever the payloads, the reader has decoded, and will decode from the bytes ahead of it,
   exactly what all the bytes written decode to, cut frames and their surplus included.
   */
  lemma WhatIsDecoded(w: World, h: Half)
    requires Reachable(w)
    ensures var ahead := Drain(StreamOf(w, h).buffer + StreamOf(w, h).unread);
            Drain(EncodeAll(OnWire(w.content, h)))
                == Progress(DecodedOn(w.facts, h) + ahead.frames, ahead.rest, ahead.failed)
  {
    ReachableInv(w);
    assert InStep(w, h);
    assert AllFit(DecodedOn(w.facts, h));
    hide Inv, Reachable, Drain, EncodeAll, OnWire, DecodedOn, StreamOf;
    DrainOfEncodings(DecodedOn(w.facts, h), StreamOf(w, h).buffer + StreamOf(w, h).unread);
  }

  /** Up to the first frame too long, what is decoded is what was written; with none, all of it. */
  lemma UncutIsDecoded(w: World, h: Half)
    requires Reachable(w)
    ensures Uncut(w, h) <= DecodedOn(w.facts, h) && Uncut(w, h) <= OnWire(w.content, h)
    ensures NoneCut(w.content, h) ==> Uncut(w, h) == DecodedOn(w.facts, h)
  {
    var passed := At(w.content, Passed(h));
    ReachableInv(w);
    assert InStep(w, h);
    hide Inv, Reachable, Carried, At, Whole;
    WholeIsFirst(Carried(passed));
    CarriedOfConcat(passed, At(w.content, Wire(h)));
    CarriedFits(passed);
    if NoneCut(w.content, h) {
      WholeOfFitting(Carried(passed));
    }
  }

  /** What was decoded before the first cut was put on the connection. */
  lemma UncutWasSent(w: World, h: Half, frame: Frame)
    requires Inv(w) && frame in Uncut(w, h)
    ensures Honest(w.facts, h, frame)
  {
    var passed := At(w.content, Passed(h));
    WholeIsFirst(Carried(passed));
    CarriedHas(passed, frame);
    var t :| t in passed && t.Framed? && t.frame == frame;
    assert Good(w.facts, Passed(h), t);
  }

  lemma {:induction false} CarriedHas(ts: seq<Token>, frame: Frame)
    requires frame in Carried(ts)
    ensures exists t :: t in ts && t.Framed? && t.frame == frame
  {
    if ts[0].Framed? && ts[0].frame == frame {
      assert ts[0] in ts;
    } else {
      CarriedHas(ts[1..], frame);
      var t :| t in ts[1..] && t.Framed? && t.frame == frame;
      assert t in ts;
    }
  }

  // ---------------------------------------------------------------- what has arrived

  /** The frames of a kind that have come to the end of their way. */
  function Arrived(w: World, h: Half, k: Kind): seq<Frame>
    requires h in w.facts.halves
  {
    Frames(At(w.content, WayFromReader(w.facts, h, k)[0]), h, {k})
  }

  /** Of those, the ones decoded before the first cut. */
  function ArrivedUncut(w: World, h: Half, k: Kind): seq<Frame>
    requires h in w.facts.halves
  {
    First(Arrived(w, h, k), |OfKinds(Uncut(w, h), {k})|)
  }

  lemma ArrivedIsDecoded(w: World, h: Half, k: Kind)
    requires Inv(w) && h in w.facts.halves
    ensures Arrived(w, h, k) <= OfKinds(DecodedOn(w.facts, h), {k})
  {
    var way := WayFromReader(w.facts, h, k);
    PastReader(w, h, k);
    hide Inv, Frames, Flow, OfKinds, DecodedOn, At, WayFromReader;
    FlowOfCons(w.content, way, h, {k});
  }

  /** What was decoded before the first cut is the oldest of what was sent and not lost. */
  lemma UncutIsOldest(w: World, h: Half, ks: set<Kind>)
    requires Inv(w)
    ensures exists rest ::
              Merged(Frames(At(w.content, Entered(h)), h, ks), OfKinds(Uncut(w, h), ks) + rest,
                     Frames(At(w.content, Lost(h)), h, ks))
  {
    var passed := Carried(At(w.content, Passed(h)));
    hide Inv, Frames, Flow, Carried, At, OfKinds, Merged, Whole, LinkWay;
    LinkLaw(w, h, ks);
    WholeIsFirst(passed);
    assert passed[..|Whole(passed)|] == Uncut(w, h);
    OfKindsOfPrefix(passed, |Whole(passed)|, ks);
    FrontOfMerged(Frames(At(w.content, Entered(h)), h, ks), OfKinds(Uncut(w, h), ks), OfKinds(passed, ks),
                  Flow(w.content, LinkWay(h), h, ks), Frames(At(w.content, Lost(h)), h, ks));
  }

  /** The oldest of what is merged with others are merged with them too. */
  lemma FrontOfMerged<T(!new)>(whole: seq<T>, front: seq<T>, all: seq<T>, more: seq<T>, others: seq<T>)
    requires front <= all && Merged(whole, all + more, others)
    ensures exists rest :: Merged(whole, front + rest, others)
  {
    var back := all[|front|..];
    assert all == front + back;
    Associate(front, back, more);
    assert Merged(whole, front + (back + more), others);
  }

  /**
   In every reachable state, the frames of each kind that have come to the end of their way, as
   far as they were decoded before the first cut, are the oldest of those sent that were not
   lost, in order; if nothing was cut these are all that have come.
   */
  lemma ArrivedAsSent(w: World, h: Half, k: Kind)
    requires Reachable(w) && h in w.facts.halves
    ensures exists rest ::
              Merged(Frames(At(w.content, Entered(h)), h, {k}), ArrivedUncut(w, h, k) + rest,
                     Frames(At(w.content, Lost(h)), h, {k}))
    ensures NoneCut(w.content, h) ==> ArrivedUncut(w, h, k) == Arrived(w, h, k)
  {
    hide Inv, Reachable, Frames, OfKinds, Merged, At, Uncut, Arrived, NoneCut, DecodedOn;
    UncutIsDecoded(w, h);
    ReachableInv(w);
    ArrivedIsDecoded(w, h, k);
    assert DecodedOn(w.facts, h)[..|Uncut(w, h)|] == Uncut(w, h);
    OfKindsOfPrefix(DecodedOn(w.facts, h), |Uncut(w, h)|, {k});
    UncutIsOldest(w, h, {k});
    FirstOfTwo(Arrived(w, h, k), OfKinds(Uncut(w, h), {k}), OfKinds(DecodedOn(w.facts, h), {k}));
    var entered, lost := Frames(At(w.content, Entered(h)), h, {k}), Frames(At(w.content, Lost(h)), h, {k});
    var rest :| Merged(entered, OfKinds(Uncut(w, h), {k}) + rest, lost);
    FrontOfMerged(entered, ArrivedUncut(w, h, k), OfKinds(Uncut(w, h), {k}), rest, lost);
  }

  lemma FirstOfTwo<T>(a: seq<T>, b: seq<T>, whole: seq<T>)
    requires a <= whole && b <= whole
    ensures First(a, |b|) <= b && (b == whole ==> First(a, |b|) == a)
  {
  }

  // ---------------------------------------------------------------- who sent it

  /** A client bound to this packet's source port on this host sent it. */
  ghost predicate HasSender(facts: Facts, from: Host, packet: Packet) {
    exists sender ::
      && sender in facts.clients && facts.clients[sender] == ClientInfo(from, packet.srcPort)
      && packet in AcceptedFrom(facts, sender)
  }

  /**
   Whatever a client receives as (host, port, data) came over a connection from that host to its
   own. Unless it was decoded there only after a payload too long, it was sent, with the same
   bytes, by a client bound to that port on that host and addressed to the receiver's own host
   and port; whatever is read later does not change that.
   */
  lemma NothingIsForged(w: World, c: Client, t: Token)
    requires Reachable(w) && t in At(w.content, Received(c))
    ensures t.Local? && c in w.facts.clients && t.via in w.facts.halves
    ensures w.facts.halves[t.via].origin == t.host && w.facts.halves[t.via].target == w.facts.clients[c].host
    ensures var frame := Data(t.port, w.facts.clients[c].port, t.data);
            && frame in DecodedOn(w.facts, t.via)
            && (frame in Uncut(w, t.via) ==>
                  HasSender(w.facts, t.host, Packet(w.facts.clients[c].host, t.port, w.facts.clients[c].port, t.data)))
  {
    ReachableInv(w);
    hide Reachable, Uncut;
    assert Good(w.facts, Received(c), t);
    var frame := Data(t.port, w.facts.clients[c].port, t.data);
    if frame in Uncut(w, t.via) {
      hide Inv, Good;
      UncutWasSent(w, t.via, frame);
    }
  }

  /**
   What waits for delivery carries the true origin of its connection; unless decoded only after a
   cut, it was sent from there to here.
   */
  lemma LabelsAreTruthful(w: World, h: Half, t: Token)
    requires Reachable(w) && h in w.facts.halves
    requires t in At(w.content, SockQueue(SockOf(w.facts, h))) && t.Incoming? && t.via == h
    ensures t.packet.host == w.facts.halves[h].origin
    ensures var frame := Data(t.packet.srcPort, t.packet.dstPort, t.packet.data);
            && frame in DecodedOn(w.facts, h)
            && (frame in Uncut(w, h) && !IsControl(t) ==>
                  HasSender(w.facts, w.facts.halves[h].origin, t.packet.(host := w.facts.halves[h].target)))
  {
    ReachableInv(w);
    hide Reachable, Uncut;
    assert Good(w.facts, SockQueue(SockOf(w.facts, h)), t);
    var frame := Data(t.packet.srcPort, t.packet.dstPort, t.packet.data);
    if frame in Uncut(w, h) && !IsControl(t) {
      hide Inv, Good;
      UncutWasSent(w, h, frame);
    }
  }
}
