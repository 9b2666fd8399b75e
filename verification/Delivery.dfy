/** What the pipeline promises its users, for every run. */
module Delivery {
  import opened Bytes
  import opened FrameCodec
  import opened FrameStream
  import opened Merging
  import opened Places
  import opened Pipeline
  import opened PipelineSafety
  import opened PipelineRuns

  // ---------------------------------------------------------------- what order means

  /** From the wire back to the sink. */
  function LinkWay(h: Half): seq<Place> {
    [Wire(h), WriteHand(h), Sink(h)]
  }

  /** The stages from the log where a kind of frame ends back to its reader. */
  function WayFromReader(facts: Facts, h: Half, k: Kind): seq<Place>
    requires h in facts.halves
  {
    var n, s := facts.halves[h].target, SockOf(facts, h);
    match k
    case Payload => [Tabled(n), NetHand(n), Upstream(n), SockHand(s), SockQueue(s), ReadHand(h)]
    case Control => [Handled(s), SockHand(s), SockQueue(s), ReadHand(h)]
    case PingKind => [Answered(h), ReadHand(h)]
    case PongKind => [Heard(h), ReadHand(h)]
  }

  /**
   What entered the sink, of one kind, is what has arrived at the end of its way and what is in
   hand or queued at each stage before, in this order, with the lost frames among them: none
   duplicated, reordered or replaced.
   */
  ghost predicate InOrder(w: World, h: Half, k: Kind)
    requires h in w.facts.halves
  {
    Merged(Frames(At(w.content, Entered(h)), h, {k}),
           Flow(w.content, WayFromReader(w.facts, h, k) + LinkWay(h), h, {k}),
           Frames(At(w.content, Lost(h)), h, {k}))
  }

  const ALL_KINDS: set<Kind> := {Payload, Control, PingKind, PongKind}

  /** All kinds together, in one order: what entered the sink is what was decoded and then what is on the link. */
  ghost predicate InOneOrder(w: World, h: Half) {
    Merged(Frames(At(w.content, Entered(h)), h, ALL_KINDS),
           DecodedOn(w.facts, h) + Flow(w.content, LinkWay(h), h, ALL_KINDS),
           Frames(At(w.content, Lost(h)), h, ALL_KINDS))
  }

  /** Client frames and control messages together, up to where they part. */
  ghost predicate DataInOneOrder(w: World, h: Half)
    requires h in w.facts.halves
  {
    var s := SockOf(w.facts, h);
    Merged(Frames(At(w.content, Entered(h)), h, {Payload, Control}),
           Flow(w.content, [Split(s), SockHand(s), SockQueue(s), ReadHand(h)] + LinkWay(h), h, {Payload, Control}),
           Frames(At(w.content, Lost(h)), h, {Payload, Control}))
  }

  // ---------------------------------------------------------------- the link

  lemma {:induction false} MergedFrames(whole: seq<Token>, a: seq<Token>, b: seq<Token>, h: Half, ks: set<Kind>)
    requires Merged(whole, a, b)
    ensures Merged(Frames(whole, h, ks), Frames(a, h, ks), Frames(b, h, ks))
    decreases |whole|
  {
    if whole != [] {
      if EndsWith(whole, a, b) {
        MergedFramesStep(whole, a, b, h, ks);
      } else {
        MergedFramesStep(whole, b, a, h, ks);
        MergedSwap(Frames(whole, h, ks), Frames(b, h, ks), Frames(a, h, ks));
      }
    }
  }

  lemma {:induction false} MergedFramesStep(whole: seq<Token>, a: seq<Token>, b: seq<Token>, h: Half, ks: set<Kind>)
    requires whole != [] && EndsWith(whole, a, b)
    ensures Merged(Frames(whole, h, ks), Frames(a, h, ks), Frames(b, h, ks))
    decreases |whole|, 0
  {
    var n, k := |whole| - 1, |a| - 1;
    MergedFrames(whole[..n], a[..k], b, h, ks);
    FramesOfLast(whole, h, ks);
    FramesOfLast(a, h, ks);
    assert whole[n] == a[k] && |One(whole[n], h, ks)| <= 1;
    hide Frames, Merged, One;
    var one := One(whole[n], h, ks);
    if one == [] {
      assert Frames(whole, h, ks) == Frames(whole[..n], h, ks) && Frames(a, h, ks) == Frames(a[..k], h, ks);
    } else {
      assert one == [one[0]];
      MergedAppend(Frames(whole[..n], h, ks), Frames(a[..k], h, ks), Frames(b, h, ks), one[0]);
    }
  }

  lemma FramesOfLast(ts: seq<Token>, h: Half, ks: set<Kind>)
    requires ts != []
    ensures Frames(ts, h, ks) == Frames(ts[..|ts| - 1], h, ks) + One(ts[|ts| - 1], h, ks)
  {
    var n := |ts| - 1;
    FramesOfConcat(ts[..n], [ts[n]], h, ks);
    FramesOfOne(ts[n], h, ks);
    assert ts == ts[..n] + [ts[n]];
  }

  lemma FramesOfOne(t: Token, h: Half, ks: set<Kind>)
    ensures Frames([t], h, ks) == One(t, h, ks)
  {
    var ts := [t];
    assert ts[1..] == [];
    assert Frames(ts[1..], h, ks) == [];
    assert ts[0] == t;
    assert Frames(ts, h, ks) == One(t, h, ks) + [];
    assert [t] == ts;
  }

  lemma FlowOfLinkWay(c: Content, h: Half, ks: set<Kind>)
    ensures Flow(c, LinkWay(h), h, ks) == Frames(At(c, Wire(h)), h, ks) + Frames(Unwritten(c, h), h, ks)
  {
    FramesOfConcat(At(c, WriteHand(h)), At(c, Sink(h)), h, ks);
    FlowOfCons(c, LinkWay(h), h, ks);
    FlowOfCons(c, [WriteHand(h), Sink(h)], h, ks);
    assert LinkWay(h)[1..] == [WriteHand(h), Sink(h)] && [WriteHand(h), Sink(h)][1..] == [Sink(h)];
    hide At, Frames, Flow;
    assert Flow(c, [Sink(h)], h, ks) == Frames(At(c, Sink(h)), h, ks) by {
      FlowOfCons(c, [Sink(h)], h, ks);
    }
  }

  lemma LinkTokens(w: World, h: Half)
    requires Inv(w)
    ensures forall p: Place, t | OnLinkPlace(p) && p.half == h && t in At(w.content, p) :: t.Framed? && t.via == h
  {
    forall p: Place, t | OnLinkPlace(p) && p.half == h && t in At(w.content, p)
      ensures t.Framed? && t.via == h
    {
      assert Good(w.facts, p, t);
    }
  }

  /**
   Whatever their lengths, frames entering a connection are those the reader has passed, those on
   the link, and those lost.
   */
  lemma LinkLaw(w: World, h: Half, ks: set<Kind>)
    requires Inv(w)
    ensures Merged(Frames(At(w.content, Entered(h)), h, ks),
                   OfKinds(Carried(At(w.content, Passed(h))), ks) + Flow(w.content, LinkWay(h), h, ks),
                   Frames(At(w.content, Lost(h)), h, ks))
  {
    var c := w.content;
    assert LinkOk(c, h);
    LinkTokens(w, h);
    FramesOfCarried(At(c, Passed(h)), h, ks);
    FlowOfLinkWay(c, h, ks);
    hide At, Inv, OnLinkPlace, Unwritten, LinkWay;
    MergedFrames(Written(c, h), At(c, Passed(h)) + At(c, Wire(h)), At(c, Lost(h)), h, ks);
    FramesOfConcat(At(c, Passed(h)), At(c, Wire(h)), h, ks);
    FramesOfConcat(Written(c, h), Unwritten(c, h), h, ks);
    hide Frames, Written, Merged;
    MergedConcat(Frames(Written(c, h), h, ks), Frames(At(c, Passed(h)), h, ks) + Frames(At(c, Wire(h)), h, ks),
                 Frames(At(c, Lost(h)), h, ks), Frames(Unwritten(c, h), h, ks));
    Associate(Frames(At(c, Passed(h)), h, ks), Frames(At(c, Wire(h)), h, ks), Frames(Unwritten(c, h), h, ks));
  }

  // ---------------------------------------------------------------- past the reader

  lemma FlowOfCons(c: Content, path: seq<Place>, h: Half, ks: set<Kind>)
    requires path != []
    ensures Flow(c, path, h, ks) == Flow(c, [path[0]], h, ks) + Flow(c, path[1..], h, ks)
    ensures Flow(c, [path[0]], h, ks) == Frames(At(c, path[0]), h, ks)
  {
    hide At, Frames;
    var first := [path[0]];
    assert first[1..] == [] && Flow(c, first[1..], h, ks) == [];
    assert Frames(At(c, path[0]), h, ks) + [] == Frames(At(c, path[0]), h, ks);
  }

  /** Whatever came over the link, what the reader decoded stays in order up to the split, the kinds together. */
  lemma DecodedUpToSplit(w: World, h: Half)
    requires Inv(w) && h in w.facts.halves
    ensures var s := SockOf(w.facts, h);
            Flow(w.content, [Split(s), SockHand(s), SockQueue(s), ReadHand(h)], h, {Payload, Control})
            == OfKinds(DecodedOn(w.facts, h), {Payload, Control})
  {
    hide Flow;
    assert FlowOk(w.facts, w.content, h, ToSplit);
  }

  lemma OneKindUpToSplit(w: World, h: Half, k: Kind)
    requires Inv(w) && h in w.facts.halves && (k == Payload || k == Control)
    ensures var s := SockOf(w.facts, h);
            Frames(At(w.content, Split(s)), h, {k}) + Flow(w.content, [SockHand(s), SockQueue(s), ReadHand(h)], h, {k})
            == OfKinds(DecodedOn(w.facts, h), {k})
  {
    var s, c := SockOf(w.facts, h), w.content;
    var near := [SockHand(s), SockQueue(s), ReadHand(h)];
    var toSplit := [Split(s), SockHand(s), SockQueue(s), ReadHand(h)];
    DecodedUpToSplit(w, h);
    hide Inv, Flow, Frames, OfKinds, At, DecodedOn, SockOf;
    FlowNarrow(c, toSplit, h, {Payload, Control}, {k});
    OfKindsTwice(DecodedOn(w.facts, h), {Payload, Control}, {k});
    FlowOfCons(c, toSplit, h, {k});
    assert toSplit[1..] == near;
  }

  /** The way on from the split that frames of a kind take. */
  function AfterSplit(k: Kind): Route {
    if k == Payload then ToTable else ToHandled
  }

  lemma WayOverSplit(facts: Facts, c: Content, h: Half, k: Kind)
    requires h in facts.halves && (k == Payload || k == Control)
    ensures var s := SockOf(facts, h);
            && WayFromReader(facts, h, k) == Stages(facts, h, AfterSplit(k)) + [SockHand(s), SockQueue(s), ReadHand(h)]
            && KindsOn(AfterSplit(k)) == {k}
            && PutOn(facts, c, h, AfterSplit(k)) == Frames(At(c, Split(s)), h, {k})
  {
    hide Frames, At, OfKinds, SockOf;
  }

  lemma DataPastReader(w: World, h: Half, k: Kind)
    requires Inv(w) && h in w.facts.halves && (k == Payload || k == Control)
    ensures Flow(w.content, WayFromReader(w.facts, h, k), h, {k}) == OfKinds(DecodedOn(w.facts, h), {k})
  {
    hide Flow, Frames, OfKinds, Stages, WayFromReader, At, PutOn, KindsOn, DecodedOn, SockOf, AfterSplit;
    var s := SockOf(w.facts, h);
    WayOverSplit(w.facts, w.content, h, k);
    assert FlowOk(w.facts, w.content, h, AfterSplit(k));
    OneKindUpToSplit(w, h, k);
    FlowOfConcat(w.content, Stages(w.facts, h, AfterSplit(k)), [SockHand(s), SockQueue(s), ReadHand(h)], h, {k});
  }

  /** Past the reader every kind keeps its order, whatever was decoded. */
  lemma PastReader(w: World, h: Half, k: Kind)
    requires Inv(w) && h in w.facts.halves
    ensures Flow(w.content, WayFromReader(w.facts, h, k), h, {k}) == OfKinds(DecodedOn(w.facts, h), {k})
  {
    if k == Payload || k == Control {
      DataPastReader(w, h, k);
    } else {
      hide Flow;
      assert FlowOk(w.facts, w.content, h, if k == PingKind then ToAnswered else ToHeard);
    }
  }

  lemma WholeWay(w: World, h: Half, k: Kind)
    requires Inv(w) && h in w.facts.halves
    ensures Flow(w.content, WayFromReader(w.facts, h, k) + LinkWay(h), h, {k})
            == OfKinds(DecodedOn(w.facts, h), {k}) + Flow(w.content, LinkWay(h), h, {k})
  {
    hide Flow, Inv, WayFromReader, LinkWay;
    PastReader(w, h, k);
    FlowOfConcat(w.content, WayFromReader(w.facts, h, k), LinkWay(h), h, {k});
  }

  // ---------------------------------------------------------------- order, and exactly when it holds

  lemma {:induction false} CarriedInItsKind(ts: seq<Token>, t: Token, ks: set<Kind>)
    requires t in ts && t.Framed? && KindOf(t.frame) in ks
    ensures t.frame in OfKinds(Carried(ts), ks)
  {
    var first := if ts[0].Framed? then [ts[0].frame] else [];
    OfKindsOfConcat(first, Carried(ts[1..]), ks);
    hide KindOf;
    if t == ts[0] {
      assert [t.frame][1..] == [];
    } else {
      CarriedInItsKind(ts[1..], t, ks);
    }
  }

  lemma {:induction false} OfKindsIsPart(frames: seq<Frame>, ks: set<Kind>, frame: Frame)
    requires frame in OfKinds(frames, ks)
    ensures frame in frames
  {
    hide KindOf;
    if frame != frames[0] {
      OfKindsIsPart(frames[1..], ks, frame);
    }
  }

  /** Two ways of merging with the same rest take the same frames. */
  lemma SameCounts<T(!new)>(whole: seq<T>, x: seq<T>, y: seq<T>, rest: seq<T>, lost: seq<T>)
    requires Merged(whole, x + rest, lost) && Merged(whole, y + rest, lost)
    ensures multiset(x) == multiset(y)
  {
    MergedCounts(whole, x + rest, lost);
    MergedCounts(whole, y + rest, lost);
    var r, l := multiset(rest), multiset(lost);
    assert multiset(x) + r + l == multiset(y) + r + l;
    assert multiset(x) == multiset(x) + r + l - l - r;
    assert multiset(y) == multiset(y) + r + l - l - r;
  }

  /** The frames of some kinds that entered are those decoded and those on the link, with the lost ones among them. */
  ghost predicate DecodedInOrder(w: World, h: Half, ks: set<Kind>) {
    Merged(Frames(At(w.content, Entered(h)), h, ks),
           OfKinds(DecodedOn(w.facts, h), ks) + Flow(w.content, LinkWay(h), h, ks),
           Frames(At(w.content, Lost(h)), h, ks))
  }

  lemma DecodedInOrderIfNoneCut(w: World, h: Half, ks: set<Kind>)
    requires Inv(w) && NoneCut(w.content, h)
    ensures DecodedInOrder(w, h, ks)
  {
    assert InStep(w, h);
    hide Inv, Frames, Flow, OfKinds, Carried, Merged, NoneCut, LinkWay, At;
    LinkLaw(w, h, ks);
  }

  /** A frame too long that has been passed is missing past the reader. */
  lemma CutFrameIsMissing(w: World, h: Half, t: Token, ks: set<Kind>)
    requires Inv(w) && t in At(w.content, Passed(h)) && t.Framed? && !Fits(t.frame) && KindOf(t.frame) in ks
    ensures !DecodedInOrder(w, h, ks)
  {
    var c := w.content;
    var x, y := OfKinds(DecodedOn(w.facts, h), ks), OfKinds(Carried(At(c, Passed(h))), ks);
    CarriedInItsKind(At(c, Passed(h)), t, ks);
    assert t.frame !in DecodedOn(w.facts, h);
    if t.frame in x {
      OfKindsIsPart(DecodedOn(w.facts, h), ks, t.frame);
    }
    hide Inv, Frames, Flow, OfKinds, Carried, Merged, LinkWay, At, KindOf, Fits;
    assert t.frame in multiset(y) && t.frame !in multiset(x);
    if DecodedInOrder(w, h, ks) {
      LinkLaw(w, h, ks);
      SameCounts(Frames(At(c, Entered(h)), h, ks), x, y, Flow(c, LinkWay(h), h, ks), Frames(At(c, Lost(h)), h, ks));
      assert false;
    }
  }

  lemma InOrderIfNoneCut(w: World, h: Half, k: Kind)
    requires Inv(w) && h in w.facts.halves && NoneCut(w.content, h)
    ensures InOrder(w, h, k)
  {
    hide Inv, InOrder, DecodedInOrder, NoneCut;
    DecodedInOrderIfNoneCut(w, h, {k});
    InOrderIsDecodedInOrder(w, h, k);
  }

  /** Only client frames and control messages can be too long. */
  lemma DecodedInOrderIffNoneCut(w: World, h: Half, ks: set<Kind>)
    requires Inv(w) && Payload in ks && Control in ks
    ensures DecodedInOrder(w, h, ks) <==> NoneCut(w.content, h)
  {
    if NoneCut(w.content, h) {
      DecodedInOrderIfNoneCut(w, h, ks);
    } else {
      var t :| t in At(w.content, Passed(h)) && t.Framed? && !Fits(t.frame);
      CutFrameIsMissing(w, h, t, ks);
    }
  }

  lemma InOrderIsDecodedInOrder(w: World, h: Half, k: Kind)
    requires Inv(w) && h in w.facts.halves
    ensures InOrder(w, h, k) <==> DecodedInOrder(w, h, {k})
  {
    hide Inv, Frames, Flow, OfKinds, Merged, LinkWay, WayFromReader, At;
    WholeWay(w, h, k);
  }

  /**
   Exactly when order is kept. In every reachable state and for every direction of a connection,
   the order law holds for all four kinds of frames if and only if no frame with a payload too
   long for its length field has been read there yet: as many such frames have entered the sink
   as are still on the link or were lost.
   */
  lemma OrderIsKeptIffNoneCut(w: World, h: Half)
    requires Reachable(w) && h in w.facts.halves
    ensures (forall k :: InOrder(w, h, k)) <==> NoneCut(w.content, h)
    ensures NoneCut(w.content, h) <==>
              TooLong(At(w.content, Entered(h)))
              == TooLong(At(w.content, Lost(h))) + TooLong(At(w.content, Wire(h))) + TooLong(Unwritten(w.content, h))
  {
    ReachableInv(w);
    NoneCutIffAllStillAhead(w, h);
    hide Inv, InOrder, Reachable, DecodedInOrder;
    if NoneCut(w.content, h) {
      forall k
        ensures InOrder(w, h, k)
      {
        InOrderIfNoneCut(w, h, k);
      }
    } else {
      var t :| t in At(w.content, Passed(h)) && t.Framed? && !Fits(t.frame);
      CutFrameIsMissing(w, h, t, {KindOf(t.frame)});
      InOrderIsDecodedInOrder(w, h, KindOf(t.frame));
    }
  }

  // ---------------------------------------------------------------- counting what is too long

  function TooLong(ts: seq<Token>): nat {
    if ts == [] then 0 else TooLong(ts[..|ts| - 1]) + (if IsTooLong(ts[|ts| - 1]) then 1 else 0)
  }

  predicate IsTooLong(t: Token) {
    t.Framed? && !Fits(t.frame)
  }

  lemma {:induction false} TooLongOfConcat(ts: seq<Token>, us: seq<Token>)
    ensures TooLong(ts + us) == TooLong(ts) + TooLong(us)
    decreases |us|
  {
    hide IsTooLong;
    if us == [] {
      assert ts + us == ts;
    } else {
      var n := |us| - 1;
      TooLongOfConcat(ts, us[..n]);
      assert (ts + us)[..|ts + us| - 1] == ts + us[..n];
    }
  }

  lemma {:induction false} TooLongOfMerged(whole: seq<Token>, a: seq<Token>, b: seq<Token>)
    requires Merged(whole, a, b)
    ensures TooLong(whole) == TooLong(a) + TooLong(b)
  {
    hide IsTooLong;
    if whole != [] {
      var n := |whole| - 1;
      if EndsWith(whole, a, b) {
        TooLongOfMerged(whole[..n], a[..|a| - 1], b);
      } else {
        TooLongOfMerged(whole[..n], b[..|b| - 1], a);
      }
    }
  }

  lemma {:induction false} NoneTooLongIffAllFit(ts: seq<Token>)
    ensures TooLong(ts) == 0 <==> forall t | t in ts :: !IsTooLong(t)
  {
    hide IsTooLong;
    if ts != [] {
      var n := |ts| - 1;
      NoneTooLongIffAllFit(ts[..n]);
      assert forall t :: t in ts <==> t in ts[..n] || t == ts[n];
    }
  }

  lemma NoneCutIffAllStillAhead(w: World, h: Half)
    requires Inv(w)
    ensures var c := w.content;
            NoneCut(c, h) <==>
              TooLong(At(c, Entered(h))) == TooLong(At(c, Lost(h))) + TooLong(At(c, Wire(h))) + TooLong(Unwritten(c, h))
  {
    var c := w.content;
    assert LinkOk(c, h);
    hide Inv, TooLong, At;
    TooLongOfMerged(Written(c, h), At(c, Passed(h)) + At(c, Wire(h)), At(c, Lost(h)));
    TooLongOfConcat(At(c, Passed(h)), At(c, Wire(h)));
    TooLongOfConcat(Written(c, h), Unwritten(c, h));
    NoneTooLongIffAllFit(At(c, Passed(h)));
  }

  // ---------------------------------------------------------------- the laws, one by one

  /**
   Per connection direction, the client frames put into the sink are, in order, those handed to
   the port table and then those in hand or queued at each stage before it, with the lost ones
   among them; without losses, exactly those.
   */
  lemma PayloadInOrder(w: World, h: Half)
    requires Reachable(w) && h in w.facts.halves && NoneCut(w.content, h)
    ensures var n, s := w.facts.halves[h].target, SockOf(w.facts, h);
            var entered, lost := Frames(At(w.content, Entered(h)), h, {Payload}),
                Frames(At(w.content, Lost(h)), h, {Payload});
            var flow := Flow(w.content, [Tabled(n), NetHand(n), Upstream(n), SockHand(s), SockQueue(s), ReadHand(h)]
                                        + [Wire(h), WriteHand(h), Sink(h)], h, {Payload});
            Merged(entered, flow, lost) && (lost == [] ==> entered == flow)
  {
    ReachableInv(w);
    InOrderIfNoneCut(w, h, Payload);
    hide Frames, Flow, Reachable, Inv, NoneCut;
    MergedWithNone(Frames(At(w.content, Entered(h)), h, {Payload}),
                   Flow(w.content, WayFromReader(w.facts, h, Payload) + LinkWay(h), h, {Payload}));
  }

  /** Control messages keep their order too, up to the task that processes them. */
  lemma ControlInOrder(w: World, h: Half)
    requires Reachable(w) && h in w.facts.halves && NoneCut(w.content, h)
    ensures var s := SockOf(w.facts, h);
            var entered, lost := Frames(At(w.content, Entered(h)), h, {Control}),
                Frames(At(w.content, Lost(h)), h, {Control});
            var flow := Flow(w.content, [Handled(s), SockHand(s), SockQueue(s), ReadHand(h)]
                                        + [Wire(h), WriteHand(h), Sink(h)], h, {Control});
            Merged(entered, flow, lost) && (lost == [] ==> entered == flow)
  {
    ReachableInv(w);
    InOrderIfNoneCut(w, h, Control);
    hide Frames, Flow, Reachable, Inv, NoneCut;
    MergedWithNone(Frames(At(w.content, Entered(h)), h, {Control}),
                   Flow(w.content, WayFromReader(w.facts, h, Control) + LinkWay(h), h, {Control}));
  }

  /** Client frames and control messages share one order, up to where they part, exactly when none has been cut. */
  lemma DataKeepsOneOrderIffNoneCut(w: World, h: Half)
    requires Reachable(w) && h in w.facts.halves
    ensures DataInOneOrder(w, h) <==> NoneCut(w.content, h)
  {
    var s := SockOf(w.facts, h);
    ReachableInv(w);
    hide Reachable, Inv, Frames, Flow, OfKinds, Merged, LinkWay, At, NoneCut;
    DecodedInOrderIffNoneCut(w, h, {Payload, Control});
    DecodedUpToSplit(w, h);
    FlowOfConcat(w.content, [Split(s), SockHand(s), SockQueue(s), ReadHand(h)], LinkWay(h), h, {Payload, Control});
  }

  /** All four kinds share one order up to the reader, exactly when none has been cut. */
  lemma OneOrderUpToReaderIffNoneCut(w: World, h: Half)
    requires Reachable(w)
    ensures InOneOrder(w, h) <==> NoneCut(w.content, h)
  {
    ReachableInv(w);
    hide Reachable, Inv, Frames, Flow, OfKinds, Merged, LinkWay, At, NoneCut;
    DecodedInOrderIffNoneCut(w, h, ALL_KINDS);
    OfAllKinds(DecodedOn(w.facts, h));
  }

  lemma {:induction false} OfAllKinds(frames: seq<Frame>)
    ensures OfKinds(frames, ALL_KINDS) == frames
  {
    if frames != [] {
      OfAllKinds(frames[1..]);
    }
  }

  // ---------------------------------------------------------------- control messages overtake

  /** The data frames of a direction that have come as far as the split, the kinds together. */
  function AtSplit(w: World, h: Half): seq<Frame>
    requires h in w.facts.halves
  {
    Frames(At(w.content, Split(SockOf(w.facts, h))), h, {Payload, Control})
  }

  /** The client frames of a direction that wait between the split and the port table. */
  function Waiting(w: World, h: Half): seq<Frame>
    requires h in w.facts.halves
  {
    var n := w.facts.halves[h].target;
    Flow(w.content, [NetHand(n), Upstream(n)], h, {Payload})
  }

  /** The client frames that came to the split before its i-th frame and have not reached the port table. */
  function OvertakenBy(w: World, h: Half, i: nat): seq<Frame>
    requires h in w.facts.halves && i < |AtSplit(w, h)|
  {
    var before := OfKinds(AtSplit(w, h)[..i], {Payload});
    var tabled := Frames(At(w.content, Tabled(w.facts.halves[h].target)), h, {Payload});
    if |before| <= |tabled| then [] else before[|tabled|..]
  }

  lemma SplitFeedsBoth(w: World, h: Half)
    requires Inv(w) && h in w.facts.halves
    ensures var n, s := w.facts.halves[h].target, SockOf(w.facts, h);
            && OfKinds(AtSplit(w, h), {Control}) == Frames(At(w.content, Handled(s)), h, {Control})
            && OfKinds(AtSplit(w, h), {Payload}) == Frames(At(w.content, Tabled(n)), h, {Payload}) + Waiting(w, h)
  {
    var n, s, c := w.facts.halves[h].target, SockOf(w.facts, h), w.content;
    assert Stages(w.facts, h, ToHandled) == [Handled(s)];
    assert Stages(w.facts, h, ToTable) == [Tabled(n), NetHand(n), Upstream(n)];
    hide Flow, Frames, OfKinds, At, Stages, SockOf;
    assert FlowOk(w.facts, c, h, ToHandled) && FlowOk(w.facts, c, h, ToTable);
    hide Inv;
    FramesNarrow(At(c, Split(s)), h, {Payload, Control}, {Control});
    FramesNarrow(At(c, Split(s)), h, {Payload, Control}, {Payload});
    FlowOfCons(c, [Handled(s)], h, {Control});
    FlowOfCons(c, [Tabled(n), NetHand(n), Upstream(n)], h, {Payload});
    assert [Tabled(n), NetHand(n), Upstream(n)][1..] == [NetHand(n), Upstream(n)];
  }

  lemma {:induction false} FewFrames(ts: seq<Token>, h: Half, ks: set<Kind>)
    ensures |Frames(ts, h, ks)| <= |ts|
  {
    if ts != [] {
      FewFrames(ts[1..], h, ks);
    }
  }

  lemma OfKindsOfPrefix(frames: seq<Frame>, i: nat, ks: set<Kind>)
    requires i <= |frames|
    ensures OfKinds(frames[..i], ks) <= OfKinds(frames, ks)
  {
    OfKindsOfConcat(frames[..i], frames[i..], ks);
    assert frames[..i] + frames[i..] == frames;
  }

  /**
   How far order is kept between the kinds. Past the split the control messages are processed
   at once and the client frames wait for the forwarder: a processed control message has
   overtaken precisely the client frames that came before it on its connection and still wait,
   which are the oldest of those waiting, and never more than six.
   */
  lemma ControlOvertakesOnlyTheWaiting(w: World, h: Half, i: nat)
    requires Reachable(w) && h in w.facts.halves
    requires i < |AtSplit(w, h)| && KindOf(AtSplit(w, h)[i]) == Control
    ensures var before := OfKinds(AtSplit(w, h)[..i], {Payload});
            var tabled := Frames(At(w.content, Tabled(w.facts.halves[h].target)), h, {Payload});
            && before <= tabled + OvertakenBy(w, h, i)
            && OvertakenBy(w, h, i) <= Waiting(w, h)
            && |OvertakenBy(w, h, i)| <= 6
    ensures Frames(At(w.content, Handled(SockOf(w.facts, h))), h, {Control}) == OfKinds(AtSplit(w, h), {Control})
    ensures Frames(At(w.content, Tabled(w.facts.halves[h].target)), h, {Payload}) + Waiting(w, h)
            == OfKinds(AtSplit(w, h), {Payload})
  {
    var n, c := w.facts.halves[h].target, w.content;
    ReachableInv(w);
    SplitFeedsBoth(w, h);
    WaitingIsShort(w, h);
    hide Reachable, Inv, Frames, Flow, OfKinds, At, Waiting, AtSplit;
    OfKindsOfPrefix(AtSplit(w, h), i, {Payload});
    PrefixOfTwo(OfKinds(AtSplit(w, h)[..i], {Payload}), Frames(At(c, Tabled(n)), h, {Payload}), Waiting(w, h));
  }

  lemma PrefixOfTwo<T>(p: seq<T>, a: seq<T>, b: seq<T>)
    requires p <= a + b
    ensures if |p| <= |a| then p <= a else p == a + p[|a|..] && p[|a|..] <= b
  {
    if |p| > |a| {
      assert p[..|a|] == a && p[|a|..] == (a + b)[|a|..|p|];
    }
  }

  lemma WaitingIsShort(w: World, h: Half)
    requires Inv(w) && h in w.facts.halves
    ensures |Waiting(w, h)| <= 6
  {
    var n, c := w.facts.halves[h].target, w.content;
    assert |At(c, NetHand(n))| <= 1 && |At(c, Upstream(n))| <= 5;
    FewFrames(At(c, NetHand(n)), h, {Payload});
    FewFrames(At(c, Upstream(n)), h, {Payload});
    FlowOfCons(c, [NetHand(n), Upstream(n)], h, {Payload});
    FlowOfCons(c, [Upstream(n)], h, {Payload});
    assert [NetHand(n), Upstream(n)][1..] == [Upstream(n)];
    hide Inv, Frames, At;
  }

  // ---------------------------------------------------------------- bounds

  /**
   No queue and no hand ever holds more than its bound: 5 between the clients, the network and the
   forwarders, 10 per connection, socket and client, 1 in hand. There is room exactly below it.
   */
  lemma QueuesStayBounded(w: World, p: Place)
    requires Reachable(w)
    ensures p.UnixQueue? || p.Upstream? ==> |At(w.content, p)| <= 5 && (Room(w.content, p) <==> |At(w.content, p)| < 5)
    ensures p.Sink? || p.SockQueue? || p.ClientQueue? ==>
              |At(w.content, p)| <= 10 && (Room(w.content, p) <==> |At(w.content, p)| < 10)
    ensures p.ClientHand? || p.UnixHand? || p.WriteHand? || p.ReadHand? || p.SockHand? || p.NetHand? || p.Chosen? ==>
              |At(w.content, p)| <= 1 && (Room(w.content, p) <==> |At(w.content, p)| < 1)
  {
    ReachableInv(w);
    assert Bounded(w.content);
    hide Reachable, Inv;
    BoundsOf(w.content, p);
    hide Bounded, At, Room;
  }

  lemma BoundsOf(c: Content, p: Place)
    requires Bounded(c)
    ensures match Capacity(p)
            case Some(n) => |At(c, p)| <= n && (Room(c, p) <==> |At(c, p)| < n)
            case None => true
  {
  }
}
