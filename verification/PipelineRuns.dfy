/** Each step of the pipeline keeps the invariant, so every run does. */
module PipelineRuns {
  import opened Bytes
  import opened FrameCodec
  import opened FrameStream
  import opened Merging
  import opened Places
  import opened Pipeline
  import opened PipelineSafety

  // ---------------------------------------------------------------- the kinds of change

  /** Nothing on any link has changed. */
  ghost predicate SameLinks(c: Content, c': Content) {
    forall p: Place :: OnLinkPlace(p) ==> At(c', p) == At(c, p)
  }

  /** A step that touches no link and keeps the content sound. */
  lemma QuietChange(w: World, c': Content)
    requires Inv(w) && Bounded(c') && SameLinks(w.content, c') && Sound(w.facts, c')
    ensures Inv(w.(content := c'))
  {
    assert forall h :: StreamOf(w.(content := c'), h) == StreamOf(w, h);
    hide Sound, Linked, Bounded, LinkOk, InStep, StreamOf;
    forall h
      ensures LinkOk(c', h) && InStep(w.(content := c'), h)
    {
      assert SameLink(w.content, c', h);
      OtherLinkStaysOk(w, w.(content := c'), h);
    }
  }

  lemma BoundedShift(c: Content, a: Place, b: Place, t: Token)
    requires Bounded(c) && a != b && At(c, a) != [] && Room(c, b)
    ensures Bounded(Shift(c, a, b, t))
  {
  }

  /** What `t` becomes may go from `a` on to `b`: it stays good, and a frame on a connection stays on its ways. */
  ghost predicate Onward(facts: Facts, a: Place, b: Place, t: Token, t': Token) {
    && Good(facts, b, t')
    && FrameOf(t') == FrameOf(t)
    && (FrameOf(t').Some? ==>
          t'.via == t.via && t'.via in facts.halves && OnTheWay(facts, t'.via, KindOf(FrameOf(t').value), a, b))
  }

  /** Off the links, and not where the kinds part. */
  predicate Plain(p: Place) {
    !OnLinkPlace(p) && !p.Split?
  }

  /** One token goes from place to place. */
  lemma MoveKeepsInv(w: World, a: Place, b: Place, t: Token)
    requires Inv(w) && a != b && At(w.content, a) != [] && Room(w.content, b) && Plain(a) && Plain(b)
    requires Good(w.facts, a, At(w.content, a)[0]) ==> Onward(w.facts, a, b, At(w.content, a)[0], t)
    ensures Inv(w.(content := Shift(w.content, a, b, t)))
  {
    hide Good, OnTheWay, FrameOf, KindOf, Bounded, LinksOk;
    BoundedShift(w.content, a, b, t);
    ProvenanceOfPop(w.facts, w.content, a);
    SoundShift(w.facts, w.content, a, b, t);
    ShiftElsewhere(w.content, a, b, t);
    hide Shift, At;
    QuietChange(w, Shift(w.content, a, b, t));
  }

  lemma PopKeepsInv(w: World, p: Place)
    requires Inv(w) && At(w.content, p) != [] && Plain(p)
    requires Good(w.facts, p, At(w.content, p)[0]) ==> FrameOf(At(w.content, p)[0]).None?
    ensures Inv(w.(content := Pop(w.content, p)))
  {
    hide Good;
    ProvenanceOfPop(w.facts, w.content, p);
    SoundPop(w.facts, w.content, p);
    QuietChange(w, Pop(w.content, p));
  }

  lemma PushKeepsInv(w: World, p: Place, t: Token)
    requires Inv(w) && Room(w.content, p) && Plain(p) && FrameOf(t).None? && Good(w.facts, p, t)
    ensures Inv(w.(content := Push(w.content, p, t)))
  {
    hide Good;
    SoundPush(w.facts, w.content, p, t);
    QuietChange(w, Push(w.content, p, t));
  }

  // ---------------------------------------------------------------- changes on a link

  /** A change on the link of one direction only. */
  ghost predicate OnlyLink(c: Content, c': Content, h: Half) {
    forall p: Place :: !(OnLinkPlace(p) && p.half == h) ==> At(c', p) == At(c, p)
  }

  /** A step on one link keeps everything else. */
  lemma LinkChange(w: World, c': Content, h: Half, streams: map<Half, Stream>)
    requires Inv(w) && Bounded(c') && OnlyLink(w.content, c', h) && Provenance(w.facts, c')
    requires forall g | g != h :: StreamOf(w.(streams := streams), g) == StreamOf(w, g)
    requires LinkOk(c', h) && InStep(w.(content := c', streams := streams), h)
    ensures Inv(w.(content := c', streams := streams))
  {
    var w' := w.(content := c', streams := streams);
    assert forall g | g != h :: StreamOf(w', g) == StreamOf(w, g);
    assert TableOk(w');
    hide Provenance, Flows, Linked, Bounded, LinkOk, InStep, TableOk;
    hide OnlyLink, SamePastReaders, StreamOf, At, DecodedOn;
    OnlyLinkIsSmall(w.content, c', h);
    LinkChangeKeepsFlows(w.facts, w.content, c');
    OtherLinksStayOk(w, w', h);
  }

  lemma OtherLinksStayOk(w: World, w': World, h: Half)
    requires LinksOk(w) && w'.facts == w.facts && (forall g | g != h :: SameLink(w.content, w'.content, g))
    requires forall g | g != h :: StreamOf(w', g) == StreamOf(w, g)
    requires LinkOk(w'.content, h) && InStep(w', h)
    ensures LinksOk(w')
  {
    hide LinkOk, InStep, SameLink, StreamOf, DecodedOn;
    forall g
      ensures LinkOk(w'.content, g) && InStep(w', g)
    {
      if g != h {
        assert LinkOk(w.content, g) && InStep(w, g);
        OtherLinkStaysOk(w, w', g);
      }
    }
  }

  lemma OnlyLinkIsSmall(c: Content, c': Content, h: Half)
    requires OnlyLink(c, c', h)
    ensures SamePastReaders(c, c') && forall g :: g != h ==> SameLink(c, c', g)
  {
    hide At;
  }

  ghost predicate SameLink(c: Content, c': Content, h: Half) {
    forall p: Place :: OnLinkPlace(p) && p.half == h ==> At(c', p) == At(c, p)
  }

  lemma OtherLinkStaysOk(w: World, w': World, g: Half)
    requires LinkOk(w.content, g) && InStep(w, g) && SameLink(w.content, w'.content, g)
    requires StreamOf(w', g) == StreamOf(w, g) && DecodedOn(w'.facts, g) == DecodedOn(w.facts, g)
    ensures LinkOk(w'.content, g) && InStep(w', g)
  {
    var c, c' := w.content, w'.content;
    assert At(c', Entered(g)) == At(c, Entered(g)) && At(c', Sink(g)) == At(c, Sink(g))
           && At(c', WriteHand(g)) == At(c, WriteHand(g)) && At(c', Wire(g)) == At(c, Wire(g))
           && At(c', Lost(g)) == At(c, Lost(g)) && At(c', Passed(g)) == At(c, Passed(g));
    hide At, SameLink, EncodeAll, Carried, DecodedOn, StreamOf;
  }

  lemma ProvenanceOfShift(facts: Facts, c: Content, a: Place, b: Place)
    requires Provenance(facts, c) && At(c, a) != []
    requires Good(facts, a, At(c, a)[0]) ==> Good(facts, b, At(c, a)[0])
    ensures Provenance(facts, Shift(c, a, b, At(c, a)[0])) && Good(facts, a, At(c, a)[0])
  {
    hide Good, Provenance;
    ProvenanceOfPop(facts, c, a);
    ProvenanceOfPush(facts, Pop(c, a), b, At(c, a)[0]);
  }

  lemma ShiftOnLink(c: Content, a: Place, b: Place, h: Half)
    requires At(c, a) != [] && OnLinkPlace(a) && OnLinkPlace(b) && a.half == h && b.half == h
    ensures OnlyLink(c, Shift(c, a, b, At(c, a)[0]), h)
  {
    ShiftElsewhere(c, a, b, At(c, a)[0]);
  }

  /** Behind the wire nothing changes when what is unwritten stays as it was. */
  lemma UnwrittenMoves(c: Content, c': Content, h: Half)
    requires LinkOk(c, h) && Unwritten(c', h) == Unwritten(c, h) && At(c', Entered(h)) == At(c, Entered(h))
    requires At(c', Passed(h)) == At(c, Passed(h))
    requires At(c', Wire(h)) == At(c, Wire(h)) && At(c', Lost(h)) == At(c, Lost(h))
    ensures LinkOk(c', h)
  {
  }

  /** The oldest unwritten token is written: it is under way, or lost. */
  lemma OneMoreWritten(c: Content, c': Content, h: Half, t: Token)
    requires LinkOk(c, h) && Unwritten(c, h) == [t] + Unwritten(c', h) && At(c', Entered(h)) == At(c, Entered(h))
    requires At(c', Passed(h)) == At(c, Passed(h))
    requires (At(c', Wire(h)) == At(c, Wire(h)) + [t] && At(c', Lost(h)) == At(c, Lost(h)))
             || (At(c', Wire(h)) == At(c, Wire(h)) && At(c', Lost(h)) == At(c, Lost(h)) + [t])
    ensures LinkOk(c', h)
  {
    assert Written(c', h) == Written(c, h) + [t];
    MergedAppend(Written(c, h), At(c, Passed(h)) + At(c, Wire(h)), At(c, Lost(h)), t);
    Associate(At(c, Passed(h)), At(c, Wire(h)), [t]);
    hide At, Unwritten;
    assert At(c, Entered(h)) == Written(c, h) + ([t] + Unwritten(c', h));
  }

  lemma TakeSinkKeepsInv(w: World, h: Half)
    requires Inv(w) && DoTakeSink(w, h).Some?
    ensures Inv(DoTakeSink(w, h).value)
  {
    var t, c := At(w.content, Sink(h))[0], w.content;
    var c' := Shift(c, Sink(h), WriteHand(h), t);
    BoundedShift(c, Sink(h), WriteHand(h), t);
    ProvenanceOfShift(w.facts, c, Sink(h), WriteHand(h));
    assert LinkOk(c, h) && InStep(w, h);
    assert At(c', WriteHand(h)) == At(c, WriteHand(h)) + [t] && [t] + At(c', Sink(h)) == At(c, Sink(h));
    Associate(At(c, WriteHand(h)), [t], At(c', Sink(h)));
    SameRest(w, c', w.streams, h);
    UnwrittenMoves(c, c', h);
    ShiftOnLink(c, Sink(h), WriteHand(h), h);
    hide Provenance, Shift, LinkOk, InStep, Inv, Bounded, At, OnlyLink;
    LinkChange(w, c', h, w.streams);
  }

  lemma SameRest(w: World, c': Content, streams: map<Half, Stream>, h: Half)
    requires InStep(w, h) && StreamOf(w.(streams := streams), h) == StreamOf(w, h)
    requires At(c', Passed(h)) == At(w.content, Passed(h)) && At(c', Wire(h)) == At(w.content, Wire(h))
    ensures InStep(w.(content := c', streams := streams), h)
  {
  }

  lemma WriteKeepsInv(w: World, h: Half)
    requires Inv(w) && DoWriteFrame(w, h).Some?
    ensures Inv(DoWriteFrame(w, h).value)
  {
    var t, c, w' := At(w.content, WriteHand(h))[0], w.content, DoWriteFrame(w, h).value;
    BoundedShift(c, WriteHand(h), Wire(h), t);
    ProvenanceOfShift(w.facts, c, WriteHand(h), Wire(h));
    assert LinkOk(c, h) && InStep(w, h);
    StepOfWrite(w, h);
    LinkOfWriteHand(c, h, Wire(h));
    ShiftOnLink(c, WriteHand(h), Wire(h), h);
    hide Provenance, InStep, Inv, Bounded, Encoding, LinkOk, OnlyLink, At, Shift;
    LinkChange(w, w'.content, h, w'.streams);
  }

  /** The frame in the write task's hand is written, and is under way or lost. */
  lemma LinkOfWriteHand(c: Content, h: Half, b: Place)
    requires LinkOk(c, h) && At(c, WriteHand(h)) != [] && (b == Wire(h) || b == Lost(h))
    ensures LinkOk(Shift(c, WriteHand(h), b, At(c, WriteHand(h))[0]), h)
  {
    var t := At(c, WriteHand(h))[0];
    var c' := Shift(c, WriteHand(h), b, t);
    assert [t] + At(c', WriteHand(h)) == At(c, WriteHand(h)) && At(c', b) == At(c, b) + [t];
    ShiftElsewhere(c, WriteHand(h), b, t);
    Associate([t], At(c', WriteHand(h)), At(c, Sink(h)));
    assert At(c', Sink(h)) == At(c, Sink(h));
    assert At(c', Entered(h)) == At(c, Entered(h)) && At(c', Passed(h)) == At(c, Passed(h));
    hide Shift, At, LinkOk;
    assert Unwritten(c, h) == [t] + Unwritten(c', h);
    OneMoreWritten(c, c', h, t);
  }

  lemma StepOfWrite(w: World, h: Half)
    requires DoWriteFrame(w, h).Some? && InStep(w, h)
    ensures InStep(DoWriteFrame(w, h).value, h)
  {
    var t, w' := At(w.content, WriteHand(h))[0], DoWriteFrame(w, h).value;
    var passed, wire := At(w.content, Passed(h)), At(w.content, Wire(h));
    assert At(w'.content, Passed(h)) == passed && At(w'.content, Wire(h)) == wire + [t];
    assert StreamOf(w', h) == StreamOf(w, h).(unread := StreamOf(w, h).unread + Encoding(t.frame));
    hide Encoding, EncodeAll, Carried, At, StreamOf, DoWriteFrame, Whole;
    Associate(passed, wire, [t]);
    CarriedAppend(passed + wire, t);
    EncodeAllAppend(OnWire(w.content, h), t.frame);
    Associate(StreamOf(w, h).buffer, StreamOf(w, h).unread, Encoding(t.frame));
    Associate(EncodeAll(DecodedOn(w.facts, h)), StreamOf(w, h).buffer + StreamOf(w, h).unread, Encoding(t.frame));
  }

  lemma CarriedAppend(ts: seq<Token>, t: Token)
    requires t.Framed?
    ensures Carried(ts + [t]) == Carried(ts) + [t.frame]
  {
    CarriedOfConcat(ts, [t]);
    assert [t][1..] == [];
  }

  lemma LoseKeepsInv(w: World, h: Half)
    requires Inv(w) && DoLose(w, h).Some?
    ensures Inv(DoLose(w, h).value)
  {
    var t, c, w' := At(w.content, WriteHand(h))[0], w.content, DoLose(w, h).value;
    BoundedShift(c, WriteHand(h), Lost(h), t);
    ProvenanceOfShift(w.facts, c, WriteHand(h), Lost(h));
    assert LinkOk(c, h) && InStep(w, h);
    SameRest(w, w'.content, w.streams, h);
    LinkOfWriteHand(c, h, Lost(h));
    ShiftOnLink(c, WriteHand(h), Lost(h), h);
    hide Provenance, InStep, Inv, Bounded, LinkOk, OnlyLink, At, Shift;
    LinkChange(w, w'.content, h, w.streams);
  }

  lemma CarryKeepsInv(w: World, h: Half, count: nat)
    requires Inv(w) && DoCarry(w, h, count).Some?
    ensures Inv(DoCarry(w, h, count).value)
  {
    CarryKeepsStep(w, h, count);
    var w' := DoCarry(w, h, count).value;
    assert forall g | g != h :: StreamOf(w', g) == StreamOf(w, g);
    assert w' == w.(content := w.content, streams := w'.streams);
    assert LinkOk(w.content, h) && Provenance(w.facts, w.content);
    hide Inv, Provenance, LinkOk, InStep, DoCarry, StreamOf, At;
    LinkChange(w, w.content, h, w'.streams);
  }

  /** The bytes ahead of the reader stay the same. */
  lemma CarryKeepsStep(w: World, h: Half, count: nat)
    requires LinksOk(w) && DoCarry(w, h, count).Some?
    ensures InStep(DoCarry(w, h, count).value, h)
  {
    assert InStep(w, h);
    var w' := DoCarry(w, h, count).value;
    var Stream(unread, buffer) := StreamOf(w, h);
    assert StreamOf(w', h) == Stream(unread[count..], buffer + unread[..count]);
    hide LinkOk, EncodeAll, Carried, Whole, NoneCut, DecodedOn, At, StreamOf, DoCarry;
    SameAhead(buffer, unread, count);
    assert OnWire(w'.content, h) == OnWire(w.content, h);
    hide OnWire;
  }

  lemma SameAhead(buffer: seq<u8>, unread: seq<u8>, count: nat)
    requires count <= |unread|
    ensures (buffer + unread[..count]) + unread[count..] == buffer + unread
  {
  }

  /** A frame enters a sink. */
  lemma EnterKeepsInv(w: World, h: Half, frame: Frame)
    requires Inv(w) && h in w.facts.halves && Room(w.content, Sink(h)) && Honest(w.facts, h, frame)
    ensures Inv(w.(content := Enter(w.content, h, frame)))
  {
    var c := w.content;
    var c' := Enter(c, h, frame);
    ProvenanceOfEnter(w.facts, c, h, frame);
    assert LinkOk(c, h) && InStep(w, h);
    LinkOfEnter(c, h, frame);
    EnterElsewhere(c, h, frame);
    SameRest(w, c', w.streams, h);
    hide Provenance, LinkOk, InStep, Inv, Bounded, Enter, At;
    LinkChange(w, c', h, w.streams);
  }

  lemma ProvenanceOfEnter(facts: Facts, c: Content, h: Half, frame: Frame)
    requires Provenance(facts, c) && Bounded(c) && h in facts.halves && Room(c, Sink(h)) && Honest(facts, h, frame)
    ensures Provenance(facts, Enter(c, h, frame)) && Bounded(Enter(c, h, frame))
  {
    var t := Framed(h, frame);
    assert Bounded(Enter(c, h, frame));
    assert Good(facts, Sink(h), t) && Good(facts, Entered(h), t);
    hide Good, Bounded;
    ProvenanceOfPush(facts, c, Sink(h), t);
    ProvenanceOfPush(facts, Push(c, Sink(h), t), Entered(h), t);
  }

  lemma EnterElsewhere(c: Content, h: Half, frame: Frame)
    ensures OnlyLink(c, Enter(c, h, frame), h)
    ensures var c' := Enter(c, h, frame); At(c', Passed(h)) == At(c, Passed(h)) && At(c', Wire(h)) == At(c, Wire(h))
  {
  }

  lemma LinkOfEnter(c: Content, h: Half, frame: Frame)
    requires LinkOk(c, h)
    ensures LinkOk(Enter(c, h, frame), h)
  {
    var c', t := Enter(c, h, frame), Framed(h, frame);
    assert At(c', Sink(h)) == At(c, Sink(h)) + [t] && At(c', WriteHand(h)) == At(c, WriteHand(h));
    assert At(c', Entered(h)) == At(c, Entered(h)) + [t];
    assert At(c', Passed(h)) == At(c, Passed(h));
    assert At(c', Wire(h)) == At(c, Wire(h)) && At(c', Lost(h)) == At(c, Lost(h));
    Associate(At(c, WriteHand(h)), At(c, Sink(h)), [t]);
    hide Enter, At;
    assert Unwritten(c', h) == Unwritten(c, h) + [t];
    assert Written(c', h) == Written(c, h);
  }

  // ---------------------------------------------------------------- reading

  lemma {:induction false} CarriedAll(ts: seq<Token>)
    requires forall t | t in ts :: t.Framed?
    ensures |Carried(ts)| == |ts|
    ensures forall i :: 0 <= i < |ts| ==> Carried(ts)[i] == ts[i].frame
  {
    if ts != [] {
      CarriedAll(ts[1..]);
    }
  }

  /** As long as none was cut, the bytes ahead of the reader encode what is under way. */
  lemma StreamInStep(w: World, h: Half)
    requires InStep(w, h) && NoneCut(w.content, h)
    ensures EncodeAll(Carried(At(w.content, Wire(h)))) == StreamOf(w, h).buffer + StreamOf(w, h).unread
  {
    var passed, wire := At(w.content, Passed(h)), At(w.content, Wire(h));
    hide EncodeAll, Carried, At, StreamOf, NoneCut, Whole;
    CarriedOfConcat(passed, wire);
    EncodeAllOfConcat(Carried(passed), Carried(wire));
    SameTail(EncodeAll(Carried(passed)), EncodeAll(Carried(wire)), StreamOf(w, h).buffer + StreamOf(w, h).unread);
  }

  /**
   As long as none was cut, the next frame the reader decodes is the oldest one under way, unless
   that is too long.
   */
  lemma ReadsTheOldest(w: World, h: Half)
    requires Provenance(w.facts, w.content) && InStep(w, h) && NoneCut(w.content, h)
    requires Parse(StreamOf(w, h).buffer).Got?
    ensures var wire := At(w.content, Wire(h));
            && wire != [] && wire[0].Framed?
            && (Fits(wire[0].frame) ==> wire[0] == Framed(h, Parse(StreamOf(w, h).buffer).frame))
  {
    var wire, buffer, unread := At(w.content, Wire(h)), StreamOf(w, h).buffer, StreamOf(w, h).unread;
    forall t | t in wire
      ensures t.Framed? && t.via == h
    {
      assert Good(w.facts, Wire(h), t);
    }
    hide Provenance, Encoding, Parse, Carried;
    StreamInStep(w, h);
    CarriedAll(wire);
    NextFrameOfStream(Carried(wire), buffer, unread);
    assert wire[0] in wire;
    CarriedFirst(wire);
  }

  lemma CarriedFirst(ts: seq<Token>)
    requires ts != [] && ts[0].Framed?
    ensures Carried(ts) == [ts[0].frame] + Carried(ts[1..])
  {
  }

  /** Reading a frame, as far as the link sees it. */
  lemma LinkOfRead(w: World, h: Half)
    requires LinkOk(w.content, h)
    ensures LinkOk(TakeOff(w.content, h), h)
  {
    var c, c' := w.content, TakeOff(w.content, h);
    if At(c, Wire(h)) != [] {
      var t := At(c, Wire(h))[0];
      assert At(c', Passed(h)) == At(c, Passed(h)) + [t] && At(c, Wire(h)) == [t] + At(c', Wire(h));
      Associate(At(c, Passed(h)), [t], At(c', Wire(h)));
      assert Written(c', h) == Written(c, h);
    }
  }

  lemma {:induction false} WholeOfFitting(frames: seq<Frame>)
    requires AllFit(frames)
    ensures Whole(frames) == frames
  {
    if frames != [] {
      WholeOfFitting(frames[1..]);
    }
  }

  /** Nothing after the first frame too long matters. */
  lemma {:induction false} WholeStops(frames: seq<Frame>, more: seq<Frame>)
    requires !AllFit(frames)
    ensures Whole(frames + more) == Whole(frames)
  {
    if Fits(frames[0]) {
      assert frames == [frames[0]] + frames[1..] && (frames + more)[1..] == frames[1..] + more;
      WholeStops(frames[1..], more);
    }
  }

  lemma {:induction false} WholeAppend(frames: seq<Frame>, frame: Frame)
    requires AllFit(frames)
    ensures Whole(frames + [frame]) == if Fits(frame) then frames + [frame] else frames
  {
    if frames == [] {
      assert [frame][1..] == [];
    } else {
      assert (frames + [frame])[1..] == frames[1..] + [frame];
      WholeAppend(frames[1..], frame);
    }
  }

  lemma BytesOfRead(w: World, h: Half)
    requires BytesOk(w, h) && DoReadFrame(w, h).Some?
    ensures BytesOk(DoReadFrame(w, h).value, h)
  {
    var w', frame := DoReadFrame(w, h).value, Parse(StreamOf(w, h).buffer).frame;
    var rest, unread := Parse(StreamOf(w, h).buffer).rest, StreamOf(w, h).unread;
    PassedOnRead(w, h);
    assert StreamOf(w', h) == Stream(unread, rest);
    ParsedBytesAreTheEncoding(StreamOf(w, h).buffer);
    assert At(w'.content, Passed(h)) + At(w'.content, Wire(h)) == At(w.content, Passed(h)) + At(w.content, Wire(h));
    assert DecodedOn(w'.facts, h) == DecodedOn(w.facts, h) + [frame];
    hide DoReadFrame, Parse, Encoding, EncodeAll, Carried, StreamOf, At, DecodedOn;
    EncodeAllAppend(DecodedOn(w.facts, h), frame);
    Associate(Encoding(frame), rest, unread);
    Associate(EncodeAll(DecodedOn(w.facts, h)), Encoding(frame), rest + unread);
  }

  lemma {:induction false} CarriedFits(ts: seq<Token>)
    ensures AllFit(Carried(ts)) <==> forall t | t in ts :: t.Framed? ==> Fits(t.frame)
  {
    if ts != [] {
      CarriedFits(ts[1..]);
      assert forall t :: t in ts <==> t == ts[0] || t in ts[1..];
      assert forall f :: f in Carried(ts) <==> (ts[0].Framed? && f == ts[0].frame) || f in Carried(ts[1..]);
    }
  }

  lemma StepOfRead(w: World, h: Half)
    requires Provenance(w.facts, w.content) && InStep(w, h) && DoReadFrame(w, h).Some?
    ensures InStep(DoReadFrame(w, h).value, h)
  {
    var w', c := DoReadFrame(w, h).value, w.content;
    var passed, wire := At(c, Passed(h)), At(c, Wire(h));
    BytesOfRead(w, h);
    PassedOnRead(w, h);
    assert DecodedOn(w'.facts, h) == DecodedOn(w.facts, h) + [Parse(StreamOf(w, h).buffer).frame];
    CarriedFits(passed);
    CarriedFits(At(w'.content, Passed(h)));
    hide Parse, Carried, DoReadFrame, BytesOk, Fits, At, Whole, Provenance;
    if NoneCut(c, h) {
      ReadsTheOldest(w, h);
      CarriedAppend(passed, wire[0]);
      WholeAppend(Carried(passed), wire[0].frame);
      hide NoneCut;
    } else {
      CarriedOfConcat(passed, if wire == [] then [] else [wire[0]]);
      WholeStops(Carried(passed), Carried(if wire == [] then [] else [wire[0]]));
    }
  }

  lemma PassedOnRead(w: World, h: Half)
    requires DoReadFrame(w, h).Some?
    ensures var c, c' := w.content, DoReadFrame(w, h).value.content;
            var wire := At(c, Wire(h));
            && At(c', Passed(h)) == At(c, Passed(h)) + (if wire == [] then [] else [wire[0]])
            && At(c', Wire(h)) == (if wire == [] then [] else wire[1..])
  {
  }

  // ---------------------------------------------------------------- the facts grow

  ghost predicate Grown(f: Facts, g: Facts) {
    && f.halves.Keys <= g.halves.Keys && (forall h | h in f.halves :: g.halves[h] == f.halves[h])
    && f.clients.Keys <= g.clients.Keys && (forall c | c in f.clients :: g.clients[c] == f.clients[c])
    && (forall c :: AcceptedFrom(f, c) <= AcceptedFrom(g, c))
    && forall h :: DecodedOn(f, h) <= DecodedOn(g, h)
  }

  lemma SentFromGrows(f: Facts, g: Facts, n: Host, packet: Packet)
    requires Grown(f, g) && SentFrom(f, n, packet)
    ensures SentFrom(g, n, packet)
  {
    var c :| packet in AcceptedFrom(f, c) && c in f.clients && f.clients[c] == ClientInfo(n, packet.srcPort);
    assert packet in AcceptedFrom(g, c) && c in g.clients;
  }

  lemma HonestGrows(f: Facts, g: Facts, h: Half, frame: Frame)
    requires Grown(f, g) && Honest(f, h, frame)
    ensures Honest(g, h, frame)
  {
    if KindOf(frame) == Payload {
      SentFromGrows(f, g, f.halves[h].origin,
                    Packet(f.halves[h].target, frame.srcPort, frame.dstPort, frame.data));
    }
  }

  lemma DecodedGrows(f: Facts, g: Facts, h: Half, frame: Frame)
    requires Grown(f, g) && Decoded(f, h, frame)
    ensures Decoded(g, h, frame) && g.halves[h] == f.halves[h]
  {
  }

  lemma GoodGrows(f: Facts, g: Facts, p: Place, t: Token)
    requires Grown(f, g) && Good(f, p, t)
    ensures Good(g, p, t)
  {
    match t
    case Outgoing(_, packet) =>
      SentFromGrows(f, g, if p.ClientHand? then f.clients[p.client].host else p.host, packet);
    case Settled(_, _, _) =>
    case Framed(h, frame) =>
      if p.ReadHand? {
        DecodedGrows(f, g, h, frame);
      } else if OnLinkPlace(p) {
        HonestGrows(f, g, h, frame);
      }
    case Incoming(h, packet) => DecodedGrows(f, g, h, Data(packet.srcPort, packet.dstPort, packet.data));
    case Resolved(h, _, packet) => DecodedGrows(f, g, h, Data(packet.srcPort, packet.dstPort, packet.data));
    case Local(h, _, port, data) => DecodedGrows(f, g, h, Data(port, f.clients[p.client].port, data));
  }

  lemma ProvenanceGrows(f: Facts, g: Facts, c: Content)
    requires Grown(f, g) && Provenance(f, c)
    ensures Provenance(g, c)
  {
    hide Good, Grown;
    forall p, t | p in c && t in c[p]
      ensures Good(g, p, t)
    {
      GoodGrows(f, g, p, t);
    }
  }

  /** More clients and more sent packets, the same connections. */
  lemma FactsKeepInv(w: World, g: Facts)
    requires Inv(w) && Grown(w.facts, g) && g.halves == w.facts.halves && g.decoded == w.facts.decoded
    ensures Inv(w.(facts := g))
  {
    var w' := w.(facts := g);
    assert TableOk(w') && Linked(g);
    assert forall h :: StreamOf(w', h) == StreamOf(w, h) && DecodedOn(g, h) == DecodedOn(w.facts, h);
    ProvenanceGrows(w.facts, g, w.content);
    hide Stages, Flow, KindsOn, OfKinds, Frames, Provenance, Grown;
    hide Linked, Bounded, LinkOk, InStep, StreamOf, DecodedOn, TableOk, At;
    forall h, r | h in g.halves
      ensures FlowOk(g, w.content, h, r)
    {
      assert FlowOk(w.facts, w.content, h, r);
      SameWay(w.facts, g, h, r);
    }
    forall h
      ensures LinkOk(w'.content, h) && InStep(w', h)
    {
      OtherLinkStaysOk(w, w', h);
    }
  }

  lemma SameWay(f: Facts, g: Facts, h: Half, r: Route)
    requires h in f.halves && h in g.halves && f.halves[h] == g.halves[h]
    ensures Stages(g, h, r) == Stages(f, h, r)
  {
  }

  lemma {:induction false} NoFramesOfStrangers(ts: seq<Token>, h: Half, ks: set<Kind>)
    requires forall t | t in ts :: FrameOf(t).Some? ==> t.via != h
    ensures Frames(ts, h, ks) == []
  {
    if ts != [] {
      NoFramesOfStrangers(ts[1..], h, ks);
    }
  }

  lemma {:induction false} EmptyFlow(c: Content, path: seq<Place>, h: Half, ks: set<Kind>)
    requires forall p | p in path :: Frames(At(c, p), h, ks) == []
    ensures Flow(c, path, h, ks) == []
  {
    if path != [] {
      EmptyFlow(c, path[1..], h, ks);
    }
  }

  /** Nothing has come over a connection that is only now opened. */
  lemma FreshHalfIsEmpty(w: World, g: Facts, h: Half, r: Route)
    requires Provenance(w.facts, w.content) && Linked(w.facts) && h !in w.facts.halves && h in g.halves
    requires g.decoded == w.facts.decoded
    ensures FlowOk(g, w.content, h, r)
  {
    var c := w.content;
    assert DecodedOn(g, h) == [];
    hide Linked;
    forall p, ks
      ensures Frames(At(c, p), h, ks) == []
    {
      NoTokensOfStranger(w, h, p);
      hide Provenance, At;
      NoFramesOfStrangers(At(c, p), h, ks);
    }
    hide Stages, Frames, KindsOn;
    EmptyFlow(c, Stages(g, h, r), h, KindsOn(r));
  }

  lemma NoTokensOfStranger(w: World, h: Half, p: Place)
    requires Provenance(w.facts, w.content) && h !in w.facts.halves
    ensures forall t | t in At(w.content, p) :: FrameOf(t).Some? ==> t.via != h
  {
    forall t | t in At(w.content, p) && FrameOf(t).Some?
      ensures t.via != h
    {
      assert Good(w.facts, p, t);
    }
  }

  lemma OpenKeepsInv(w: World, h: Half, back: Half, one: Host, other: Host, oneSock: nat, otherSock: nat)
    requires Inv(w) && DoOpen(w, h, back, one, other, oneSock, otherSock).Some?
    ensures Inv(DoOpen(w, h, back, one, other, oneSock, otherSock).value)
  {
    var w' := DoOpen(w, h, back, one, other, oneSock, otherSock).value;
    assert Grown(w.facts, w'.facts) && Linked(w'.facts) && TableOk(w');
    assert forall g :: StreamOf(w', g) == StreamOf(w, g) && DecodedOn(w'.facts, g) == DecodedOn(w.facts, g);
    ProvenanceGrows(w.facts, w'.facts, w.content);
    hide Grown, Linked, Provenance, Bounded, LinkOk, InStep, StreamOf, DecodedOn, TableOk, At;
    OpenKeepsFlows(w, w'.facts);
    forall g
      ensures LinkOk(w'.content, g) && InStep(w', g)
    {
      OtherLinkStaysOk(w, w', g);
    }
  }

  lemma OpenKeepsFlows(w: World, g: Facts)
    requires Sound(w.facts, w.content) && Linked(w.facts) && Grown(w.facts, g) && g.decoded == w.facts.decoded
    ensures Flows(g, w.content)
  {
    assert forall h :: DecodedOn(g, h) == DecodedOn(w.facts, h);
    assert forall h | h in w.facts.halves :: h in g.halves && g.halves[h] == w.facts.halves[h];
    hide Stages, Flow, Frames, Provenance, Grown, Linked, DecodedOn, KindsOn, OfKinds, At;
    forall h, r | h in g.halves
      ensures FlowOk(g, w.content, h, r)
    {
      if h in w.facts.halves {
        assert FlowOk(w.facts, w.content, h, r);
        SameWay(w.facts, g, h, r);
      } else {
        FreshHalfIsEmpty(w, g, h, r);
      }
    }
  }

  lemma BindKeepsInv(w: World, c: Client, host: Host, port: u16)
    requires Inv(w) && DoBind(w, c, host, port).Some?
    ensures Inv(DoBind(w, c, host, port).value)
  {
    var w' := DoBind(w, c, host, port).value;
    assert TableOk(w');
    FactsKeepInv(w, w'.facts);
    hide Inv, TableOk;
    TableKeepsInv(w.(facts := w'.facts), w');
  }

  /** The invariant asks of the table only that its entries are clients bound there. */
  lemma TableKeepsInv(w: World, w': World)
    requires Inv(w) && w' == w.(table := w'.table) && TableOk(w')
    ensures Inv(w')
  {
    hide Linked, Bounded, Sound, LinkOk, TableOk;
    forall h
      ensures LinkOk(w'.content, h) && InStep(w', h)
    {
      assert LinkOk(w.content, h) && InStep(w, h);
    }
  }

  lemma AcceptKeepsInv(w: World, c: Client, to: Host, toPort: u16, data: seq<u8>)
    requires Inv(w) && DoAccept(w, c, to, toPort, data).Some?
    ensures Inv(DoAccept(w, c, to, toPort, data).value)
  {
    var w' := DoAccept(w, c, to, toPort, data).value;
    var packet := Packet(to, w.facts.clients[c].port, toPort, data);
    FactsKeepInv(w, w'.facts);
    assert packet in AcceptedFrom(w'.facts, c);
    assert w'.facts.clients[c] == ClientInfo(w.facts.clients[c].host, packet.srcPort);
    hide Inv;
    PushKeepsInv(w.(facts := w'.facts), ClientHand(c), Outgoing(c, packet));
  }

  // ---------------------------------------------------------------- reading, as a whole

  lemma DecodedFrameIsKnown(f: Facts, h: Half, frame: Frame)
    requires h in f.halves && Linked(f) && Fits(frame)
    ensures var g := WithDecoded(f, h, frame); Grown(f, g) && Linked(g) && Decoded(g, h, frame)
    ensures forall g :: g != h ==> DecodedOn(WithDecoded(f, h, frame), g) == DecodedOn(f, g)
  {
  }

  lemma ReadKeepsSound(f: Facts, c: Content, h: Half, frame: Frame)
    requires Sound(f, c) && h in f.halves && Linked(f) && Fits(frame)
    ensures Sound(WithDecoded(f, h, frame), Push(c, ReadHand(h), Framed(h, frame)))
  {
    var g := WithDecoded(f, h, frame);
    DecodedFrameIsKnown(f, h, frame);
    assert Good(g, ReadHand(h), Framed(h, frame));
    ProvenanceGrows(f, g, c);
    assert g.halves == f.halves;
    hide Good, Grown, Linked, Provenance, FlowOk, Push, WithDecoded;
    ProvenanceOfPush(g, c, ReadHand(h), Framed(h, frame));
    forall h0, r | h0 in g.halves
      ensures FlowOk(g, Push(c, ReadHand(h), Framed(h, frame)), h0, r)
    {
      ReadKeepsFlow(f, h, frame, c, h0, r);
    }
  }

  lemma TakeOffKeepsSound(w: World, h: Half)
    requires Inv(w) && Room(w.content, ReadHand(h))
    ensures Sound(w.facts, TakeOff(w.content, h)) && OnlyLink(w.content, TakeOff(w.content, h), h)
  {
    var c := w.content;
    if At(c, Wire(h)) != [] {
      ProvenanceOfShift(w.facts, c, Wire(h), Passed(h));
      ShiftElsewhere(c, Wire(h), Passed(h), At(c, Wire(h))[0]);
      assert SamePastReaders(c, TakeOff(c, h));
      hide Provenance, Flows;
      LinkChangeKeepsFlows(w.facts, c, TakeOff(c, h));
    }
  }

  lemma ReadKeepsInv(w: World, h: Half)
    requires Inv(w) && DoReadFrame(w, h).Some?
    ensures Inv(DoReadFrame(w, h).value)
  {
    var w', frame := DoReadFrame(w, h).value, Parse(StreamOf(w, h).buffer).frame;
    var mid := TakeOff(w.content, h);
    TakeOffKeepsSound(w, h);
    ReadKeepsLinks(w, h);
    ParsedBytesAreTheEncoding(StreamOf(w, h).buffer);
    DecodedFrameIsKnown(w.facts, h, frame);
    BoundedAfterRead(w, h);
    assert TableOk(w');
    hide Parse, Bounded, Sound, Linked, LinksOk, TakeOff, At, Push, WithDecoded, TableOk, OnlyLink, Grown;
    ReadKeepsSound(w.facts, mid, h, frame);
  }

  lemma ReadKeepsLinks(w: World, h: Half)
    requires LinksOk(w) && Provenance(w.facts, w.content) && DoReadFrame(w, h).Some?
    ensures LinksOk(DoReadFrame(w, h).value)
  {
    var w', mid := DoReadFrame(w, h).value, TakeOff(w.content, h);
    assert LinkOk(w.content, h) && InStep(w, h);
    StepOfRead(w, h);
    LinkOfRead(w, h);
    ReadElsewhere(w, h);
    hide Parse, LinkOk, InStep, StreamOf, TakeOff, At, DecodedOn, Provenance, SameLink, DoReadFrame;
    SameLinkOk(mid, w'.content, h);
    forall g
      ensures LinkOk(w'.content, g) && InStep(w', g)
    {
      if g != h {
        ReadsOnlyOne(w.content, w'.content, h, g);
        OtherLinkStaysOk(w, w', g);
      }
    }
  }

  lemma ReadElsewhere(w: World, h: Half)
    requires DoReadFrame(w, h).Some?
    ensures var w' := DoReadFrame(w, h).value;
            && OnlyReads(w.content, w'.content, h) && SameLink(TakeOff(w.content, h), w'.content, h)
            && forall g | g != h :: StreamOf(w', g) == StreamOf(w, g) && DecodedOn(w'.facts, g) == DecodedOn(w.facts, g)
  {
    hide Parse;
  }

  ghost predicate OnlyReads(c: Content, c': Content, h: Half) {
    forall p: Place :: !(OnLinkPlace(p) && p.half == h) && p != ReadHand(h) ==> At(c', p) == At(c, p)
  }

  lemma ReadsOnlyOne(c: Content, c': Content, h: Half, g: Half)
    requires OnlyReads(c, c', h) && g != h
    ensures SameLink(c, c', g)
  {
  }

  lemma SameLinkOk(c: Content, c': Content, h: Half)
    requires LinkOk(c, h) && SameLink(c, c', h)
    ensures LinkOk(c', h)
  {
    assert At(c', Entered(h)) == At(c, Entered(h)) && At(c', Sink(h)) == At(c, Sink(h))
           && At(c', WriteHand(h)) == At(c, WriteHand(h)) && At(c', Wire(h)) == At(c, Wire(h))
           && At(c', Lost(h)) == At(c, Lost(h)) && At(c', Passed(h)) == At(c, Passed(h));
    hide At, SameLink;
  }

  lemma BoundedAfterRead(w: World, h: Half)
    requires Bounded(w.content) && DoReadFrame(w, h).Some?
    ensures Bounded(DoReadFrame(w, h).value.content)
  {
    hide Parse;
  }

  // ---------------------------------------------------------------- moves between tasks

  lemma SettleKeepsInv(w: World, n: Host, over: Option<Half>)
    requires Inv(w) && At(w.content, UnixHand(n)) != [] && At(w.content, UnixHand(n))[0].Outgoing?
    ensures Inv(w.(content := Settle(w.content, n, over)))
  {
    var Outgoing(client, packet) := At(w.content, UnixHand(n))[0];
    hide Inv, OnTheWay, SentFrom, Shift;
    MoveKeepsInv(w, UnixHand(n), Forwarded(n), Settled(client, packet, over));
  }

  lemma SendFrameKeepsInv(w: World, n: Host, h: Half)
    requires Inv(w) && DoSendFrame(w, n, h).Some?
    ensures Inv(DoSendFrame(w, n, h).value)
  {
    var packet := At(w.content, UnixHand(n))[0].packet;
    SettleKeepsInv(w, n, Some(h));
    ProvenanceOfPop(w.facts, w.content, UnixHand(n));
    assert SentFrom(w.facts, n, packet);
    assert Room(Settle(w.content, n, Some(h)), Sink(h));
    hide Inv, Settle;
    EnterKeepsInv(w.(content := Settle(w.content, n, Some(h))), h, Data(packet.srcPort, packet.dstPort, packet.data));
  }

  lemma BeatOnward(facts: Facts, h: Half, t: Token)
    requires Good(facts, ReadHand(h), t)
    ensures t.frame.Ping? ==> Onward(facts, ReadHand(h), Answered(h), t, t)
    ensures t.frame.Pong? ==> Onward(facts, ReadHand(h), Heard(h), t, t)
  {
    hide OnTheWay;
    BeatWay(facts, h);
  }

  lemma AnswerKeepsInv(w: World, h: Half)
    requires Inv(w) && DoAnswer(w, h).Some?
    ensures Inv(DoAnswer(w, h).value)
  {
    var t := At(w.content, ReadHand(h))[0];
    var back := w.facts.halves[h].back;
    if Good(w.facts, ReadHand(h), t) {
      BeatOnward(w.facts, h, t);
    }
    assert Linked(w.facts);
    hide Inv, Good, Onward, Shift;
    MoveKeepsInv(w, ReadHand(h), Answered(h), t);
    EnterKeepsInv(w.(content := Shift(w.content, ReadHand(h), Answered(h), t)), back, Pong);
  }

  lemma HearKeepsInv(w: World, h: Half)
    requires Inv(w) && DoHear(w, h).Some?
    ensures Inv(DoHear(w, h).value)
  {
    var t := At(w.content, ReadHand(h))[0];
    if Good(w.facts, ReadHand(h), t) {
      BeatOnward(w.facts, h, t);
    }
    hide Inv, Good, Onward, Shift;
    MoveKeepsInv(w, ReadHand(h), Heard(h), t);
  }

  lemma ForwardOnward(facts: Facts, h: Half, t: Token)
    requires Good(facts, ReadHand(h), t) && t.frame.Data?
    ensures Onward(facts, ReadHand(h), SockQueue(SockOf(facts, h)), t, Labelled(facts, h, t.frame))
  {
    hide OnTheWay;
    DataWay(facts, h, KindOf(t.frame));
  }

  lemma ForwardKeepsInv(w: World, h: Half)
    requires Inv(w) && DoForward(w, h).Some?
    ensures Inv(DoForward(w, h).value)
  {
    var t := At(w.content, ReadHand(h))[0];
    if Good(w.facts, ReadHand(h), t) {
      ForwardOnward(w.facts, h, t);
    }
    hide Inv, Good, Onward, Shift, Labelled, SockOf;
    MoveKeepsInv(w, ReadHand(h), SockQueue(SockOf(w.facts, h)), Labelled(w.facts, h, t.frame));
  }

  lemma SockOnward(facts: Facts, s: Sock, t: Token)
    requires Good(facts, SockQueue(s), t)
    ensures Onward(facts, SockQueue(s), SockHand(s), t, t)
  {
    hide OnTheWay;
    DataWay(facts, t.via, KindOf(FrameOf(t).value));
  }

  lemma TakeSockKeepsInv(w: World, s: Sock)
    requires Inv(w) && DoTakeSock(w, s).Some?
    ensures Inv(DoTakeSock(w, s).value)
  {
    var t := At(w.content, SockQueue(s))[0];
    if Good(w.facts, SockQueue(s), t) {
      SockOnward(w.facts, s, t);
    }
    hide Inv, Good, Onward, Shift;
    MoveKeepsInv(w, SockQueue(s), SockHand(s), t);
  }

  /** Where the kinds part. */
  lemma PartKeepsInv(w: World, s: Sock, b: Place)
    requires Inv(w) && At(w.content, SockHand(s)) != [] && At(w.content, SockHand(s))[0].Incoming? && Room(w.content, b)
    requires b == if IsControl(At(w.content, SockHand(s))[0]) then Handled(s) else Upstream(s.host)
    ensures Inv(w.(content := Part(w.content, s, b, At(w.content, SockHand(s))[0])))
  {
    var c, t := w.content, At(w.content, SockHand(s))[0];
    PartIsGood(w.facts, c, s, b);
    PartIsQuiet(c, s, b, t);
    hide Provenance, Flows, Part, Bounded, Parts, LinksOk, Linked, SameLinks;
    PartKeepsFlows(w.facts, c, s, b, t);
    QuietChange(w, Part(c, s, b, t));
  }

  lemma PartIsGood(facts: Facts, c: Content, s: Sock, b: Place)
    requires Provenance(facts, c) && At(c, SockHand(s)) != [] && At(c, SockHand(s))[0].Incoming?
    requires b == if IsControl(At(c, SockHand(s))[0]) then Handled(s) else Upstream(s.host)
    ensures Parts(facts, s, b, At(c, SockHand(s))[0]) && Provenance(facts, Part(c, s, b, At(c, SockHand(s))[0]))
  {
    var t := At(c, SockHand(s))[0];
    ProvenanceOfPop(facts, c, SockHand(s));
    assert Good(facts, Split(s), t) && Good(facts, b, t);
    hide Good, Provenance;
    ProvenanceOfPush(facts, Pop(c, SockHand(s)), Split(s), t);
    ProvenanceOfPush(facts, Shift(c, SockHand(s), Split(s), t), b, t);
  }

  lemma PartIsQuiet(c: Content, s: Sock, b: Place, t: Token)
    requires Bounded(c) && At(c, SockHand(s)) != [] && Room(c, b) && (b.Handled? || b.Upstream?)
    ensures Bounded(Part(c, s, b, t)) && SameLinks(c, Part(c, s, b, t))
  {
  }

  lemma UpstreamOnward(facts: Facts, n: Host, t: Token)
    requires Good(facts, Upstream(n), t)
    ensures Onward(facts, Upstream(n), NetHand(n), t, t)
    ensures Onward(facts, NetHand(n), Tabled(n), t, t)
  {
    hide OnTheWay;
    TableWay(facts, t.via);
  }

  lemma TakeUpKeepsInv(w: World, n: Host)
    requires Inv(w) && DoTakeUp(w, n).Some?
    ensures Inv(DoTakeUp(w, n).value)
  {
    var t := At(w.content, Upstream(n))[0];
    if Good(w.facts, Upstream(n), t) {
      UpstreamOnward(w.facts, n, t);
    }
    hide Inv, Good, Onward, Shift;
    MoveKeepsInv(w, Upstream(n), NetHand(n), t);
  }

  lemma LookupKeepsInv(w: World, n: Host)
    requires Inv(w) && DoLookup(w, n).Some?
    ensures Inv(DoLookup(w, n).value)
  {
    var t := At(w.content, NetHand(n))[0];
    var tabled := w.(content := Shift(w.content, NetHand(n), Tabled(n), t));
    TabledKeepsInv(w, n);
    var key := (n, t.packet.dstPort);
    if key in w.table {
      ChosenIsGood(w, n, t, key);
      assert Room(tabled.content, Chosen(n));
      hide Inv, Good, Onward, Shift, TableOk;
      PushKeepsInv(tabled, Chosen(n), Resolved(t.via, w.table[key], t.packet));
    }
  }

  lemma TabledKeepsInv(w: World, n: Host)
    requires Inv(w) && At(w.content, NetHand(n)) != []
    ensures Inv(w.(content := Shift(w.content, NetHand(n), Tabled(n), At(w.content, NetHand(n))[0])))
  {
    var t := At(w.content, NetHand(n))[0];
    if Good(w.facts, NetHand(n), t) {
      assert Good(w.facts, Upstream(n), t);
      UpstreamOnward(w.facts, n, t);
    }
    hide Inv, Good, Onward;
    MoveKeepsInv(w, NetHand(n), Tabled(n), t);
  }

  lemma ChosenIsGood(w: World, n: Host, t: Token, key: (Host, u16))
    requires Inv(w) && At(w.content, NetHand(n)) != [] && t == At(w.content, NetHand(n))[0] && t.Incoming?
    requires key == (n, t.packet.dstPort) && key in w.table
    ensures Good(w.facts, Chosen(n), Resolved(t.via, w.table[key], t.packet))
  {
    hide CameUp;
    ProvenanceOfPop(w.facts, w.content, NetHand(n));
  }

  lemma DeliverKeepsInv(w: World, n: Host)
    requires Inv(w) && DoDeliver(w, n).Some?
    ensures Inv(DoDeliver(w, n).value)
  {
    var t := At(w.content, Chosen(n))[0];
    var Packet(host, srcPort, _, data) := t.packet;
    if Good(w.facts, Chosen(n), t) {
      hide Came, OnTheWay;
      assert Onward(w.facts, Chosen(n), ClientQueue(t.client), t, Local(t.via, host, srcPort, data));
    }
    hide Inv, Good, Onward, Shift;
    MoveKeepsInv(w, Chosen(n), ClientQueue(t.client), Local(t.via, host, srcPort, data));
  }

  lemma SubmitKeepsInv(w: World, c: Client)
    requires Inv(w) && DoSubmit(w, c).Some?
    ensures Inv(DoSubmit(w, c).value)
  {
    hide Inv, OnTheWay, SentFrom, Shift, Precedes, Stages;
    MoveKeepsInv(w, ClientHand(c), UnixQueue(w.facts.clients[c].host), At(w.content, ClientHand(c))[0]);
  }

  lemma TakeUnixKeepsInv(w: World, n: Host)
    requires Inv(w) && DoTakeUnix(w, n).Some?
    ensures Inv(DoTakeUnix(w, n).value)
  {
    hide Inv, OnTheWay, SentFrom, Shift;
    MoveKeepsInv(w, UnixQueue(n), UnixHand(n), At(w.content, UnixQueue(n))[0]);
  }

  lemma ReceiveKeepsInv(w: World, c: Client)
    requires Inv(w) && DoReceive(w, c).Some?
    ensures Inv(DoReceive(w, c).value)
  {
    hide Inv, OnTheWay, CameUp, Shift;
    MoveKeepsInv(w, ClientQueue(c), Received(c), At(w.content, ClientQueue(c))[0]);
  }

  lemma DropDeliveryKeepsInv(w: World, n: Host)
    requires Inv(w) && DoDropDelivery(w, n).Some?
    ensures Inv(DoDropDelivery(w, n).value)
  {
    hide Inv, CameUp, Pop;
    PopKeepsInv(w, Chosen(n));
  }

  lemma CloseKeepsInv(w: World, c: Client)
    requires Inv(w)
    ensures Inv(w.(closed := w.closed + {c}))
  {
    var w' := w.(closed := w.closed + {c});
    hide Sound, Linked, Bounded, LinkOk;
    forall h
      ensures LinkOk(w'.content, h) && InStep(w', h)
    {
      assert LinkOk(w.content, h) && InStep(w, h);
    }
  }

  /** No step breaks the invariant. */
  lemma StepKeepsInv(w: World, a: Action)
    requires Inv(w) && Next(w, a).Some?
    ensures Inv(Next(w, a).value)
  {
    hide Inv, DoOpen, DoBind, DoAccept, DoSubmit, DoTakeUnix, DoSendFrame, DoTakeSink, DoWriteFrame, DoLose;
    hide DoCarry, DoReadFrame, DoAnswer, DoHear, DoForward;
    hide DoTakeSock, DoTakeUp, DoLookup, DoDeliver, DoDropDelivery, DoReceive;
    match a
    case Open(h, back, one, other, oneSock, otherSock) => OpenKeepsInv(w, h, back, one, other, oneSock, otherSock);
    case Bind(c, host, port) => BindKeepsInv(w, c, host, port);
    case Accept(c, to, toPort, data) => AcceptKeepsInv(w, c, to, toPort, data);
    case SendFrame(n, h) => SendFrameKeepsInv(w, n, h);
    case SendControl(h, data) => EnterKeepsInv(w, h, Data(0, 0, data));
    case SendPing(h) => EnterKeepsInv(w, h, Ping);
    case TakeSink(h) => TakeSinkKeepsInv(w, h);
    case WriteFrame(h) => WriteKeepsInv(w, h);
    case Lose(h) => LoseKeepsInv(w, h);
    case Carry(h, count) => CarryKeepsInv(w, h, count);
    case ReadFrame(h) => ReadKeepsInv(w, h);
    case Answer(h) => AnswerKeepsInv(w, h);
    case Hear(h) => HearKeepsInv(w, h);
    case Forward(h) => ForwardKeepsInv(w, h);
    case TakeSock(s) => TakeSockKeepsInv(w, s);
    case Process(s) => PartKeepsInv(w, s, Handled(s));
    case PassUp(s) => PartKeepsInv(w, s, Upstream(s.host));
    case TakeUp(n) => TakeUpKeepsInv(w, n);
    case Lookup(n) => LookupKeepsInv(w, n);
    case Deliver(n) => DeliverKeepsInv(w, n);
    case CloseClient(c) => CloseKeepsInv(w, c);
    case Submit(c) => SubmitKeepsInv(w, c);
    case TakeUnix(n) => TakeUnixKeepsInv(w, n);
    case Receive(c) => ReceiveKeepsInv(w, c);
    case DropUnsent(n) => SettleKeepsInv(w, n, None);
    case DropDelivery(n) => DropDeliveryKeepsInv(w, n);
  }

  lemma {:induction false} RunKeepsInv(w: World, actions: seq<Action>)
    requires Inv(w) && Run(w, actions).Some?
    ensures Inv(Run(w, actions).value)
    decreases |actions|
  {
    hide Inv, Next;
    if actions != [] {
      StepKeepsInv(w, actions[0]);
      RunKeepsInv(Next(w, actions[0]).value, actions[1..]);
    }
  }

  lemma StartHolds()
    ensures Inv(START)
  {
    assert forall p :: At(START.content, p) == [];
    hide At, Good, Stages;
    assert forall h :: LinkOk(START.content, h) && InStep(START, h);
  }

  lemma ReachableInv(w: World)
    requires Reachable(w)
    ensures Inv(w)
  {
    var actions :| Run(START, actions) == Some(w);
    StartHolds();
    hide Inv, Run;
    RunKeepsInv(START, actions);
  }
}
