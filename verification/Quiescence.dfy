/**
 With the timers paused and nobody sending, the two ends of a connection fall silent. What a
 read task has still to handle is what the bytes ahead of it decode to, whatever the payloads.
 */
module Quiescence {
  import opened Bytes
  import opened FrameCodec
  import opened FrameStream
  import opened Places
  import opened Pipeline
  import opened PipelineSafety
  import opened PipelineRuns

  /** The bytes a read task has not decoded yet, buffered, under way, or in frames still to be written. */
  function Ahead(w: World, h: Half): seq<u8> {
    StreamOf(w, h).buffer + StreamOf(w, h).unread + EncodeAll(Carried(Unwritten(w.content, h)))
  }

  /** The frames the read task has still to handle, the one in its hand first. */
  function Pending(w: World, h: Half): seq<Frame> {
    Carried(At(w.content, ReadHand(h))) + Drain(Ahead(w, h)).frames
  }

  /** A ping costs two reads, its own and its pong's; everything else costs one. */
  function Cost(frames: seq<Frame>): nat {
    if frames == [] then 0 else (if frames[0].Ping? then 2 else 1) + Cost(frames[1..])
  }

  function Measure(w: World, h: Half): nat
    requires h in w.facts.halves
  {
    Cost(Pending(w, h)) + Cost(Pending(w, w.facts.halves[h].back))
  }

  /** The read task finishes with the frame in its hand. */
  predicate IsRead(a: Action) {
    a.Answer? || a.Hear? || a.Forward?
  }

  /** What the tasks of the connection's two ends do by themselves, with nothing lost. */
  predicate OfConnection(facts: Facts, h: Half, a: Action)
    requires h in facts.halves
  {
    (IsRead(a) || a.TakeSink? || a.WriteFrame? || a.Carry? || a.ReadFrame?) && (a.h == h || a.h == facts.halves[h].back)
  }

  function ReadsIn(actions: seq<Action>): nat {
    if actions == [] then 0 else (if IsRead(actions[0]) then 1 else 0) + ReadsIn(actions[1..])
  }

  ghost predicate Paired(facts: Facts, h: Half) {
    && h in facts.halves && facts.halves[h].back in facts.halves
    && facts.halves[h].back != h && facts.halves[facts.halves[h].back].back == h
  }

  // ---------------------------------------------------------------- costs

  lemma {:induction false} CostOfConcat(a: seq<Frame>, b: seq<Frame>)
    ensures Cost(a + b) == Cost(a) + Cost(b)
  {
    if a == [] {
      assert a + b == b;
    } else {
      assert (a + b)[1..] == a[1..] + b;
      CostOfConcat(a[1..], b);
    }
  }

  lemma DrainOfWhole(buffer: seq<u8>)
    requires Parse(buffer).Got? && Parse(buffer).rest == []
    ensures Drain(buffer).frames == [Parse(buffer).frame]
  {
    hide Parse;
    assert Parse([]).NotReady? by { NothingIsNotReady(); }
    assert Drain([]).frames == [];
    ParseIsStable(buffer, []);
    assert Drain(buffer).frames == [Parse(buffer).frame] + Drain(Parse(buffer).rest).frames;
  }

  lemma NothingIsNotReady()
    ensures Parse([]).NotReady?
  {
  }

  /** One more byte completes at most one frame. */
  lemma OneByteParses(rest: seq<u8>)
    requires Parse(rest).NotReady?
    ensures var p := Parse(rest + [2]);
            p.NotReady? || (p.Got? && p.rest == [] && !p.frame.Ping?)
  {
    var bytes := rest + [2];
    if |rest| >= 7 {
      assert bytes[5..7] == rest[5..7];
    }
    hide GetU16;
  }

  lemma OneByteCostsOne(rest: seq<u8>)
    requires Parse(rest).NotReady?
    ensures Cost(Drain(rest + [2]).frames) <= 1
  {
    OneByteParses(rest);
    hide Parse;
    if Parse(rest + [2]).NotReady? {
      DrainUnready(rest + [2]);
    } else {
      DrainOfWhole(rest + [2]);
      assert [Parse(rest + [2]).frame][1..] == [];
    }
  }

  /** The byte of a pong adds at most one frame, whatever comes before it, and not a ping. */
  lemma PongCostsOne(bytes: seq<u8>)
    ensures Cost(Drain(bytes + [2]).frames) <= Cost(Drain(bytes).frames) + 1
  {
    DrainInTwo(bytes, [2]);
    DrainStopsUnready(bytes);
    hide Drain, Parse, Cost;
    if !Drain(bytes).failed {
      OneByteCostsOne(Drain(bytes).rest);
      CostOfConcat(Drain(bytes).frames, Drain(Drain(bytes).rest + [2]).frames);
    }
  }

  // ---------------------------------------------------------------- single steps

  /** Nothing of this direction has changed. */
  ghost predicate Same(w: World, w': World, h: Half) {
    StreamOf(w', h) == StreamOf(w, h) && At(w'.content, ReadHand(h)) == At(w.content, ReadHand(h))
    && At(w'.content, WriteHand(h)) == At(w.content, WriteHand(h)) && At(w'.content, Sink(h)) == At(w.content, Sink(h))
  }

  lemma TakeSinkKeepsAhead(w: World, r: Half)
    requires DoTakeSink(w, r).Some?
    ensures Ahead(DoTakeSink(w, r).value, r) == Ahead(w, r)
  {
    var w' := DoTakeSink(w, r).value;
    assert Unwritten(w'.content, r) == Unwritten(w.content, r);
    assert StreamOf(w', r) == StreamOf(w, r);
    hide EncodeAll, Carried, Unwritten, DoTakeSink;
  }

  lemma WriteKeepsAhead(w: World, r: Half)
    requires DoWriteFrame(w, r).Some?
    ensures Ahead(DoWriteFrame(w, r).value, r) == Ahead(w, r)
  {
    var w', frame := DoWriteFrame(w, r).value, At(w.content, WriteHand(r))[0].frame;
    var Stream(unread, buffer) := StreamOf(w, r);
    assert Unwritten(w.content, r) == [At(w.content, WriteHand(r))[0]] + Unwritten(w'.content, r);
    hide Encoding, At, Unwritten;
    CarriedFirst(Unwritten(w.content, r));
    assert Unwritten(w.content, r)[1..] == Unwritten(w'.content, r);
    var later := Carried(Unwritten(w'.content, r));
    assert ([frame] + later)[1..] == later;
    Associate(buffer, unread, Encoding(frame));
    Associate(buffer + unread, Encoding(frame), EncodeAll(later));
  }

  lemma ReadKeepsPending(w: World, r: Half)
    requires DoReadFrame(w, r).Some?
    ensures Pending(DoReadFrame(w, r).value, r) == Pending(w, r)
  {
    var w' := DoReadFrame(w, r).value;
    var Got(frame, rest) := Parse(StreamOf(w, r).buffer);
    var buffer, unread := StreamOf(w, r).buffer, StreamOf(w, r).unread;
    var more := EncodeAll(Carried(Unwritten(w.content, r)));
    var hand := Carried(At(w.content, ReadHand(r)));
    ReadMoves(w, r);
    hide DoReadFrame, Carried, EncodeAll, Unwritten, At, Parse;
    ParseIsStable(buffer, unread + more);
    Associate(buffer, unread, more);
    Associate(rest, unread, more);
    Associate(hand, [frame], Drain(Ahead(w', r)).frames);
  }

  lemma ReadMoves(w: World, r: Half)
    requires DoReadFrame(w, r).Some?
    ensures var w' := DoReadFrame(w, r).value;
            var Got(frame, rest) := Parse(StreamOf(w, r).buffer);
            && StreamOf(w', r) == StreamOf(w, r).(buffer := rest)
            && Unwritten(w'.content, r) == Unwritten(w.content, r)
            && Carried(At(w'.content, ReadHand(r))) == Carried(At(w.content, ReadHand(r))) + [frame]
  {
    hide Parse;
    CarriedAppend(At(w.content, ReadHand(r)), Framed(r, Parse(StreamOf(w, r).buffer).frame));
  }

  lemma CarryKeepsAhead(w: World, r: Half, count: nat)
    requires DoCarry(w, r, count).Some?
    ensures Ahead(DoCarry(w, r, count).value, r) == Ahead(w, r)
  {
    var Stream(unread, buffer) := StreamOf(w, r);
    hide EncodeAll, Carried;
    assert unread[..count] + unread[count..] == unread;
    Associate(buffer, unread[..count], unread[count..]);
  }

  lemma SamePending(w: World, w': World, h: Half)
    requires Same(w, w', h)
    ensures Pending(w', h) == Pending(w, h)
  {
    hide Drain, EncodeAll, Carried, At, StreamOf;
  }

  /** Moving bytes and frames along a link changes nothing about what is pending there. */
  lemma LinkKeepsPending(w: World, a: Action)
    requires Next(w, a).Some? && (a.TakeSink? || a.WriteFrame? || a.Carry? || a.ReadFrame?)
    ensures Pending(Next(w, a).value, a.h) == Pending(w, a.h)
  {
    hide Ahead, Drain, Carried, Parse, Encoding;
    match a
    case TakeSink(r) => TakeSinkKeepsAhead(w, r);
    case WriteFrame(r) => WriteKeepsAhead(w, r);
    case Carry(r, count) => CarryKeepsAhead(w, r, count);
    case ReadFrame(r) => ReadKeepsPending(w, r);
  }

  lemma OtherLinksStaySame(w: World, a: Action, h: Half)
    requires Next(w, a).Some? && (a.TakeSink? || a.WriteFrame? || a.Carry? || a.ReadFrame?)
    ensures Next(w, a).value.facts.halves == w.facts.halves
    ensures a.h != h ==> Same(w, Next(w, a).value, h)
  {
    hide Parse, Encoding;
  }

  lemma OtherKeepsPending(w: World, a: Action, h: Half)
    requires Next(w, a).Some? && (a.TakeSink? || a.WriteFrame? || a.Carry? || a.ReadFrame?)
    ensures Pending(Next(w, a).value, h) == Pending(w, h)
    ensures Next(w, a).value.facts.halves == w.facts.halves
  {
    OtherLinksStaySame(w, a, h);
    hide Next, Same, Pending;
    if a.h != h {
      SamePending(w, Next(w, a).value, h);
    } else {
      LinkKeepsPending(w, a);
    }
  }

  /** The frame a read task finishes with was the first pending one. */
  lemma FinishLowersCost(w: World, w': World, r: Half)
    requires At(w.content, ReadHand(r)) != [] && At(w.content, ReadHand(r))[0].Framed?
    requires At(w'.content, ReadHand(r)) == At(w.content, ReadHand(r))[1..] && Ahead(w', r) == Ahead(w, r)
    ensures Cost(Pending(w, r)) == Cost(Pending(w', r)) + (if At(w.content, ReadHand(r))[0].frame.Ping? then 2 else 1)
  {
    var hand := At(w.content, ReadHand(r));
    CarriedFirst(hand);
    Associate([hand[0].frame], Carried(hand[1..]), Drain(Ahead(w, r)).frames);
    assert Pending(w, r) == [hand[0].frame] + Pending(w', r);
    hide Ahead, Drain, Carried, At, Pending;
    assert Pending(w, r)[1..] == Pending(w', r);
  }

  lemma AnswerMoves(w: World, r: Half)
    requires DoAnswer(w, r).Some? && w.facts.halves[r].back != r
    ensures var w', back := DoAnswer(w, r).value, w.facts.halves[r].back;
            && w'.facts == w.facts && w'.streams == w.streams
            && At(w'.content, ReadHand(r)) == At(w.content, ReadHand(r))[1..]
            && At(w'.content, ReadHand(back)) == At(w.content, ReadHand(back))
            && Unwritten(w'.content, r) == Unwritten(w.content, r)
            && Unwritten(w'.content, back) == Unwritten(w.content, back) + [Framed(back, Pong)]
  {
    var back := w.facts.halves[r].back;
    Associate(At(w.content, WriteHand(back)), At(w.content, Sink(back)), [Framed(back, Pong)]);
  }

  lemma AnswerLowersMeasure(w: World, h: Half, r: Half)
    requires Paired(w.facts, h) && DoAnswer(w, r).Some? && (r == h || r == w.facts.halves[h].back)
    ensures Measure(DoAnswer(w, r).value, h) < Measure(w, h)
  {
    var w', back := DoAnswer(w, r).value, w.facts.halves[r].back;
    AnswerMoves(w, r);
    assert At(w.content, ReadHand(r)) != [] && At(w.content, ReadHand(r))[0].Framed?;
    assert At(w.content, ReadHand(r))[0].frame.Ping?;
    assert StreamOf(w', r) == StreamOf(w, r) && StreamOf(w', back) == StreamOf(w, back);
    hide DoAnswer, At, StreamOf, Unwritten, Cost, Drain;
    FinishLowersCost(w, w', r);
    PongIsPending(w, w', back);
  }

  lemma PongIsPending(w: World, w': World, h: Half)
    requires StreamOf(w', h) == StreamOf(w, h) && At(w'.content, ReadHand(h)) == At(w.content, ReadHand(h))
    requires Unwritten(w'.content, h) == Unwritten(w.content, h) + [Framed(h, Pong)]
    ensures Cost(Pending(w', h)) <= Cost(Pending(w, h)) + 1
  {
    var written, frames := StreamOf(w, h).buffer + StreamOf(w, h).unread, Carried(Unwritten(w.content, h));
    CarriedAppend(Unwritten(w.content, h), Framed(h, Pong));
    EncodeAllAppend(frames, Pong);
    Associate(written, EncodeAll(frames), [2]);
    var hand := Carried(At(w.content, ReadHand(h)));
    hide At, StreamOf, Unwritten, Cost, Drain, EncodeAll, Carried;
    PongCostsOne(Ahead(w, h));
    CostOfConcat(hand, Drain(Ahead(w, h)).frames);
    CostOfConcat(hand, Drain(Ahead(w', h)).frames);
  }

  /** A frame that leaves the reader for good. */
  lemma LeavingLowersMeasure(w: World, h: Half, r: Half, b: Place, t: Token)
    requires Paired(w.facts, h) && (r == h || r == w.facts.halves[h].back)
    requires At(w.content, ReadHand(r)) != [] && At(w.content, ReadHand(r))[0].Framed?
    requires !b.ReadHand? && !b.WriteHand? && !b.Sink?
    ensures Measure(w.(content := Shift(w.content, ReadHand(r), b, t)), h) < Measure(w, h)
  {
    var w' := w.(content := Shift(w.content, ReadHand(r), b, t));
    var back := w.facts.halves[r].back;
    LeavingMoves(w, r, b, t);
    OtherStaysSame(w, r, b, t, back);
    hide Shift, At, StreamOf, Cost, Drain, Same, Ahead, Pending;
    FinishLowersCost(w, w', r);
    SamePending(w, w', back);
  }

  lemma OtherStaysSame(w: World, r: Half, b: Place, t: Token, h: Half)
    requires At(w.content, ReadHand(r)) != [] && !b.ReadHand? && !b.WriteHand? && !b.Sink? && h != r
    ensures Same(w, w.(content := Shift(w.content, ReadHand(r), b, t)), h)
  {
    ShiftElsewhere(w.content, ReadHand(r), b, t);
    hide Shift, At;
  }

  lemma LeavingMoves(w: World, r: Half, b: Place, t: Token)
    requires At(w.content, ReadHand(r)) != [] && !b.ReadHand? && !b.WriteHand? && !b.Sink?
    ensures var w' := w.(content := Shift(w.content, ReadHand(r), b, t));
            At(w'.content, ReadHand(r)) == At(w.content, ReadHand(r))[1..] && Ahead(w', r) == Ahead(w, r)
  {
    var w' := w.(content := Shift(w.content, ReadHand(r), b, t));
    ShiftElsewhere(w.content, ReadHand(r), b, t);
    assert StreamOf(w', r) == StreamOf(w, r) && Unwritten(w'.content, r) == Unwritten(w.content, r);
    hide StreamOf, Unwritten, EncodeAll, Carried;
    assert At(w'.content, ReadHand(r)) == At(w.content, ReadHand(r))[1..];
  }

  /** Whatever the read task does with its frame, less is left to read. */
  lemma ReadLowersMeasure(w: World, h: Half, a: Action)
    requires Paired(w.facts, h) && OfConnection(w.facts, h, a) && IsRead(a) && Next(w, a).Some?
    ensures Next(w, a).value.facts == w.facts && Measure(Next(w, a).value, h) < Measure(w, h)
  {
    hide Shift, Enter, Measure, Paired, At;
    match a
    case Answer(r) => AnswerLowersMeasure(w, h, r);
    case Hear(r) => LeavingLowersMeasure(w, h, r, Heard(r), At(w.content, ReadHand(r))[0]);
    case Forward(r) =>
      LeavingLowersMeasure(w, h, r, SockQueue(SockOf(w.facts, r)),
                           Labelled(w.facts, r, At(w.content, ReadHand(r))[0].frame));
  }

  // ---------------------------------------------------------------- whole runs

  lemma {:induction false} PairQuiesces(w: World, h: Half, actions: seq<Action>)
    requires Paired(w.facts, h) && Run(w, actions).Some?
    requires forall a | a in actions :: OfConnection(w.facts, h, a)
    ensures ReadsIn(actions) <= Measure(w, h)
    decreases |actions|
  {
    if actions != [] {
      var a := actions[0];
      var w' := Next(w, a).value;
      assert a in actions && forall b | b in actions[1..] :: b in actions;
      hide Next, Pending, Cost;
      if IsRead(a) {
        ReadLowersMeasure(w, h, a);
      } else {
        OtherKeepsPending(w, a, h);
        OtherKeepsPending(w, a, w.facts.halves[h].back);
      }
      PairQuiesces(w', h, actions[1..]);
    }
  }

  /**
   From any reachable state, whatever has been sent, cut or lost before: however the tasks of a
   connection's two ends interleave, while nothing else enters it and nothing more is lost they
   finish at most `Measure` frames, so the exchange always dies down.
   */
  lemma ConnectionQuiesces(w: World, h: Half, actions: seq<Action>)
    requires Reachable(w) && h in w.facts.halves && Run(w, actions).Some?
    requires forall a | a in actions :: OfConnection(w.facts, h, a)
    ensures ReadsIn(actions) <= Measure(w, h)
  {
    ReachableInv(w);
    assert Linked(w.facts) && Paired(w.facts, h);
    hide Inv, Reachable, Run, Measure;
    PairQuiesces(w, h, actions);
  }

  /**
   As long as none was cut and all that is on the link fits, what is pending is the frames in hand,
   under way and unwritten.
   */
  lemma PendingIsUnderWay(w: World, h: Half)
    requires Inv(w) && NoneCut(w.content, h)
    requires AllFit(Carried(At(w.content, Wire(h)) + Unwritten(w.content, h)))
    ensures Pending(w, h) == Carried(At(w.content, ReadHand(h)) + (At(w.content, Wire(h)) + Unwritten(w.content, h)))
  {
    var c := w.content;
    var link := At(c, Wire(h)) + Unwritten(c, h);
    StreamInStep(w, h);
    CarriedOfConcat(At(c, Wire(h)), Unwritten(c, h));
    CarriedOfConcat(At(c, ReadHand(h)), link);
    hide Inv, At, Unwritten, Carried, EncodeAll, Drain, StreamOf;
    EncodeAllOfConcat(Carried(At(c, Wire(h))), Carried(Unwritten(c, h)));
    DrainOfEncodings(Carried(link), []);
    NothingPending();
    assert EncodeAll(Carried(link)) + [] == EncodeAll(Carried(link)) && Carried(link) + [] == Carried(link);
  }

  lemma NothingPending()
    ensures Drain([]) == Progress([], [], false)
  {
  }
}
