/**
 The pipeline and the peer-information protocol together: the control messages of a connection
 are handled in the order they were sent, so what a node publishes never takes a peer's entry
 back to an older record that came over the same connection. How a message is read off its
 bytes is a parameter.
 */
module Records {
  import opened Bytes
  import opened FrameCodec
  import opened Merging
  import opened Places
  import opened Pipeline
  import opened PipelineSafety
  import opened PipelineRuns
  import opened Delivery
  import opened Origins
  import PeerInfo

  type Reading = seq<u8> -> PeerInfo.Message

  /** The control messages handled over a direction, in order. */
  function HandledOver(w: World, h: Half): seq<Frame>
    requires h in w.facts.halves
  {
    Frames(At(w.content, Handled(SockOf(w.facts, h))), h, {Control})
  }

  function SentOver(w: World, h: Half): seq<Frame> {
    Frames(At(w.content, Entered(h)), h, {Control})
  }

  /** Frames as the messages between two nodes they carry. */
  function Messages(frames: seq<Frame>, from: Host, to: Host, read: Reading): seq<PeerInfo.Envelope> {
    seq(|frames|, i requires 0 <= i < |frames| =>
      PeerInfo.Envelope(from, to, read(if frames[i].Data? then frames[i].data else [])))
  }

  // ---------------------------------------------------------------- what is handled stays handled

  /** The logs of handled messages only grow. */
  ghost predicate MoreHandled(c: Content, c': Content) {
    forall s :: At(c, Handled(s)) <= At(c', Handled(s))
  }

  lemma LinkHandlesNothing(w: World, a: Action)
    requires Next(w, a).Some? && OnLink(a)
    ensures MoreHandled(w.content, Next(w, a).value.content)
  {
    hide Parse, Encoding, Labelled, Room, KindOf;
  }

  lemma OtherStepsHandleMore(w: World, a: Action)
    requires Next(w, a).Some? && !OnLink(a)
    ensures MoreHandled(w.content, Next(w, a).value.content)
  {
    hide Parse, Encoding, Labelled, Room, KindOf, IsControl;
  }

  /** Connections stay what they are. */
  ghost predicate MoreHalves(f: Facts, g: Facts) {
    f.halves.Keys <= g.halves.Keys && forall h | h in f.halves :: g.halves[h] == f.halves[h]
  }

  lemma StepKeepsHalves(w: World, a: Action)
    requires Next(w, a).Some?
    ensures MoreHalves(w.facts, Next(w, a).value.facts)
  {
    hide Parse, Encoding, Labelled, Room, KindOf, At, Push, Pop, Shift, Enter, IsControl, Reads, StreamOf, TakeOff;
  }

  lemma StepHandlesMore(w: World, a: Action)
    requires Next(w, a).Some?
    ensures MoreHandled(w.content, Next(w, a).value.content) && MoreHalves(w.facts, Next(w, a).value.facts)
  {
    hide Next, MoreHandled, MoreHalves;
    StepKeepsHalves(w, a);
    if OnLink(a) {
      LinkHandlesNothing(w, a);
    } else {
      OtherStepsHandleMore(w, a);
    }
  }

  lemma {:induction false} RunHandlesMore(w: World, actions: seq<Action>)
    requires Run(w, actions).Some?
    ensures MoreHandled(w.content, Run(w, actions).value.content)
    ensures MoreHalves(w.facts, Run(w, actions).value.facts)
    decreases |actions|
  {
    hide Next;
    if actions != [] {
      StepHandlesMore(w, actions[0]);
      RunHandlesMore(Next(w, actions[0]).value, actions[1..]);
    }
  }

  lemma HandledOverGrows(w: World, actions: seq<Action>, h: Half)
    requires Run(w, actions).Some? && h in w.facts.halves
    ensures h in Run(w, actions).value.facts.halves
    ensures HandledOver(w, h) <= HandledOver(Run(w, actions).value, h)
  {
    RunHandlesMore(w, actions);
    var before, after := At(w.content, Handled(SockOf(w.facts, h))),
        At(Run(w, actions).value.content, Handled(SockOf(w.facts, h)));
    hide Run, At;
    assert after == before + after[|before|..];
    FramesOfConcat(before, after[|before|..], h, {Control});
  }

  // ---------------------------------------------------------------- the newest record

  lemma {:induction false} LastOfConcat(a: seq<PeerInfo.Envelope>, b: seq<PeerInfo.Envelope>, id: Host)
    ensures PeerInfo.LastFrom(a + b, id)
            == if PeerInfo.LastFrom(b, id).Some? then PeerInfo.LastFrom(b, id) else PeerInfo.LastFrom(a, id)
    decreases |b|
  {
    if b == [] {
      assert a + b == a;
    } else {
      LastOfConcat(a, b[..|b| - 1], id);
      assert (a + b)[..|a + b| - 1] == a + b[..|b| - 1];
    }
  }

  /** The newest of two merged streams is the newest of one of them. */
  lemma {:induction false} LastOfMerged(all: seq<PeerInfo.Envelope>,
                                        a: seq<PeerInfo.Envelope>, b: seq<PeerInfo.Envelope>, id: Host)
    requires Merged(all, a, b)
    ensures PeerInfo.LastFrom(all, id)
            == PeerInfo.LastFrom(a, id) || PeerInfo.LastFrom(all, id) == PeerInfo.LastFrom(b, id)
    ensures PeerInfo.LastFrom(all, id).None? ==> PeerInfo.LastFrom(a, id).None? && PeerInfo.LastFrom(b, id).None?
  {
    if all != [] {
      if EndsWith(all, a, b) {
        LastOfMerged(all[..|all| - 1], a[..|a| - 1], b, id);
      } else {
        MergedSwap(all[..|all| - 1], b[..|b| - 1], a);
        LastOfMerged(all[..|all| - 1], a, b[..|b| - 1], id);
      }
    }
  }

  /**
   Take any run up to a reachable state, any message handled earlier over a connection from X,
   and whatever else the node handled from other connections in between. Then the node's entry
   for X is its newest record from X over this connection or over the others; and the newest
   over this one is that of the later messages, if any of these describes X, else what it was.
   The messages handled over the connection are, in order, what X sent, but for lost ones.
   */
  lemma EntriesNeverFallBack(w: World, actions: seq<Action>, h: Half, read: Reading, table: PeerInfo.Table,
                             all: seq<PeerInfo.Envelope>, others: seq<PeerInfo.Envelope>)
    requires Reachable(w) && h in w.facts.halves && Run(w, actions).Some? && h in Run(w, actions).value.facts.halves
    requires var w', from, to := Run(w, actions).value, w.facts.halves[h].origin, w.facts.halves[h].target;
             Merged(all, Messages(HandledOver(w', h), from, to, read), others)
    ensures var w', from, to := Run(w, actions).value, w.facts.halves[h].origin, w.facts.halves[h].target;
            var earlier, now := Messages(HandledOver(w, h), from, to, read),
                Messages(HandledOver(w', h), from, to, read);
            var newest, learnt := PeerInfo.LastFrom(now, from), PeerInfo.LearnAll(table, all);
            && earlier <= now
            && (PeerInfo.LastFrom(now[|earlier|..], from).None? ==> newest == PeerInfo.LastFrom(earlier, from))
            && (PeerInfo.LastFrom(now[|earlier|..], from).Some? ==> newest == PeerInfo.LastFrom(now[|earlier|..], from))
            && (newest.Some? ==>
                  && from in learnt
                  && (learnt[from] == newest.value || Some(learnt[from]) == PeerInfo.LastFrom(others, from)))
  {
    var w', from, to := Run(w, actions).value, w.facts.halves[h].origin, w.facts.halves[h].target;
    HandledOverGrows(w, actions, h);
    var earlier, now := Messages(HandledOver(w, h), from, to, read), Messages(HandledOver(w', h), from, to, read);
    hide Run, HandledOver;
    assert now == earlier + now[|earlier|..];
    hide Messages;
    LastOfConcat(earlier, now[|earlier|..], from);
    LastOfMerged(all, now, others, from);
    PeerInfo.LearnAllIsLastFrom(table, all, from);
  }

  /**
   In every run, the messages handled over a connection, as far as they were decoded before the
   first cut there, are the oldest of those sent there that were not lost; if nothing was cut
   these are all that were handled.
   */
  lemma HandledAsSent(w: World, h: Half)
    requires Reachable(w) && h in w.facts.halves
    ensures exists rest ::
              Merged(SentOver(w, h), First(HandledOver(w, h), |OfKinds(Uncut(w, h), {Control})|) + rest,
                     Frames(At(w.content, Lost(h)), h, {Control}))
    ensures NoneCut(w.content, h) ==> |HandledOver(w, h)| <= |OfKinds(Uncut(w, h), {Control})|
  {
    hide Reachable, Frames, OfKinds, At, Merged, NoneCut, SockOf, Uncut, DecodedOn;
    ArrivedAsSent(w, h, Control);
    UncutIsDecoded(w, h);
    ReachableInv(w);
    hide Inv;
    ArrivedIsDecoded(w, h, Control);
    assert HandledOver(w, h) == Arrived(w, h, Control);
  }
}
