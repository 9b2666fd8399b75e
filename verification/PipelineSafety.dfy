/**
 What every run of the pipeline keeps: bounded queues; on each connection, links that lose
 frames but never reorder them, and readers in step with what was sent until a payload too long
 for its length field is read; order past the readers; and the provenance of every packet.
 */
module PipelineSafety {
  import opened Bytes
  import opened FrameCodec
  import opened FrameStream
  import opened Merging
  import opened Places
  import opened Pipeline

  // ---------------------------------------------------------------- past the reader

  /** The ways frames go on from a read task, each to the log where it ends. */
  datatype Route = ToSplit | ToTable | ToHandled | ToAnswered | ToHeard

  function KindsOn(r: Route): set<Kind> {
    match r
    case ToSplit => {Payload, Control}
    case ToTable => {Payload}
    case ToHandled => {Control}
    case ToAnswered => {PingKind}
    case ToHeard => {PongKind}
  }

  /** The stages of a way, farthest first. */
  function Stages(facts: Facts, h: Half, r: Route): seq<Place>
    requires h in facts.halves
  {
    var n, s := facts.halves[h].target, SockOf(facts, h);
    match r
    case ToSplit => [Split(s), SockHand(s), SockQueue(s), ReadHand(h)]
    case ToTable => [Tabled(n), NetHand(n), Upstream(n)]
    case ToHandled => [Handled(s)]
    case ToAnswered => [Answered(h), ReadHand(h)]
    case ToHeard => [Heard(h), ReadHand(h)]
  }

  /** What has been put on the way: what the reader decoded, or what came as far as the split. */
  function PutOn(facts: Facts, c: Content, h: Half, r: Route): seq<Frame>
    requires h in facts.halves
  {
    if FromReader(r) then OfKinds(DecodedOn(facts, h), KindsOn(r))
    else Frames(At(c, Split(SockOf(facts, h))), h, KindsOn(r))
  }

  ghost predicate FlowOk(facts: Facts, c: Content, h: Half, r: Route)
    requires h in facts.halves
  {
    Flow(c, Stages(facts, h, r), h, KindsOn(r)) == PutOn(facts, c, h, r)
  }

  ghost predicate Flows(facts: Facts, c: Content) {
    forall h, r :: h in facts.halves ==> FlowOk(facts, c, h, r)
  }

  // ---------------------------------------------------------------- the link

  /** What has not been written to the wire yet. */
  function Unwritten(c: Content, h: Half): seq<Token> {
    At(c, WriteHand(h)) + At(c, Sink(h))
  }

  /** What has been written, whether it is under way, was lost, or has been passed by the reader. */
  function Written(c: Content, h: Half): seq<Token>
    requires |Unwritten(c, h)| <= |At(c, Entered(h))|
  {
    At(c, Entered(h))[..|At(c, Entered(h))| - |Unwritten(c, h)|]
  }

  /**
   What entered the sink is, in order, what the reader has passed and what is under way, with
   the lost frames among them, and then what is unwritten.
   */
  ghost predicate LinkOk(c: Content, h: Half) {
    && |Unwritten(c, h)| <= |At(c, Entered(h))|
    && At(c, Entered(h)) == Written(c, h) + Unwritten(c, h)
    && Merged(Written(c, h), At(c, Passed(h)) + At(c, Wire(h)), At(c, Lost(h)))
  }

  /** No frame the reader has passed had a payload too long for its length field. */
  ghost predicate NoneCut(c: Content, h: Half) {
    forall t | t in At(c, Passed(h)) :: t.Framed? ==> Fits(t.frame)
  }

  /** Of some frames, those before the first one too long. */
  function Whole(frames: seq<Frame>): seq<Frame> {
    if frames == [] || !Fits(frames[0]) then [] else [frames[0]] + Whole(frames[1..])
  }

  /** The frames that were written and not lost, in order. */
  function OnWire(c: Content, h: Half): seq<Frame> {
    Carried(At(c, Passed(h)) + At(c, Wire(h)))
  }

  /** Whatever the payloads, the bytes written are those the reader has decoded and those still ahead of it. */
  ghost predicate BytesOk(w: World, h: Half) {
    EncodeAll(OnWire(w.content, h))
    == EncodeAll(DecodedOn(w.facts, h)) + (StreamOf(w, h).buffer + StreamOf(w, h).unread)
  }

  /**
   What the reader has passed is what it decoded: up to the first frame that was cut, and all of it
   as long as none was.
   */
  ghost predicate InStep(w: World, h: Half) {
    var passed, decoded := Carried(At(w.content, Passed(h))), DecodedOn(w.facts, h);
    BytesOk(w, h) && Whole(passed) <= decoded && (NoneCut(w.content, h) ==> decoded == passed)
  }

  ghost predicate LinksOk(w: World) {
    forall h :: LinkOk(w.content, h) && InStep(w, h)
  }

  predicate OnLinkPlace(p: Place) {
    p.Entered? || p.Sink? || p.WriteHand? || p.Wire? || p.Lost? || p.Passed?
  }

  // ---------------------------------------------------------------- where tokens come from

  /** Some client bound to the packet's source port on this host sent exactly this packet. */
  ghost predicate SentFrom(facts: Facts, n: Host, packet: Packet) {
    exists c ::
      packet in AcceptedFrom(facts, c) && c in facts.clients && facts.clients[c] == ClientInfo(n, packet.srcPort)
  }

  /** A payload frame put on a connection was sent by a client of its origin to its target. */
  ghost predicate Honest(facts: Facts, h: Half, frame: Frame) {
    h in facts.halves &&
    (KindOf(frame) == Payload ==>
       SentFrom(facts, facts.halves[h].origin,
                Packet(facts.halves[h].target, frame.srcPort, frame.dstPort, frame.data)))
  }

  ghost predicate Decoded(facts: Facts, h: Half, frame: Frame) {
    h in facts.halves && frame in DecodedOn(facts, h)
  }

  /** A packet delivered over a connection was decoded there and names its origin. */
  ghost predicate Came(facts: Facts, h: Half, packet: Packet) {
    Decoded(facts, h, Data(packet.srcPort, packet.dstPort, packet.data)) && packet.host == facts.halves[h].origin
  }

  /** The same, for a packet that goes up to the clients of this host. */
  ghost predicate CameUp(facts: Facts, n: Host, h: Half, packet: Packet) {
    && Came(facts, h, packet) && facts.halves[h].target == n
    && KindOf(Data(packet.srcPort, packet.dstPort, packet.data)) == Payload
  }

  /** What a client gets came over a connection to its host, from the host it is shown, for its own port. */
  ghost predicate CameTo(facts: Facts, c: Client, t: Token) {
    && t.Local? && c in facts.clients
    && CameUp(facts, facts.clients[c].host, t.via, Packet(t.host, t.port, facts.clients[c].port, t.data))
  }

  ghost predicate Good(facts: Facts, p: Place, t: Token) {
    match p
    case ClientHand(c) =>
      t.Outgoing? && c in facts.clients && SentFrom(facts, facts.clients[c].host, t.packet)
    case UnixQueue(n) => t.Outgoing? && SentFrom(facts, n, t.packet)
    case UnixHand(n) => t.Outgoing? && SentFrom(facts, n, t.packet)
    case Forwarded(_) => t.Settled?
    case ReadHand(h) => t.Framed? && t.via == h && Decoded(facts, h, t.frame)
    case Answered(h) => t == Framed(h, Ping) && h in facts.halves
    case Heard(h) => t == Framed(h, Pong) && h in facts.halves
    case SockQueue(s) => t.Incoming? && Came(facts, t.via, t.packet) && SockOf(facts, t.via) == s
    case SockHand(s) => t.Incoming? && Came(facts, t.via, t.packet) && SockOf(facts, t.via) == s
    case Split(s) => t.Incoming? && Came(facts, t.via, t.packet) && SockOf(facts, t.via) == s
    case Handled(s) => t.Incoming? && Came(facts, t.via, t.packet) && SockOf(facts, t.via) == s && IsControl(t)
    case Upstream(n) => t.Incoming? && CameUp(facts, n, t.via, t.packet)
    case NetHand(n) => t.Incoming? && CameUp(facts, n, t.via, t.packet)
    case Tabled(n) => t.Incoming? && CameUp(facts, n, t.via, t.packet)
    case Chosen(n) =>
      t.Resolved? && CameUp(facts, n, t.via, t.packet)
      && t.client in facts.clients && facts.clients[t.client] == ClientInfo(n, t.packet.dstPort)
    case ClientQueue(c) => CameTo(facts, c, t)
    case Received(c) => CameTo(facts, c, t)
    case _ => t.Framed? && t.via == p.half && Honest(facts, t.via, t.frame)
  }

  ghost predicate Provenance(facts: Facts, c: Content) {
    forall p, t | p in c && t in c[p] :: Good(facts, p, t)
  }

  ghost predicate Sound(facts: Facts, c: Content) {
    Provenance(facts, c) && Flows(facts, c)
  }

  // ---------------------------------------------------------------- the invariant

  /**
   Both directions of a connection know each other; only open ones decode anything, and nothing too
   long ever comes out.
   */
  ghost predicate Linked(facts: Facts) {
    && facts.decoded.Keys <= facts.halves.Keys
    && (forall h, frame | h in facts.decoded && frame in facts.decoded[h] :: Fits(frame))
    && forall h | h in facts.halves ::
         var there := facts.halves[h];
         && there.back in facts.halves && there.back != h
         && facts.halves[there.back].back == h
         && facts.halves[there.back].origin == there.target && facts.halves[there.back].target == there.origin
  }

  ghost predicate TableOk(w: World) {
    forall key | key in w.table ::
      w.table[key] in w.facts.clients && w.facts.clients[w.table[key]] == ClientInfo(key.0, key.1)
  }

  ghost predicate Inv(w: World) {
    Linked(w.facts) && TableOk(w) && Bounded(w.content) && Sound(w.facts, w.content) && LinksOk(w)
  }

  // ---------------------------------------------------------------- ways

  predicate FromReader(r: Route) {
    !r.ToTable? && !r.ToHandled?
  }

  lemma WayShape(facts: Facts, h: Half, r: Route)
    requires h in facts.halves
    ensures var path := Stages(facts, h, r);
            && path != [] && Distinct(path)
            && (path[|path| - 1] == ReadHand(h) <==> FromReader(r))
            && forall g :: ReadHand(g) in path ==> g == h && FromReader(r)
  {
  }

  lemma WayIsOffLink(facts: Facts, h: Half, r: Route)
    requires h in facts.halves
    ensures forall p | p in Stages(facts, h, r) :: !OnLinkPlace(p)
  {
  }

  lemma PrecedesAt(path: seq<Place>, i: nat, b: Place, a: Place)
    requires i + 1 < |path| && path[i] == b && path[i + 1] == a
    ensures Precedes(path, b, a)
  {
  }

  /** On every way a frame of its kinds may take, `b` follows `a`, or neither is on it. */
  ghost predicate OnTheWay(facts: Facts, h: Half, kind: Kind, a: Place, b: Place)
    requires h in facts.halves
  {
    forall r :: kind in KindsOn(r) ==>
      Precedes(Stages(facts, h, r), b, a) || (a !in Stages(facts, h, r) && b !in Stages(facts, h, r))
  }

  lemma DataWay(facts: Facts, h: Half, kind: Kind)
    requires h in facts.halves && (kind == Payload || kind == Control)
    ensures var s := SockOf(facts, h);
            OnTheWay(facts, h, kind, ReadHand(h), SockQueue(s)) && OnTheWay(facts, h, kind, SockQueue(s), SockHand(s))
  {
    var s := SockOf(facts, h);
    PrecedesAt(Stages(facts, h, ToSplit), 2, SockQueue(s), ReadHand(h));
    PrecedesAt(Stages(facts, h, ToSplit), 1, SockHand(s), SockQueue(s));
  }

  lemma TableWay(facts: Facts, h: Half)
    requires h in facts.halves
    ensures var n := facts.halves[h].target;
            OnTheWay(facts, h, Payload, Upstream(n), NetHand(n)) && OnTheWay(facts, h, Payload, NetHand(n), Tabled(n))
  {
    var n := facts.halves[h].target;
    PrecedesAt(Stages(facts, h, ToTable), 1, NetHand(n), Upstream(n));
    PrecedesAt(Stages(facts, h, ToTable), 0, Tabled(n), NetHand(n));
  }

  lemma BeatWay(facts: Facts, h: Half)
    requires h in facts.halves
    ensures OnTheWay(facts, h, PingKind, ReadHand(h), Answered(h))
    ensures OnTheWay(facts, h, PongKind, ReadHand(h), Heard(h))
  {
    PrecedesAt(Stages(facts, h, ToAnswered), 0, Answered(h), ReadHand(h));
    PrecedesAt(Stages(facts, h, ToHeard), 0, Heard(h), ReadHand(h));
  }

  // ---------------------------------------------------------------- changes of content

  lemma ProvenanceOfPush(facts: Facts, c: Content, p: Place, t: Token)
    requires Provenance(facts, c) && Good(facts, p, t)
    ensures Provenance(facts, Push(c, p, t))
  {
    hide Good;
  }

  lemma ProvenanceOfPop(facts: Facts, c: Content, p: Place)
    requires Provenance(facts, c) && At(c, p) != []
    ensures Provenance(facts, Pop(c, p)) && Good(facts, p, At(c, p)[0])
  {
    hide Good;
    forall q, t | q in Pop(c, p) && t in Pop(c, p)[q]
      ensures Good(facts, q, t)
    {
      assert q in c && t in c[q];
    }
  }

  /** Nothing past the readers has changed. */
  ghost predicate SamePastReaders(c: Content, c': Content) {
    forall p: Place :: !OnLinkPlace(p) ==> At(c', p) == At(c, p)
  }

  lemma LinkChangeKeepsFlows(facts: Facts, c: Content, c': Content)
    requires Flows(facts, c) && SamePastReaders(c, c')
    ensures Flows(facts, c')
  {
    hide Flow, Stages, Frames, OfKinds, KindsOn;
    forall h, r | h in facts.halves
      ensures FlowOk(facts, c', h, r)
    {
      assert FlowOk(facts, c, h, r);
      WayIsOffLink(facts, h, r);
      FlowElsewhere(c, c', Stages(facts, h, r), h, KindsOn(r));
    }
  }

  lemma SamePutOn(facts: Facts, c: Content, c': Content, h: Half, r: Route)
    requires h in facts.halves && forall s :: At(c', Split(s)) == At(c, Split(s))
    ensures PutOn(facts, c', h, r) == PutOn(facts, c, h, r)
  {
  }

  /** The oldest token of one place goes on to the next place of its ways. */
  lemma SoundShift(facts: Facts, c: Content, a: Place, b: Place, t: Token)
    requires Sound(facts, c) && At(c, a) != [] && a != b && !a.Split? && !b.Split?
    requires Good(facts, b, t)
    requires FrameOf(t) == FrameOf(At(c, a)[0])
    requires FrameOf(t).Some? ==>
               && t.via == At(c, a)[0].via && t.via in facts.halves
               && OnTheWay(facts, t.via, KindOf(FrameOf(t).value), a, b)
    ensures Sound(facts, Shift(c, a, b, t))
  {
    ProvenanceOfPop(facts, c, a);
    ProvenanceOfPush(facts, Pop(c, a), b, t);
    hide Good, Provenance, Stages, OnTheWay, Flow, At, FlowOk, Shift;
    forall h, r | h in facts.halves
      ensures FlowOk(facts, Shift(c, a, b, t), h, r)
    {
      FlowOfShift(facts, c, a, b, t, h, r);
    }
  }

  lemma FlowOfShift(facts: Facts, c: Content, a: Place, b: Place, t: Token, h: Half, r: Route)
    requires h in facts.halves && FlowOk(facts, c, h, r)
    requires At(c, a) != [] && a != b && !a.Split? && !b.Split?
    requires FrameOf(t) == FrameOf(At(c, a)[0])
    requires FrameOf(t).Some? ==>
               && t.via == At(c, a)[0].via && t.via in facts.halves
               && OnTheWay(facts, t.via, KindOf(FrameOf(t).value), a, b)
    ensures FlowOk(facts, Shift(c, a, b, t), h, r)
  {
    OneOnTheWay(facts, c, a, b, t, h, r);
    WayShape(facts, h, r);
    ShiftElsewhere(c, a, b, t);
    hide Stages, Precedes, Flow, FrameOf, Distinct, At, One, KindOf, KindsOn, PutOn, Shift, OnTheWay;
    SamePutOn(facts, c, Shift(c, a, b, t), h, r);
    ShiftOnOrOffKeepsFlow(c, a, b, t, Stages(facts, h, r), h, KindsOn(r));
  }

  lemma OneOnTheWay(facts: Facts, c: Content, a: Place, b: Place, t: Token, h: Half, r: Route)
    requires h in facts.halves && At(c, a) != [] && FrameOf(t) == FrameOf(At(c, a)[0])
    requires FrameOf(t).Some? ==>
               && t.via == At(c, a)[0].via && t.via in facts.halves
               && OnTheWay(facts, t.via, KindOf(FrameOf(t).value), a, b)
    ensures var path := Stages(facts, h, r);
            && One(t, h, KindsOn(r)) == One(At(c, a)[0], h, KindsOn(r))
            && (One(t, h, KindsOn(r)) != [] ==> Precedes(path, b, a) || (a !in path && b !in path))
  {
    hide Stages, Precedes, FrameOf, KindsOn, KindOf, At;
  }

  /** A token that is not on a connection disappears. */
  lemma SoundPop(facts: Facts, c: Content, p: Place)
    requires Sound(facts, c) && At(c, p) != [] && !p.Split?
    requires FrameOf(At(c, p)[0]).None?
    ensures Sound(facts, Pop(c, p))
  {
    ProvenanceOfPop(facts, c, p);
    hide Good, Provenance, FlowOk, Pop, FrameOf;
    forall h, r | h in facts.halves
      ensures FlowOk(facts, Pop(c, p), h, r)
    {
      PopKeepsFlow(facts, c, p, h, r);
    }
  }

  lemma PopKeepsFlow(facts: Facts, c: Content, p: Place, h: Half, r: Route)
    requires h in facts.halves && FlowOk(facts, c, h, r) && !p.Split?
    requires At(c, p) != [] && FrameOf(At(c, p)[0]).None?
    ensures FlowOk(facts, Pop(c, p), h, r)
  {
    SamePutOn(facts, c, Pop(c, p), h, r);
    assert Frames(At(Pop(c, p), p), h, KindsOn(r)) == Frames(At(c, p), h, KindsOn(r));
    assert forall q :: q != p ==> At(Pop(c, p), q) == At(c, q);
    hide Stages, PutOn, KindsOn, Pop, At, Flow, Frames;
    FlowUnchanged(c, Pop(c, p), Stages(facts, h, r), h, KindsOn(r));
  }

  /** A token that is not on a connection appears. */
  lemma SoundPush(facts: Facts, c: Content, p: Place, t: Token)
    requires Sound(facts, c) && !p.Split? && Good(facts, p, t) && FrameOf(t).None?
    ensures Sound(facts, Push(c, p, t))
  {
    ProvenanceOfPush(facts, c, p, t);
    hide Good, Provenance, FlowOk, Push;
    forall h, r | h in facts.halves
      ensures FlowOk(facts, Push(c, p, t), h, r)
    {
      PushKeepsFlow(facts, c, p, t, h, r);
    }
  }

  lemma PushKeepsFlow(facts: Facts, c: Content, p: Place, t: Token, h: Half, r: Route)
    requires h in facts.halves && FlowOk(facts, c, h, r) && !p.Split? && FrameOf(t).None?
    ensures FlowOk(facts, Push(c, p, t), h, r)
  {
    SamePutOn(facts, c, Push(c, p, t), h, r);
    hide Stages, PutOn, KindsOn, Push, At, Flow;
    OffConnectionsKeepsFlow(c, p, t, Stages(facts, h, r), h, KindsOn(r));
  }

  lemma OffConnectionsKeepsFlow(c: Content, p: Place, t: Token, path: seq<Place>, h: Half, ks: set<Kind>)
    requires FrameOf(t).None?
    ensures Flow(Push(c, p, t), path, h, ks) == Flow(c, path, h, ks)
  {
    FramesOfPush(c, p, t, h, ks);
    assert One(t, h, ks) == [] && forall q :: q != p ==> At(Push(c, p, t), q) == At(c, q);
    hide Flow, Frames, At, Push;
    FlowUnchanged(c, Push(c, p, t), path, h, ks);
  }

  // ---------------------------------------------------------------- the split

  /** The task of a socket logs its packet and hands it to `b`. */
  function Part(c: Content, s: Sock, b: Place, t: Token): Content
    requires At(c, SockHand(s)) != []
  {
    Push(Shift(c, SockHand(s), Split(s), t), b, t)
  }

  /** Control messages part from client frames: each kind has its own place to go to. */
  ghost predicate Parts(facts: Facts, s: Sock, b: Place, t: Token) {
    && t.Incoming? && t.via in facts.halves && SockOf(facts, t.via) == s
    && b == if IsControl(t) then Handled(s) else Upstream(s.host)
  }

  lemma FramesOfPart(c: Content, s: Sock, b: Place, t: Token, h: Half, ks: set<Kind>)
    requires At(c, SockHand(s)) != [] && t == At(c, SockHand(s))[0] && (b.Handled? || b.Upstream?)
    ensures var c' := Part(c, s, b, t);
            && Frames(At(c', Split(s)), h, ks) == Frames(At(c, Split(s)), h, ks) + One(t, h, ks)
            && Frames(At(c', b), h, ks) == Frames(At(c, b), h, ks) + One(t, h, ks)
  {
    var mid := Shift(c, SockHand(s), Split(s), t);
    FramesOfShift(c, SockHand(s), Split(s), t, h, ks);
    FramesOfPush(mid, b, t, h, ks);
    hide Shift, Frames, One;
    assert forall p :: p != b ==> At(Push(mid, b, t), p) == At(mid, p);
  }

  lemma PartElsewhere(c: Content, s: Sock, b: Place, t: Token, p: Place)
    requires At(c, SockHand(s)) != [] && p != SockHand(s) && p != Split(s) && p != b
    ensures At(Part(c, s, b, t), p) == At(c, p)
  {
  }

  /** Up to the split, the packet only moves on. */
  lemma PartKeepsSplitWay(facts: Facts, c: Content, s: Sock, b: Place, t: Token, h: Half)
    requires h in facts.halves && FlowOk(facts, c, h, ToSplit)
    requires At(c, SockHand(s)) != [] && t == At(c, SockHand(s))[0] && Parts(facts, s, b, t)
    ensures FlowOk(facts, Part(c, s, b, t), h, ToSplit)
  {
    SplitWay(facts, s, b, t, h);
    WayShape(facts, h, ToSplit);
    hide Stages, Precedes, Flow, Distinct, One, Shift, At, KindsOn, Push, Parts;
    ShiftKeepsFlow(c, SockHand(s), Split(s), t, Stages(facts, h, ToSplit), h, KindsOn(ToSplit));
    PushElsewhere(Shift(c, SockHand(s), Split(s), t), b, t, Stages(facts, h, ToSplit), h, KindsOn(ToSplit));
  }

  lemma SplitWay(facts: Facts, s: Sock, b: Place, t: Token, h: Half)
    requires h in facts.halves && Parts(facts, s, b, t)
    ensures var path := Stages(facts, h, ToSplit);
            b !in path && (One(t, h, KindsOn(ToSplit)) != [] ==> Precedes(path, Split(s), SockHand(s)))
  {
    PrecedesAt(Stages(facts, h, ToSplit), 0, Split(SockOf(facts, h)), SockHand(SockOf(facts, h)));
    hide Precedes, KindsOn;
  }

  /** After the split, the packet is put on one way and at once is its newest. */
  lemma PartKeepsLaterWays(facts: Facts, c: Content, s: Sock, b: Place, t: Token, h: Half, r: Route)
    requires h in facts.halves && FlowOk(facts, c, h, r) && !FromReader(r)
    requires At(c, SockHand(s)) != [] && t == At(c, SockHand(s))[0] && Parts(facts, s, b, t)
    ensures FlowOk(facts, Part(c, s, b, t), h, r)
  {
    LaterWay(facts, s, b, t, h, r);
    WayShape(facts, h, r);
    PutOnByParting(facts, c, s, b, t, h, r);
    hide Flow, Distinct, Part, At, Stages, KindsOn, PutOn, One;
    PartOnPath(c, s, b, t, Stages(facts, h, r), h, KindsOn(r));
  }

  lemma PartOnPath(c: Content, s: Sock, b: Place, t: Token, path: seq<Place>, h: Half, ks: set<Kind>)
    requires At(c, SockHand(s)) != [] && t == At(c, SockHand(s))[0] && (b.Handled? || b.Upstream?)
    requires path != [] && Distinct(path) && forall p | p in path :: !p.SockHand? && !p.Split?
    requires b in path ==> path[|path| - 1] == b
    requires One(t, h, ks) != [] ==> b in path
    ensures Flow(Part(c, s, b, t), path, h, ks) == Flow(c, path, h, ks) + One(t, h, ks)
  {
    FramesOfPart(c, s, b, t, h, ks);
    hide Flow, Distinct, Part, At, Frames, One;
    forall p | p in path && p != b
      ensures At(Part(c, s, b, t), p) == At(c, p)
    {
      PartElsewhere(c, s, b, t, p);
    }
    FlowOfEntryAt(c, Part(c, s, b, t), path, b, One(t, h, ks), h, ks);
  }

  lemma PutOnByParting(facts: Facts, c: Content, s: Sock, b: Place, t: Token, h: Half, r: Route)
    requires h in facts.halves && !FromReader(r)
    requires At(c, SockHand(s)) != [] && t == At(c, SockHand(s))[0] && Parts(facts, s, b, t)
    ensures PutOn(facts, Part(c, s, b, t), h, r) == PutOn(facts, c, h, r) + One(t, h, KindsOn(r))
  {
    FramesOfPart(c, s, b, t, h, KindsOn(r));
    assert SockOf(facts, h) != s ==> One(t, h, KindsOn(r)) == [];
    if SockOf(facts, h) != s {
      PartElsewhere(c, s, b, t, Split(SockOf(facts, h)));
    }
    hide Part, At, Frames, KindsOn, One, Parts;
  }

  lemma LaterWay(facts: Facts, s: Sock, b: Place, t: Token, h: Half, r: Route)
    requires h in facts.halves && Parts(facts, s, b, t) && !FromReader(r)
    ensures var path := Stages(facts, h, r);
            && (One(t, h, KindsOn(r)) != [] ==> b in path)
            && (b in path ==> path[|path| - 1] == b)
            && (forall p | p in path :: !p.SockHand? && !p.Split?)
  {
    assert KindOf(FrameOf(t).value) == if IsControl(t) then Control else Payload;
  }

  lemma PartKeepsBeats(facts: Facts, c: Content, s: Sock, b: Place, t: Token, h: Half, r: Route)
    requires h in facts.halves && FlowOk(facts, c, h, r) && (r.ToAnswered? || r.ToHeard?)
    requires At(c, SockHand(s)) != [] && t == At(c, SockHand(s))[0] && (b.Handled? || b.Upstream?)
    ensures FlowOk(facts, Part(c, s, b, t), h, r)
  {
    assert forall p | p in Stages(facts, h, r) :: p == ReadHand(h) || p.Answered? || p.Heard?;
    hide Flow, Part, At, Frames, Stages, KindsOn;
    forall p | p in Stages(facts, h, r)
      ensures At(Part(c, s, b, t), p) == At(c, p)
    {
      PartElsewhere(c, s, b, t, p);
    }
    FlowElsewhere(c, Part(c, s, b, t), Stages(facts, h, r), h, KindsOn(r));
  }

  lemma PartKeepsFlows(facts: Facts, c: Content, s: Sock, b: Place, t: Token)
    requires Flows(facts, c)
    requires At(c, SockHand(s)) != [] && t == At(c, SockHand(s))[0] && Parts(facts, s, b, t)
    ensures Flows(facts, Part(c, s, b, t))
  {
    assert b.Handled? || b.Upstream?;
    hide FlowOk, Part, At, Parts;
    forall h, r | h in facts.halves
      ensures FlowOk(facts, Part(c, s, b, t), h, r)
    {
      if r.ToSplit? {
        PartKeepsSplitWay(facts, c, s, b, t, h);
      } else if !FromReader(r) {
        PartKeepsLaterWays(facts, c, s, b, t, h, r);
      } else {
        PartKeepsBeats(facts, c, s, b, t, h, r);
      }
    }
  }

  // ---------------------------------------------------------------- reading

  /** A decoded frame is in the reader's hand and at once the newest on its ways. */
  lemma ReadKeepsFlow(f: Facts, h: Half, frame: Frame, c: Content, g: Half, r: Route)
    requires g in f.halves && FlowOk(f, c, g, r)
    ensures FlowOk(WithDecoded(f, h, frame), Push(c, ReadHand(h), Framed(h, frame)), g, r)
  {
    PutOnByReading(f, h, frame, c, g, r);
    WayShape(f, g, r);
    hide Flow, Distinct, One, Stages, PutOn, KindsOn, Push, WithDecoded, FromReader;
    ReadOnPath(c, h, frame, Stages(f, g, r), g, KindsOn(r));
  }

  lemma ReadOnPath(c: Content, h: Half, frame: Frame, path: seq<Place>, g: Half, ks: set<Kind>)
    requires path != [] && Distinct(path)
    requires ReadHand(h) in path ==> path[|path| - 1] == ReadHand(h)
    ensures Flow(Push(c, ReadHand(h), Framed(h, frame)), path, g, ks)
            == Flow(c, path, g, ks) + (if ReadHand(h) in path then One(Framed(h, frame), g, ks) else [])
  {
    FramesOfPush(c, ReadHand(h), Framed(h, frame), g, ks);
    assert forall p :: p != ReadHand(h) ==> At(Push(c, ReadHand(h), Framed(h, frame)), p) == At(c, p);
    hide Flow, Distinct, One, At, Frames, Push;
    var entered := if ReadHand(h) in path then One(Framed(h, frame), g, ks) else [];
    FlowOfEntryAt(c, Push(c, ReadHand(h), Framed(h, frame)), path, ReadHand(h), entered, g, ks);
  }

  lemma PutOnByReading(f: Facts, h: Half, frame: Frame, c: Content, g: Half, r: Route)
    requires g in f.halves
    ensures var t := Framed(h, frame);
            && PutOn(WithDecoded(f, h, frame), Push(c, ReadHand(h), t), g, r)
               == PutOn(f, c, g, r) + (if g == h && FromReader(r) then One(t, g, KindsOn(r)) else [])
            && Stages(WithDecoded(f, h, frame), g, r) == Stages(f, g, r)
  {
    OfKindsOfConcat(DecodedOn(f, h), [frame], KindsOn(r));
    assert [frame][1..] == [];
    hide Frames, Flow, KindsOn;
  }
}
