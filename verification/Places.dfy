/**
 Tokens in places. Every stage of the delivery pipeline is a first-in-first-out place with
 one consumer: a bounded queue, the single value a task holds between receiving and sending
 ("in hand"), or a log. This module has the stages, what they hold, and the law that carries
 the proof: moving the oldest token one stage along a path keeps the path's contents in order.
 */
module Places {
  import opened Bytes
  import opened FrameCodec

  type Host = nat
  type Half = nat
  type Client = nat

  /** The tuple (Identifier, u16, u16, Bytes) that the queues between the tasks carry. */
  datatype Packet = Packet(host: Host, srcPort: u16, dstPort: u16, data: seq<u8>)

  /** A transport socket of a host. */
  datatype Sock = Sock(host: Host, index: nat)

  datatype Place =
    | ClientHand(client: Client)   // read task of a local client
    | UnixQueue(host: Host)        // queue from the clients to the forwarder, 5
    | UnixHand(host: Host)         // forwarder towards the network
    | Forwarded(host: Host)        // log of what it has sent on or dropped
    | Entered(half: Half)          // log of everything put into a connection's sink
    | Sink(half: Half)             // a connection's sink, 10
    | WriteHand(half: Half)        // write task
    | Wire(half: Half)             // frames whose bytes are under way
    | Lost(half: Half)             // log of frames the wire lost whole
    | Passed(half: Half)           // log of frames whose bytes the reader has taken off the wire
    | ReadHand(half: Half)         // the peer's read task
    | Answered(half: Half)         // log of pings answered there
    | Heard(half: Half)            // log of pongs received there
    | SockQueue(sock: Sock)        // per-socket queue, 10
    | SockHand(sock: Sock)         // task delivering for the socket
    | Split(sock: Sock)            // log of data frames in the order the two kinds part
    | Handled(sock: Sock)          // log of control messages processed
    | Upstream(host: Host)         // queue from the network to the forwarder, 5
    | NetHand(host: Host)          // forwarder towards the clients, before the lookup
    | Tabled(host: Host)           // log of packets handed to the port table
    | Chosen(host: Host)           // the same forwarder, after the lookup
    | ClientQueue(client: Client)  // queue of a bound client, 10
    | Received(client: Client)     // log of what a client got

  /** What a token is at its stage; `via` remembers the connection direction it came over. */
  datatype Token =
    | Outgoing(client: Client, packet: Packet)
    | Settled(client: Client, packet: Packet, over: Option<Half>)
    | Framed(via: Half, frame: Frame)
    | Incoming(via: Half, packet: Packet)
    | Resolved(via: Half, client: Client, packet: Packet)
    | Local(via: Half, host: Host, port: u16, data: seq<u8>)

  type Content = map<Place, seq<Token>>

  datatype Kind = Payload | Control | PingKind | PongKind

  function KindOf(frame: Frame): Kind {
    match frame
    case Ping => PingKind
    case Pong => PongKind
    case Data(srcPort, dstPort, _) => if srcPort == 0 && dstPort == 0 then Control else Payload
  }

  /** The bound of a place, where it has one. */
  function Capacity(p: Place): Option<nat> {
    match p
    case UnixQueue(_) => Some(5)
    case Upstream(_) => Some(5)
    case Sink(_) => Some(10)
    case SockQueue(_) => Some(10)
    case ClientQueue(_) => Some(10)
    case ClientHand(_) => Some(1)
    case UnixHand(_) => Some(1)
    case WriteHand(_) => Some(1)
    case ReadHand(_) => Some(1)
    case SockHand(_) => Some(1)
    case NetHand(_) => Some(1)
    case Chosen(_) => Some(1)
    case _ => None
  }

  function At(c: Content, p: Place): seq<Token> {
    if p in c then c[p] else []
  }

  predicate Room(c: Content, p: Place) {
    Capacity(p).Some? ==> |At(c, p)| < Capacity(p).value
  }

  ghost predicate Bounded(c: Content) {
    forall p | p in c :: Capacity(p).Some? ==> |c[p]| <= Capacity(p).value
  }

  function Push(c: Content, p: Place, t: Token): Content {
    c[p := At(c, p) + [t]]
  }

  function Pop(c: Content, p: Place): Content
    requires At(c, p) != []
  {
    c[p := At(c, p)[1..]]
  }

  /** Take the oldest token of `a`, put `t` (what the stage makes of it) at the end of `b`. */
  function Shift(c: Content, a: Place, b: Place, t: Token): Content
    requires At(c, a) != []
  {
    Push(Pop(c, a), b, t)
  }

  /** The frame a token carries on a connection, once it is on one. */
  function FrameOf(t: Token): Option<Frame> {
    match t
    case Framed(_, frame) => Some(frame)
    case Incoming(_, packet) => Some(Data(packet.srcPort, packet.dstPort, packet.data))
    case _ => None
  }

  predicate Counts(t: Token, h: Half, ks: set<Kind>) {
    FrameOf(t).Some? && t.via == h && KindOf(FrameOf(t).value) in ks
  }

  /** The frames of some kinds from one connection direction among some tokens, oldest first. */
  function Frames(ts: seq<Token>, h: Half, ks: set<Kind>): seq<Frame> {
    if ts == [] then []
    else One(ts[0], h, ks) + Frames(ts[1..], h, ks)
  }

  function One(t: Token, h: Half, ks: set<Kind>): seq<Frame> {
    if Counts(t, h, ks) then [FrameOf(t).value] else []
  }

  /** The same along a whole path, whose first place is the farthest on. */
  function Flow(c: Content, path: seq<Place>, h: Half, ks: set<Kind>): seq<Frame> {
    if path == [] then [] else Frames(At(c, path[0]), h, ks) + Flow(c, path[1..], h, ks)
  }

  ghost predicate Distinct(path: seq<Place>) {
    forall i, j :: 0 <= i < j < |path| ==> path[i] != path[j]
  }

  /** `b` is the place right after `a` on the way, so right before it in the list. */
  ghost predicate Precedes(path: seq<Place>, b: Place, a: Place) {
    exists i: nat :: i + 1 < |path| && path[i] == b && path[i + 1] == a
  }

  // ---------------------------------------------------------------- laws

  lemma {:induction false} FramesOfConcat(ts: seq<Token>, us: seq<Token>, h: Half, ks: set<Kind>)
    ensures Frames(ts + us, h, ks) == Frames(ts, h, ks) + Frames(us, h, ks)
  {
    hide Counts, FrameOf;
    if ts == [] {
      assert ts + us == us;
    } else {
      assert (ts + us)[1..] == ts[1..] + us;
      FramesOfConcat(ts[1..], us, h, ks);
      Associate(One(ts[0], h, ks), Frames(ts[1..], h, ks), Frames(us, h, ks));
    }
  }

  lemma FramesOfPush(c: Content, p: Place, t: Token, h: Half, ks: set<Kind>)
    ensures Frames(At(Push(c, p, t), p), h, ks) == Frames(At(c, p), h, ks) + One(t, h, ks)
  {
    hide Counts, FrameOf;
    FramesOfConcat(At(c, p), [t], h, ks);
    assert [t][1..] == [];
  }

  lemma {:induction false} FlowUnchanged(c: Content, c': Content, path: seq<Place>, h: Half, ks: set<Kind>)
    requires forall p | p in path :: Frames(At(c, p), h, ks) == Frames(At(c', p), h, ks)
    ensures Flow(c, path, h, ks) == Flow(c', path, h, ks)
  {
    if path != [] {
      FlowUnchanged(c, c', path[1..], h, ks);
    }
  }

  /** A frame that leaves one place and joins the next one on keeps its position in the flow. */
  lemma {:induction false} FlowOfMove(c: Content, c': Content,
                                      path: seq<Place>, i: nat, moved: seq<Frame>, h: Half, ks: set<Kind>)
    requires i + 1 < |path| && Distinct(path)
    requires Frames(At(c', path[i]), h, ks) == Frames(At(c, path[i]), h, ks) + moved
    requires moved + Frames(At(c', path[i + 1]), h, ks) == Frames(At(c, path[i + 1]), h, ks)
    requires forall j :: 0 <= j < |path| && j != i && j != i + 1 ==>
               Frames(At(c, path[j]), h, ks) == Frames(At(c', path[j]), h, ks)
    ensures Flow(c, path, h, ks) == Flow(c', path, h, ks)
  {
    hide At, Frames;
    if i > 0 {
      FlowOfMove(c, c', path[1..], i - 1, moved, h, ks);
    } else {
      var later := path[1..][1..];
      var ahead, rest := Frames(At(c, path[0]), h, ks), Flow(c, later, h, ks);
      var behind := Frames(At(c', path[1]), h, ks);
      Associate(moved, behind, rest);
      Associate(ahead, moved, behind + rest);
      forall p | p in later
        ensures Frames(At(c, p), h, ks) == Frames(At(c', p), h, ks)
      {
        var j :| 0 <= j < |later| && later[j] == p;
        assert p == path[j + 2];
      }
      FlowUnchanged(c, c', later, h, ks);
    }
  }

  lemma {:induction false} FlowOfEntry(c: Content, c': Content,
                                       path: seq<Place>, entered: seq<Frame>, h: Half, ks: set<Kind>)
    requires path != [] && Distinct(path)
    requires var last := path[|path| - 1];
             Frames(At(c', last), h, ks) == Frames(At(c, last), h, ks) + entered
    requires forall j :: 0 <= j < |path| - 1 ==> Frames(At(c, path[j]), h, ks) == Frames(At(c', path[j]), h, ks)
    ensures Flow(c', path, h, ks) == Flow(c, path, h, ks) + entered
  {
    hide At, Frames;
    if |path| > 1 {
      FlowOfEntry(c, c', path[1..], entered, h, ks);
      Associate(Frames(At(c, path[0]), h, ks), Flow(c, path[1..], h, ks), entered);
    } else {
      assert path[1..] == [];
    }
  }

  /** Frames that come to one place only are the newest of the path that starts there. */
  lemma FlowOfEntryAt(c: Content, c': Content, path: seq<Place>, b: Place, entered: seq<Frame>, h: Half, ks: set<Kind>)
    requires path != [] && Distinct(path)
    requires forall p: Place | p in path && p != b :: At(c', p) == At(c, p)
    requires b in path ==> path[|path| - 1] == b
    requires if b in path then Frames(At(c', b), h, ks) == Frames(At(c, b), h, ks) + entered else entered == []
    ensures Flow(c', path, h, ks) == Flow(c, path, h, ks) + entered
  {
    if b in path {
      assert forall j | 0 <= j < |path| - 1 :: path[j] != b;
      hide Flow, At, Frames;
      FlowOfEntry(c, c', path, entered, h, ks);
    } else {
      hide Flow, Distinct, At, Frames;
      FlowElsewhere(c, c', path, h, ks);
    }
  }

  lemma FramesOfShift(c: Content, a: Place, b: Place, t: Token, h: Half, ks: set<Kind>)
    requires a != b && At(c, a) != []
    requires One(t, h, ks) == One(At(c, a)[0], h, ks)
    ensures var c' := Shift(c, a, b, t);
            && Frames(At(c', b), h, ks) == Frames(At(c, b), h, ks) + One(t, h, ks)
            && Frames(At(c, a), h, ks) == One(t, h, ks) + Frames(At(c', a), h, ks)
            && forall p :: p != a && p != b ==> At(c', p) == At(c, p)
  {
    hide One, Counts, FrameOf;
    FramesOfPush(Pop(c, a), b, t, h, ks);
  }

  /**
   Moving the oldest token from a place to the one before it on the path keeps the flow, whichever
   connection it is of.
   */
  lemma ShiftKeepsFlow(c: Content, a: Place, b: Place, t: Token, path: seq<Place>, h: Half, ks: set<Kind>)
    requires Distinct(path) && a != b && At(c, a) != []
    requires One(t, h, ks) == One(At(c, a)[0], h, ks)
    requires One(t, h, ks) != [] ==> Precedes(path, b, a)
    ensures Flow(Shift(c, a, b, t), path, h, ks) == Flow(c, path, h, ks)
  {
    hide One, Counts, FrameOf, Flow, Shift, At, Frames;
    var c' := Shift(c, a, b, t);
    FramesOfShift(c, a, b, t, h, ks);
    if One(t, h, ks) == [] {
      hide Distinct, Precedes;
      assert Frames(At(c', b), h, ks) == Frames(At(c, b), h, ks);
      assert Frames(At(c', a), h, ks) == Frames(At(c, a), h, ks);
      FlowUnchanged(c, c', path, h, ks);
    } else {
      var i: nat :| i + 1 < |path| && path[i] == b && path[i + 1] == a;
      OthersApart(path, i);
      hide Distinct, Precedes;
      FlowOfMove(c, c', path, i, One(t, h, ks), h, ks);
    }
  }

  /** The same, also when neither place is on the path. */
  lemma ShiftOnOrOffKeepsFlow(c: Content, a: Place, b: Place, t: Token, path: seq<Place>, h: Half, ks: set<Kind>)
    requires Distinct(path) && a != b && At(c, a) != []
    requires One(t, h, ks) == One(At(c, a)[0], h, ks)
    requires One(t, h, ks) != [] ==> Precedes(path, b, a) || (a !in path && b !in path)
    ensures Flow(Shift(c, a, b, t), path, h, ks) == Flow(c, path, h, ks)
  {
    hide Distinct, Precedes, Flow, One;
    if One(t, h, ks) != [] && a !in path && b !in path {
      ShiftElsewhere(c, a, b, t);
      hide Shift, At;
      FlowElsewhere(c, Shift(c, a, b, t), path, h, ks);
    } else {
      hide Shift, At;
      ShiftKeepsFlow(c, a, b, t, path, h, ks);
    }
  }

  lemma ShiftAt(c: Content, a: Place, b: Place, t: Token)
    requires At(c, a) != [] && a != b
    ensures At(Shift(c, a, b, t), a) == At(c, a)[1..] && At(Shift(c, a, b, t), b) == At(c, b) + [t]
  {
  }

  lemma ShiftElsewhere(c: Content, a: Place, b: Place, t: Token)
    requires At(c, a) != []
    ensures forall p: Place :: p != a && p != b ==> At(Shift(c, a, b, t), p) == At(c, p)
  {
  }

  lemma OthersApart(path: seq<Place>, i: nat)
    requires Distinct(path) && i + 1 < |path|
    ensures forall j :: 0 <= j < |path| && j != i && j != i + 1 ==> path[j] != path[i] && path[j] != path[i + 1]
  {
  }

  /** Changes to places off the path do not matter. */
  lemma FlowElsewhere(c: Content, c': Content, path: seq<Place>, h: Half, ks: set<Kind>)
    requires forall p | p in path :: At(c, p) == At(c', p)
    ensures Flow(c, path, h, ks) == Flow(c', path, h, ks)
  {
    FlowUnchanged(c, c', path, h, ks);
  }

  lemma PushElsewhere(c: Content, p: Place, t: Token, path: seq<Place>, h: Half, ks: set<Kind>)
    requires p !in path
    ensures Flow(Push(c, p, t), path, h, ks) == Flow(c, path, h, ks)
  {
    FlowElsewhere(c, Push(c, p, t), path, h, ks);
  }

  // ---------------------------------------------------------------- selecting kinds

  /** The frames of some kinds among some frames, in order. */
  function OfKinds(frames: seq<Frame>, ks: set<Kind>): seq<Frame> {
    if frames == [] then []
    else (if KindOf(frames[0]) in ks then [frames[0]] else []) + OfKinds(frames[1..], ks)
  }

  /** The frames of some tokens on a connection, of all kinds. */
  function Carried(ts: seq<Token>): seq<Frame> {
    if ts == [] then [] else (if ts[0].Framed? then [ts[0].frame] else []) + Carried(ts[1..])
  }

  lemma {:induction false} OfKindsOfConcat(a: seq<Frame>, b: seq<Frame>, ks: set<Kind>)
    ensures OfKinds(a + b, ks) == OfKinds(a, ks) + OfKinds(b, ks)
  {
    hide KindOf;
    if a == [] {
      assert a + b == b;
    } else {
      assert (a + b)[1..] == a[1..] + b;
      OfKindsOfConcat(a[1..], b, ks);
      Associate(if KindOf(a[0]) in ks then [a[0]] else [], OfKinds(a[1..], ks), OfKinds(b, ks));
    }
  }

  lemma {:induction false} OfKindsTwice(frames: seq<Frame>, ks: set<Kind>, fewer: set<Kind>)
    requires fewer <= ks
    ensures OfKinds(OfKinds(frames, ks), fewer) == OfKinds(frames, fewer)
  {
    if frames != [] {
      OfKindsTwice(frames[1..], ks, fewer);
      OfKindsOfConcat(if KindOf(frames[0]) in ks then [frames[0]] else [], OfKinds(frames[1..], ks), fewer);
      assert [frames[0]][1..] == [];
    }
  }

  lemma {:induction false} CarriedOfConcat(ts: seq<Token>, us: seq<Token>)
    ensures Carried(ts + us) == Carried(ts) + Carried(us)
  {
    if ts == [] {
      assert ts + us == us;
    } else {
      assert (ts + us)[1..] == ts[1..] + us;
      CarriedOfConcat(ts[1..], us);
      Associate(if ts[0].Framed? then [ts[0].frame] else [], Carried(ts[1..]), Carried(us));
    }
  }

  /** Fewer kinds are selected from what was selected already. */
  lemma {:induction false} FramesNarrow(ts: seq<Token>, h: Half, ks: set<Kind>, fewer: set<Kind>)
    requires fewer <= ks
    ensures Frames(ts, h, fewer) == OfKinds(Frames(ts, h, ks), fewer)
  {
    if ts != [] {
      FramesNarrow(ts[1..], h, ks, fewer);
      OfKindsOfConcat(One(ts[0], h, ks), Frames(ts[1..], h, ks), fewer);
      OneNarrow(ts[0], h, ks, fewer);
    }
  }

  lemma OneNarrow(t: Token, h: Half, ks: set<Kind>, fewer: set<Kind>)
    requires fewer <= ks
    ensures One(t, h, fewer) == OfKinds(One(t, h, ks), fewer)
  {
    if Counts(t, h, ks) {
      assert [FrameOf(t).value][1..] == [];
    }
  }

  lemma {:induction false} FlowNarrow(c: Content, path: seq<Place>, h: Half, ks: set<Kind>, fewer: set<Kind>)
    requires fewer <= ks
    ensures Flow(c, path, h, fewer) == OfKinds(Flow(c, path, h, ks), fewer)
  {
    hide Frames, At;
    if path != [] {
      FlowNarrow(c, path[1..], h, ks, fewer);
      FramesNarrow(At(c, path[0]), h, ks, fewer);
      OfKindsOfConcat(Frames(At(c, path[0]), h, ks), Flow(c, path[1..], h, ks), fewer);
    }
  }

  lemma {:induction false} FlowOfConcat(c: Content, far: seq<Place>, near: seq<Place>, h: Half, ks: set<Kind>)
    ensures Flow(c, far + near, h, ks) == Flow(c, far, h, ks) + Flow(c, near, h, ks)
  {
    hide Frames, At;
    if far == [] {
      assert far + near == near;
    } else {
      assert (far + near)[1..] == far[1..] + near;
      FlowOfConcat(c, far[1..], near, h, ks);
    }
  }

  /** On a connection's own places its frames are all there is. */
  lemma {:induction false} FramesOfCarried(ts: seq<Token>, h: Half, ks: set<Kind>)
    requires forall t | t in ts :: t.Framed? && t.via == h
    ensures Frames(ts, h, ks) == OfKinds(Carried(ts), ks)
  {
    if ts != [] {
      assert ts[0] in ts && forall t | t in ts[1..] :: t in ts;
      FramesOfCarried(ts[1..], h, ks);
      OfKindsOfConcat([ts[0].frame], Carried(ts[1..]), ks);
      assert [ts[0].frame][1..] == [];
    }
  }
}
