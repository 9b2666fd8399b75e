/**
 The delivery pipeline of any number of daemons as a step system: what a client sends on one
 host passes, stage by stage, to a client on another. Receiving and sending are separate
 steps, so every interleaving of the tasks is a run. Between two hosts the frames travel as
 bytes, cut anywhere, and are decoded again; whole frames may be lost there.
 */
module Pipeline {
  import opened Bytes
  import opened FrameCodec
  import opened FrameStream
  import opened Places

  /**
   One direction of a connection. `origin` is the label its read task puts on everything it
   delivers, `target` the identifier the sending side opened or registered it under, and
   `back` the other direction.
   */
  datatype HalfInfo = HalfInfo(origin: Host, target: Host, sock: nat, back: Half)

  datatype ClientInfo = ClientInfo(host: Host, port: u16)

  /**
   What is known and never changes once it is: connections, bound clients, what they sent, and what
   each read task has decoded.
   */
  datatype Facts = Facts(
    halves: map<Half, HalfInfo>,
    clients: map<Client, ClientInfo>,
    accepted: map<Client, seq<Packet>>,
    decoded: map<Half, seq<Frame>>)

  /** Bytes under way and bytes in the reader's buffer. */
  datatype Stream = Stream(unread: seq<u8>, buffer: seq<u8>)

  datatype World = World(
    facts: Facts,
    table: map<(Host, u16), Client>,
    closed: set<Client>,
    content: Content,
    streams: map<Half, Stream>)

  const START := World(Facts(map[], map[], map[], map[]), map[], {}, map[], map[])

  datatype Action =
    | Open(h: Half, back: Half, one: Host, other: Host, oneSock: nat, otherSock: nat)
    | Bind(c: Client, host: Host, port: u16)
    | Accept(c: Client, to: Host, toPort: u16, data: seq<u8>)
    | Submit(c: Client)
    | TakeUnix(host: Host)
    | SendFrame(host: Host, h: Half)
    | DropUnsent(host: Host)
    | SendControl(h: Half, data: seq<u8>)
    | SendPing(h: Half)
    | TakeSink(h: Half)
    | WriteFrame(h: Half)
    | Lose(h: Half)
    | Carry(h: Half, count: nat)
    | ReadFrame(h: Half)
    | Answer(h: Half)
    | Hear(h: Half)
    | Forward(h: Half)
    | TakeSock(sock: Sock)
    | Process(sock: Sock)
    | PassUp(sock: Sock)
    | TakeUp(host: Host)
    | Lookup(host: Host)
    | Deliver(host: Host)
    | DropDelivery(host: Host)
    | Receive(c: Client)
    | CloseClient(c: Client)

  function StreamOf(w: World, h: Half): Stream {
    if h in w.streams then w.streams[h] else Stream([], [])
  }

  /** The frames the read task of this direction has decoded, in order. */
  function DecodedOn(facts: Facts, h: Half): seq<Frame> {
    if h in facts.decoded then facts.decoded[h] else []
  }

  /** The packets read from a client, in order. */
  function AcceptedFrom(facts: Facts, c: Client): seq<Packet> {
    if c in facts.accepted then facts.accepted[c] else []
  }

  function WithAccepted(facts: Facts, c: Client, packet: Packet): Facts {
    facts.(accepted := facts.accepted[c := AcceptedFrom(facts, c) + [packet]])
  }

  function WithDecoded(facts: Facts, h: Half, frame: Frame): Facts {
    facts.(decoded := facts.decoded[h := DecodedOn(facts, h) + [frame]])
  }

  function SockOf(facts: Facts, h: Half): Sock
    requires h in facts.halves
  {
    Sock(facts.halves[h].target, facts.halves[h].sock)
  }

  /** Putting a frame into a connection's sink, as `send_frame` and `send_data_frame` do. */
  function Enter(c: Content, h: Half, frame: Frame): Content {
    Push(Push(c, Sink(h), Framed(h, frame)), Entered(h), Framed(h, frame))
  }

  /** One task moves its oldest token on, when there is one and there is room. */
  function Move(w: World, a: Place, b: Place, t: Token): Option<World>
    requires At(w.content, a) != []
  {
    if Room(w.content, b) then Some(w.(content := Shift(w.content, a, b, t))) else None
  }

  /** The packet a read task makes of a data frame: it adds the connection's label. */
  function Labelled(facts: Facts, h: Half, frame: Frame): Token
    requires h in facts.halves && frame.Data?
  {
    Incoming(h, Packet(facts.halves[h].origin, frame.srcPort, frame.dstPort, frame.data))
  }

  predicate IsControl(t: Token)
    requires t.Incoming?
  {
    t.packet.srcPort == 0 && t.packet.dstPort == 0
  }

  // ---------------------------------------------------------------- steps

  /** A connection is opened between two hosts; each end is labelled with the host at the other. */
  function DoOpen(w: World, h: Half, back: Half, one: Host, other: Host, oneSock: nat, otherSock: nat): Option<World> {
    if h in w.facts.halves || back in w.facts.halves || h == back then None
    else
      var halves := w.facts.halves[h := HalfInfo(one, other, otherSock, back)];
      var both := halves[back := HalfInfo(other, one, oneSock, h)];
      Some(w.(facts := w.facts.(halves := both)))
  }

  /** A client binds a port; whoever was bound to it before is no longer found. */
  function DoBind(w: World, c: Client, host: Host, port: u16): Option<World> {
    if c in w.facts.clients || c in w.closed then None
    else
      var clients := w.facts.clients[c := ClientInfo(host, port)];
      Some(w.(facts := w.facts.(clients := clients), table := w.table[(host, port) := c]))
  }

  /** A client's read task takes a data frame and adds the port the client is bound to. */
  function DoAccept(w: World, c: Client, to: Host, toPort: u16, data: seq<u8>): Option<World> {
    if c !in w.facts.clients || !Room(w.content, ClientHand(c)) then None
    else
      var packet := Packet(to, w.facts.clients[c].port, toPort, data);
      Some(w.(facts := WithAccepted(w.facts, c, packet),
              content := Push(w.content, ClientHand(c), Outgoing(c, packet))))
  }

  function DoSubmit(w: World, c: Client): Option<World> {
    var hand := At(w.content, ClientHand(c));
    if hand == [] || c !in w.facts.clients then None
    else Move(w, ClientHand(c), UnixQueue(w.facts.clients[c].host), hand[0])
  }

  function DoTakeUnix(w: World, n: Host): Option<World> {
    var queue := At(w.content, UnixQueue(n));
    if queue == [] then None else Move(w, UnixQueue(n), UnixHand(n), queue[0])
  }

  /** The forwarder sends on a connection registered under, or opened for, the packet's host. */
  function DoSendFrame(w: World, n: Host, h: Half): Option<World> {
    var hand := At(w.content, UnixHand(n));
    if hand == [] || h !in w.facts.halves || !hand[0].Outgoing? || !Room(w.content, Sink(h)) then None
    else if w.facts.halves[h].origin != n || w.facts.halves[h].target != hand[0].packet.host then None
    else
      var Packet(_, srcPort, dstPort, data) := hand[0].packet;
      Some(w.(content := Enter(Settle(w.content, n, Some(h)), h, Data(srcPort, dstPort, data))))
  }

  /** The forwarder is done with the packet in its hand: it was sent over a connection, or dropped. */
  function Settle(c: Content, n: Host, over: Option<Half>): Content
    requires At(c, UnixHand(n)) != [] && At(c, UnixHand(n))[0].Outgoing?
  {
    var Outgoing(client, packet) := At(c, UnixHand(n))[0];
    Shift(c, UnixHand(n), Forwarded(n), Settled(client, packet, over))
  }

  /** No connection can be had: the packet is dropped before it enters one. */
  function DoDropUnsent(w: World, n: Host): Option<World> {
    var hand := At(w.content, UnixHand(n));
    if hand == [] || !hand[0].Outgoing? then None
    else Some(w.(content := Settle(w.content, n, None)))
  }

  /** Control messages, pings and pongs enter a connection's sink from other tasks. */
  function DoEnter(w: World, h: Half, frame: Frame): Option<World> {
    if h !in w.facts.halves || !Room(w.content, Sink(h)) then None
    else Some(w.(content := Enter(w.content, h, frame)))
  }

  function DoTakeSink(w: World, h: Half): Option<World> {
    var queue := At(w.content, Sink(h));
    if queue == [] then None else Move(w, Sink(h), WriteHand(h), queue[0])
  }

  function DoWriteFrame(w: World, h: Half): Option<World> {
    var hand := At(w.content, WriteHand(h));
    if hand == [] || !hand[0].Framed? then None
    else
      var stream := StreamOf(w, h);
      Some(w.(content := Shift(w.content, WriteHand(h), Wire(h), hand[0]),
              streams := w.streams[h := stream.(unread := stream.unread + Encoding(hand[0].frame))]))
  }

  /** The transport delivers some more bytes, in order. */
  function DoCarry(w: World, h: Half, count: nat): Option<World> {
    var Stream(unread, buffer) := StreamOf(w, h);
    if count > |unread| then None
    else Some(w.(streams := w.streams[h := Stream(unread[count..], buffer + unread[..count])]))
  }

  /** A frame written whole may be lost whole. */
  function DoLose(w: World, h: Half): Option<World> {
    var hand := At(w.content, WriteHand(h));
    if hand == [] then None
    else Some(w.(content := Shift(w.content, WriteHand(h), Lost(h), hand[0])))
  }

  /** The read task decodes whatever frame the buffer holds; the frame under way is only a record of what was sent. */
  function DoReadFrame(w: World, h: Half): Option<World> {
    var parsed := Parse(StreamOf(w, h).buffer);
    if h !in w.facts.halves || !Room(w.content, ReadHand(h)) || !parsed.Got? then None
    else
      Some(w.(facts := WithDecoded(w.facts, h, parsed.frame),
              content := Push(TakeOff(w.content, h), ReadHand(h), Framed(h, parsed.frame)),
              streams := w.streams[h := StreamOf(w, h).(buffer := parsed.rest)]))
  }

  /** The oldest frame under way, if any, counts as passed. */
  function TakeOff(c: Content, h: Half): Content {
    var wire := At(c, Wire(h));
    if wire == [] then c else Shift(c, Wire(h), Passed(h), wire[0])
  }

  predicate Reads(w: World, h: Half, k: Kind) {
    var hand := At(w.content, ReadHand(h));
    h in w.facts.halves && hand != [] && hand[0].Framed? &&
    (k == KindOf(hand[0].frame) || (k == Payload && KindOf(hand[0].frame) == Control))
  }

  /** A ping is answered on the connection itself, in the other direction. */
  function DoAnswer(w: World, h: Half): Option<World> {
    if !Reads(w, h, PingKind) then None
    else
      var answered := Shift(w.content, ReadHand(h), Answered(h), At(w.content, ReadHand(h))[0]);
      DoEnter(w.(content := answered), w.facts.halves[h].back, Pong)
  }

  function DoHear(w: World, h: Half): Option<World> {
    if !Reads(w, h, PongKind) then None
    else Move(w, ReadHand(h), Heard(h), At(w.content, ReadHand(h))[0])
  }

  function DoForward(w: World, h: Half): Option<World> {
    if !Reads(w, h, Payload) then None
    else
      var frame := At(w.content, ReadHand(h))[0].frame;
      Move(w, ReadHand(h), SockQueue(SockOf(w.facts, h)), Labelled(w.facts, h, frame))
  }

  function DoTakeSock(w: World, s: Sock): Option<World> {
    var queue := At(w.content, SockQueue(s));
    if queue == [] then None else Move(w, SockQueue(s), SockHand(s), queue[0])
  }

  /** Packets from port 0 to port 0 are control messages and stay in the network layer. */
  function DoProcess(w: World, s: Sock): Option<World> {
    var hand := At(w.content, SockHand(s));
    if hand == [] || !hand[0].Incoming? || !IsControl(hand[0]) then None
    else Some(w.(content := Push(Shift(w.content, SockHand(s), Split(s), hand[0]), Handled(s), hand[0])))
  }

  function DoPassUp(w: World, s: Sock): Option<World> {
    var hand := At(w.content, SockHand(s));
    if hand == [] || !hand[0].Incoming? || IsControl(hand[0]) || !Room(w.content, Upstream(s.host)) then None
    else Some(w.(content := Push(Shift(w.content, SockHand(s), Split(s), hand[0]), Upstream(s.host), hand[0])))
  }

  function DoTakeUp(w: World, n: Host): Option<World> {
    var queue := At(w.content, Upstream(n));
    if queue == [] || At(w.content, Chosen(n)) != [] then None
    else Move(w, Upstream(n), NetHand(n), queue[0])
  }

  /** The port table is read once; without a binder the packet is dropped. */
  function DoLookup(w: World, n: Host): Option<World> {
    var hand := At(w.content, NetHand(n));
    if hand == [] || !hand[0].Incoming? || !Room(w.content, Chosen(n)) then None
    else
      var tabled := Shift(w.content, NetHand(n), Tabled(n), hand[0]);
      var key := (n, hand[0].packet.dstPort);
      if key !in w.table then Some(w.(content := tabled))
      else Some(w.(content := Push(tabled, Chosen(n), Resolved(hand[0].via, w.table[key], hand[0].packet))))
  }

  function DoDeliver(w: World, n: Host): Option<World> {
    var hand := At(w.content, Chosen(n));
    if hand == [] || !hand[0].Resolved? || hand[0].client in w.closed then None
    else
      var Packet(host, srcPort, _, data) := hand[0].packet;
      Move(w, Chosen(n), ClientQueue(hand[0].client), Local(hand[0].via, host, srcPort, data))
  }

  /** The client's queue has lost its receiver: the send fails. */
  function DoDropDelivery(w: World, n: Host): Option<World> {
    var hand := At(w.content, Chosen(n));
    if hand == [] || !hand[0].Resolved? || hand[0].client !in w.closed then None
    else Some(w.(content := Pop(w.content, Chosen(n))))
  }

  function DoReceive(w: World, c: Client): Option<World> {
    var queue := At(w.content, ClientQueue(c));
    if queue == [] then None else Move(w, ClientQueue(c), Received(c), queue[0])
  }

  /** What an action makes of a world, when it is enabled there. */
  function Next(w: World, a: Action): Option<World> {
    match a
    case Open(h, back, one, other, oneSock, otherSock) => DoOpen(w, h, back, one, other, oneSock, otherSock)
    case Bind(c, host, port) => DoBind(w, c, host, port)
    case Accept(c, to, toPort, data) => DoAccept(w, c, to, toPort, data)
    case Submit(c) => DoSubmit(w, c)
    case TakeUnix(n) => DoTakeUnix(w, n)
    case SendFrame(n, h) => DoSendFrame(w, n, h)
    case DropUnsent(n) => DoDropUnsent(w, n)
    case SendControl(h, data) => DoEnter(w, h, Data(0, 0, data))
    case SendPing(h) => DoEnter(w, h, Ping)
    case TakeSink(h) => DoTakeSink(w, h)
    case WriteFrame(h) => DoWriteFrame(w, h)
    case Lose(h) => DoLose(w, h)
    case Carry(h, count) => DoCarry(w, h, count)
    case ReadFrame(h) => DoReadFrame(w, h)
    case Answer(h) => DoAnswer(w, h)
    case Hear(h) => DoHear(w, h)
    case Forward(h) => DoForward(w, h)
    case TakeSock(s) => DoTakeSock(w, s)
    case Process(s) => DoProcess(w, s)
    case PassUp(s) => DoPassUp(w, s)
    case TakeUp(n) => DoTakeUp(w, n)
    case Lookup(n) => DoLookup(w, n)
    case Deliver(n) => DoDeliver(w, n)
    case DropDelivery(n) => DoDropDelivery(w, n)
    case Receive(c) => DoReceive(w, c)
    case CloseClient(c) => if c in w.facts.clients then Some(w.(closed := w.closed + {c})) else None
  }

  /** What the tasks of a connection do between its sinks and its sockets. */
  predicate OnLink(a: Action) {
    a.TakeSink? || a.WriteFrame? || a.Lose? || a.Carry? || a.ReadFrame? || a.Answer? || a.Hear? || a.Forward?
  }

  /** A run: every action enabled in turn. */
  function Run(w: World, actions: seq<Action>): Option<World>
    decreases |actions|
  {
    if actions == [] then Some(w)
    else
      var next := Next(w, actions[0]);
      if next.None? then None else Run(next.value, actions[1..])
  }

  /** Reachable from the empty world by some run. */
  ghost predicate Reachable(w: World) {
    exists actions :: Run(START, actions) == Some(w)
  }
}
