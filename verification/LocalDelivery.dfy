/**
 The pipeline and the port table together: what any run of the pipeline does to the clients
 of one host is a run of that host's port table, so each binder of a port gets a prefix of
 its own block of what reached the host.
 */
module LocalDelivery {
  import opened Bytes
  import opened FrameCodec
  import opened FrameStream
  import opened Places
  import opened Pipeline
  import opened PipelineSafety
  import opened PipelineRuns
  import PortTable

  function ForTable(packet: Packet): PortTable.Packet {
    PortTable.Packet(packet.host, packet.srcPort, packet.dstPort, packet.data)
  }

  /** Local tokens as the frames the client sees. */
  function Shown(ts: seq<Token>): seq<PortTable.Frame> {
    seq(|ts|, i requires 0 <= i < |ts| =>
      if ts[i].Local? then PortTable.Frame(ts[i].host, ts[i].port, ts[i].data) else PortTable.Frame(0, 0, []))
  }

  function BinderOf(w: World, c: Client): PortTable.Binder
    requires c in w.facts.clients
  {
    PortTable.Binder(w.facts.clients[c].port, Shown(At(w.content, Received(c))), Shown(At(w.content, ClientQueue(c))),
                     c !in w.closed)
  }

  function ForwarderOf(w: World, n: Host): PortTable.Forwarder {
    var chosen := At(w.content, Chosen(n));
    if chosen == [] || !chosen[0].Resolved? then PortTable.Idle
    else PortTable.Delivering(ForTable(chosen[0].packet), chosen[0].client)
  }

  function TableOf(w: World, n: Host): map<u16, Client> {
    map p: u16 | (n, p) in w.table :: w.table[(n, p)]
  }

  function BindersOf(w: World, n: Host): map<Client, PortTable.Binder> {
    map c | c in w.facts.clients && w.facts.clients[c].host == n :: BinderOf(w, c)
  }

  /** What a host's own clients and forwarder look like. */
  function HostView(w: World, n: Host): PortTable.State {
    PortTable.State(TableOf(w, n), BindersOf(w, n), ForwarderOf(w, n))
  }

  /** The packets handed to a host's port table for one port, in order. */
  function TabledFor(ts: seq<Token>, port: u16): seq<PortTable.Packet> {
    if ts == [] then []
    else
      var last := ts[|ts| - 1];
      TabledFor(ts[..|ts| - 1], port)
      + (if last.Incoming? && last.packet.dstPort == port then [ForTable(last.packet)] else [])
  }

  /** The event of the host's port table that an action is, if any. */
  function EventsOf(w: World, n: Host, a: Action): seq<PortTable.Event> {
    match a
    case Bind(c, host, port) => if host == n then [PortTable.Bind(c, port)] else []
    case Lookup(host) =>
      var hand := At(w.content, NetHand(host));
      if host == n && hand != [] && hand[0].Incoming? then [PortTable.Lookup(ForTable(hand[0].packet))] else []
    case Deliver(host) => if host == n then [PortTable.Send] else []
    case DropDelivery(host) => if host == n then [PortTable.Send] else []
    case Receive(c) => if c in w.facts.clients && w.facts.clients[c].host == n then [PortTable.Receive(c)] else []
    case CloseClient(c) => if c in w.facts.clients && w.facts.clients[c].host == n then [PortTable.Close(c)] else []
    case _ => []
  }

  /** One event after another. */
  function Events(s: PortTable.State, events: seq<PortTable.Event>): Option<PortTable.State> {
    if events == [] then Some(s) else PortTable.Next(s, events[0])
  }

  // ---------------------------------------------------------------- steps

  /** Nothing a client or the forwarder of this host could notice has changed. */
  ghost predicate Unnoticed(w: World, w': World, n: Host) {
    && w'.table == w.table && w'.facts.clients == w.facts.clients
    && At(w'.content, Chosen(n)) == At(w.content, Chosen(n)) && At(w'.content, Tabled(n)) == At(w.content, Tabled(n))
    && forall c | c in w.facts.clients && w.facts.clients[c].host == n ::
         (c in w'.closed <==> c in w.closed)
         && At(w'.content, Received(c)) == At(w.content, Received(c))
         && At(w'.content, ClientQueue(c)) == At(w.content, ClientQueue(c))
  }

  lemma SameBinders(w: World, w': World, n: Host)
    requires w'.facts.clients == w.facts.clients
    requires forall d | d in w.facts.clients && w.facts.clients[d].host == n :: BinderOf(w', d) == BinderOf(w, d)
    ensures BindersOf(w', n) == BindersOf(w, n)
  {
    hide BinderOf;
  }

  /** A host's binders, when one client's logs have changed. */
  lemma OneBinderChanged(w: World, w': World, n: Host, c: Client)
    requires w'.facts.clients == w.facts.clients && c in w.facts.clients && w.facts.clients[c].host == n
    requires forall d | d != c && d in w.facts.clients :: BinderOf(w', d) == BinderOf(w, d)
    ensures c in BindersOf(w, n) && BindersOf(w, n)[c] == BinderOf(w, c)
    ensures BindersOf(w', n) == BindersOf(w, n)[c := BinderOf(w', c)]
  {
    hide BinderOf;
  }

  /** What a host looks like after that. */
  lemma ViewAfterChange(w: World, w': World, n: Host, c: Client)
    requires w'.facts.clients == w.facts.clients && c in w.facts.clients && w.facts.clients[c].host == n
    requires w'.table == w.table && forall d | d != c && d in w.facts.clients :: BinderOf(w', d) == BinderOf(w, d)
    ensures c in HostView(w, n).binders && HostView(w, n).binders[c] == BinderOf(w, c)
    ensures HostView(w', n) == HostView(w, n).(binders := HostView(w, n).binders[c := BinderOf(w', c)],
                                               forwarder := ForwarderOf(w', n))
  {
    assert TableOf(w', n) == TableOf(w, n);
    OneBinderChanged(w, w', n, c);
    hide BinderOf, BindersOf, TableOf, ForwarderOf;
  }

  lemma OneBinderMore(w: World, w': World, n: Host, c: Client, info: ClientInfo)
    requires c !in w.facts.clients && w'.facts.clients == w.facts.clients[c := info]
    requires forall d | d in w.facts.clients :: BinderOf(w', d) == BinderOf(w, d)
    ensures c !in BindersOf(w, n)
    ensures BindersOf(w', n) == if info.host == n then BindersOf(w, n)[c := BinderOf(w', c)] else BindersOf(w, n)
  {
    hide BinderOf;
  }

  lemma SameView(w: World, w': World, n: Host)
    requires Unnoticed(w, w', n)
    ensures HostView(w', n) == HostView(w, n)
  {
    SameBinders(w, w', n);
    hide BindersOf, BinderOf;
  }

  lemma BindIsAnEvent(w: World, n: Host, c: Client, host: Host, port: u16)
    requires DoBind(w, c, host, port).Some? && At(w.content, Received(c)) == [] && At(w.content, ClientQueue(c)) == []
    ensures Events(HostView(w, n), EventsOf(w, n, Bind(c, host, port)))
            == Some(HostView(DoBind(w, c, host, port).value, n))
  {
    var w' := DoBind(w, c, host, port).value;
    OneBinderMore(w, w', n, c, ClientInfo(host, port));
    assert BinderOf(w', c) == PortTable.Binder(port, [], [], true);
    hide BindersOf, BinderOf, At, TableOf, ForwarderOf;
    TableAfterBind(w, w', n, (host, port), c);
    ForwarderAfterBind(w, w', n);
  }

  lemma TableAfterBind(w: World, w': World, n: Host, key: (Host, u16), c: Client)
    requires w'.table == w.table[key := c]
    ensures TableOf(w', n) == if key.0 == n then TableOf(w, n)[key.1 := c] else TableOf(w, n)
  {
  }

  lemma ForwarderAfterBind(w: World, w': World, n: Host)
    requires w'.content == w.content
    ensures ForwarderOf(w', n) == ForwarderOf(w, n)
  {
  }

  /** What looking a port up does to the forwarder. */
  lemma ForwarderAfterLookup(w: World, n: Host)
    requires DoLookup(w, n).Some? && At(w.content, Chosen(n)) == []
    ensures var w', t := DoLookup(w, n).value, At(w.content, NetHand(n))[0];
            ForwarderOf(w, n) == PortTable.Idle
            && ForwarderOf(w', n) == if (n, t.packet.dstPort) in w.table
                                     then PortTable.Delivering(ForTable(t.packet), w.table[(n, t.packet.dstPort)])
                                     else PortTable.Idle
  {
  }

  lemma LookupIsAnEvent(w: World, n: Host)
    requires DoLookup(w, n).Some? && At(w.content, Chosen(n)) == []
    ensures Events(HostView(w, n), EventsOf(w, n, Lookup(n))) == Some(HostView(DoLookup(w, n).value, n))
  {
    var w', t := DoLookup(w, n).value, At(w.content, NetHand(n))[0];
    ForwarderAfterLookup(w, n);
    LookupLeavesLogs(w, n);
    LookupEvent(w, n);
    hide Shown, At, ForwarderOf, DoLookup, BindersOf, BinderOf, TableOf, EventsOf;
    SameBinders(w, w', n);
    SameTable(w, w', n, t.packet.dstPort);
  }

  lemma LookupEvent(w: World, n: Host)
    requires DoLookup(w, n).Some?
    ensures EventsOf(w, n, Lookup(n)) == [PortTable.Lookup(ForTable(At(w.content, NetHand(n))[0].packet))]
  {
  }

  lemma SameTable(w: World, w': World, n: Host, port: u16)
    requires w'.table == w.table
    ensures TableOf(w', n) == TableOf(w, n)
    ensures port in TableOf(w, n) <==> (n, port) in w.table
    ensures port in TableOf(w, n) ==> TableOf(w, n)[port] == w.table[(n, port)]
  {
  }

  lemma LookupLeavesLogs(w: World, n: Host)
    requires DoLookup(w, n).Some?
    ensures var w' := DoLookup(w, n).value;
            w'.facts == w.facts && w'.table == w.table
            && forall c | c in w.facts.clients :: BinderOf(w', c) == BinderOf(w, c)
  {
    hide Shown;
  }

  lemma ShownPush(ts: seq<Token>, t: Token)
    requires t.Local?
    ensures Shown(ts + [t]) == Shown(ts) + [PortTable.Frame(t.host, t.port, t.data)]
  {
  }

  lemma LogsAfterDeliver(w: World, n: Host)
    requires DoDeliver(w, n).Some? && |At(w.content, Chosen(n))| == 1
    requires At(w.content, Chosen(n))[0].client in w.facts.clients
    ensures var w', t := DoDeliver(w, n).value, At(w.content, Chosen(n))[0];
            var b := BinderOf(w, t.client);
            && w'.facts == w.facts && w'.table == w.table && b.open && |b.queue| < PortTable.CAPACITY
            && ForwarderOf(w', n) == PortTable.Idle
            && ForwarderOf(w, n) == PortTable.Delivering(ForTable(t.packet), t.client)
            && BinderOf(w', t.client) == b.(queue := b.queue + [PortTable.FrameOf(ForTable(t.packet))])
            && forall d | d != t.client && d in w.facts.clients :: BinderOf(w', d) == BinderOf(w, d)
  {
    var t := At(w.content, Chosen(n))[0];
    ShownPush(At(w.content, ClientQueue(t.client)), Local(t.via, t.packet.host, t.packet.srcPort, t.packet.data));
    assert |Shown(At(w.content, ClientQueue(t.client)))| < PortTable.CAPACITY;
    hide Shown;
  }

  lemma DeliverIsAnEvent(w: World, n: Host)
    requires DoDeliver(w, n).Some? && |At(w.content, Chosen(n))| == 1
    requires var c := At(w.content, Chosen(n))[0].client; c in w.facts.clients && w.facts.clients[c].host == n
    ensures Events(HostView(w, n), EventsOf(w, n, Deliver(n))) == Some(HostView(DoDeliver(w, n).value, n))
  {
    hide BinderOf, BindersOf, ForwarderOf, TableOf, Shown, PortTable.Next;
    var c := At(w.content, Chosen(n))[0].client;
    LogsAfterDeliver(w, n);
    ViewAfterChange(w, DoDeliver(w, n).value, n, c);
    assert HostView(w, n).forwarder == ForwarderOf(w, n);
    hide HostView, At, DoDeliver;
    SendOnView(HostView(w, n));
  }

  lemma SendOnView(s: PortTable.State)
    requires s.forwarder.Delivering? && s.forwarder.client in s.binders
    requires s.binders[s.forwarder.client].open && |s.binders[s.forwarder.client].queue| < PortTable.CAPACITY
    ensures var packet, c := s.forwarder.packet, s.forwarder.client;
            var b := s.binders[c];
            Events(s, [PortTable.Send])
            == Some(s.(binders := s.binders[c := b.(queue := b.queue + [PortTable.FrameOf(packet)])],
                       forwarder := PortTable.Idle))
  {
  }

  lemma LogsAfterDrop(w: World, n: Host)
    requires DoDropDelivery(w, n).Some? && |At(w.content, Chosen(n))| == 1
    ensures var w', t := DoDropDelivery(w, n).value, At(w.content, Chosen(n))[0];
            && w'.facts == w.facts && w'.table == w.table && ForwarderOf(w', n) == PortTable.Idle
            && ForwarderOf(w, n) == PortTable.Delivering(ForTable(t.packet), t.client)
            && forall d | d in w.facts.clients :: BinderOf(w', d) == BinderOf(w, d)
  {
    assert At(DoDropDelivery(w, n).value.content, Chosen(n)) == [];
    hide Shown;
  }

  lemma DropIsAnEvent(w: World, n: Host)
    requires DoDropDelivery(w, n).Some? && |At(w.content, Chosen(n))| == 1
    requires var c := At(w.content, Chosen(n))[0].client; c in w.facts.clients && w.facts.clients[c].host == n
    ensures Events(HostView(w, n), EventsOf(w, n, DropDelivery(n))) == Some(HostView(DoDropDelivery(w, n).value, n))
  {
    var w', c := DoDropDelivery(w, n).value, At(w.content, Chosen(n))[0].client;
    assert c in w.closed;
    hide BindersOf, ForwarderOf, TableOf, Shown, DoDropDelivery, At;
    LogsAfterDrop(w, n);
    ViewAfterChange(w, w', n, c);
    assert HostView(w, n).forwarder == ForwarderOf(w, n) && !BinderOf(w, c).open;
    hide HostView, BinderOf;
    assert HostView(w, n).binders[c := BinderOf(w', c)] == HostView(w, n).binders;
    assert EventsOf(w, n, DropDelivery(n)) == [PortTable.Send];
  }

  lemma LogsAfterReceive(w: World, c: Client)
    requires DoReceive(w, c).Some? && c in w.facts.clients
    ensures var w', b := DoReceive(w, c).value, BinderOf(w, c);
            && w'.facts == w.facts && w'.table == w.table && b.queue != []
            && (forall n :: ForwarderOf(w', n) == ForwarderOf(w, n))
            && BinderOf(w', c) == b.(got := b.got + [b.queue[0]], queue := b.queue[1..])
            && forall d | d != c && d in w.facts.clients :: BinderOf(w', d) == BinderOf(w, d)
  {
    var queue, got := At(w.content, ClientQueue(c)), At(w.content, Received(c));
    assert Shown(queue[1..]) == Shown(queue)[1..] && Shown(got + [queue[0]]) == Shown(got) + [Shown(queue)[0]];
    assert Shown(queue) != [];
    hide Shown;
  }

  lemma ReceiveIsAnEvent(w: World, n: Host, c: Client)
    requires DoReceive(w, c).Some? && c in w.facts.clients && w.facts.clients[c].host == n
    ensures Events(HostView(w, n), EventsOf(w, n, Receive(c))) == Some(HostView(DoReceive(w, c).value, n))
  {
    hide BinderOf, BindersOf, ForwarderOf, TableOf, At, Shown, DoReceive;
    LogsAfterReceive(w, c);
    ViewAfterChange(w, DoReceive(w, c).value, n, c);
    assert HostView(w, n).forwarder == ForwarderOf(w, n);
    hide HostView;
    assert EventsOf(w, n, Receive(c)) == [PortTable.Receive(c)];
  }

  lemma LogsAfterClose(w: World, c: Client)
    requires c in w.facts.clients
    ensures var w' := w.(closed := w.closed + {c});
            && BinderOf(w', c) == BinderOf(w, c).(open := false)
            && (forall n :: ForwarderOf(w', n) == ForwarderOf(w, n))
            && forall d | d != c && d in w.facts.clients :: BinderOf(w', d) == BinderOf(w, d)
  {
    hide Shown, At;
  }

  lemma CloseIsAnEvent(w: World, n: Host, c: Client)
    requires c in w.facts.clients && w.facts.clients[c].host == n
    ensures Events(HostView(w, n), EventsOf(w, n, CloseClient(c))) == Some(HostView(w.(closed := w.closed + {c}), n))
  {
    hide BinderOf, BindersOf, ForwarderOf, TableOf, At, Shown, PortTable.Next;
    LogsAfterClose(w, c);
    ViewAfterChange(w, w.(closed := w.closed + {c}), n, c);
    assert HostView(w, n).forwarder == ForwarderOf(w, n);
    hide HostView;
    CloseOnView(HostView(w, n), c);
  }

  lemma CloseOnView(s: PortTable.State, c: Client)
    requires c in s.binders
    ensures Events(s, [PortTable.Close(c)]) == Some(s.(binders := s.binders[c := s.binders[c].(open := false)]))
  {
  }

  predicate IsLast(p: Place) {
    p.Chosen? || p.Tabled? || p.ClientQueue? || p.Received?
  }

  /** The last stages hold what they held. */
  ghost predicate LastUntouched(c: Content, c': Content) {
    forall p: Place :: IsLast(p) ==> At(c', p) == At(c, p)
  }

  lemma MovesBefore(c: Content, a: Place, b: Place, t: Token)
    requires !IsLast(a) && !IsLast(b)
    ensures LastUntouched(c, Push(c, b, t))
    ensures At(c, a) != [] ==> LastUntouched(c, Pop(c, a)) && LastUntouched(c, Shift(c, a, b, t))
  {
  }

  lemma EntersBefore(c: Content, h: Half, frame: Frame)
    ensures LastUntouched(c, Enter(c, h, frame))
  {
  }

  predicate BeforeLink(a: Action) {
    a.Open? || a.Accept? || a.Submit? || a.TakeUnix? || a.SendFrame? || a.DropUnsent? || a.SendControl? || a.SendPing?
  }

  predicate AfterLink(a: Action) {
    a.TakeSock? || a.Process? || a.PassUp? || a.TakeUp?
  }

  lemma UntouchedAtAll(c: Content)
    ensures LastUntouched(c, c)
  {
  }

  lemma UntouchedTwice(c: Content, d: Content, e: Content)
    requires LastUntouched(c, d) && LastUntouched(d, e)
    ensures LastUntouched(c, e)
  {
  }

  lemma SendUntouched(w: World, m: Host, h: Half)
    requires DoSendFrame(w, m, h).Some?
    ensures LastUntouched(w.content, DoSendFrame(w, m, h).value.content)
  {
    var c := w.content;
    var Packet(_, srcPort, dstPort, data) := At(c, UnixHand(m))[0].packet;
    SettleUntouched(c, m, Some(h));
    EntersBefore(Settle(c, m, Some(h)), h, Data(srcPort, dstPort, data));
    hide LastUntouched, Settle, Enter, Room, At;
    UntouchedTwice(c, Settle(c, m, Some(h)), DoSendFrame(w, m, h).value.content);
  }

  lemma SettleUntouched(c: Content, m: Host, over: Option<Half>)
    requires At(c, UnixHand(m)) != [] && At(c, UnixHand(m))[0].Outgoing?
    ensures LastUntouched(c, Settle(c, m, over))
  {
    var Outgoing(client, packet) := At(c, UnixHand(m))[0];
    MovesBefore(c, UnixHand(m), Forwarded(m), Settled(client, packet, over));
  }

  lemma AcceptUntouched(w: World, c: Client, to: Host, toPort: u16, data: seq<u8>)
    requires DoAccept(w, c, to, toPort, data).Some?
    ensures LastUntouched(w.content, DoAccept(w, c, to, toPort, data).value.content)
  {
    hide LastUntouched, Push, Room, At;
    MovesBefore(w.content, ClientHand(c), ClientHand(c),
                Outgoing(c, Packet(to, w.facts.clients[c].port, toPort, data)));
  }

  lemma BeforeLinkUntouched(w: World, a: Action)
    requires Next(w, a).Some? && BeforeLink(a)
    ensures LastUntouched(w.content, Next(w, a).value.content)
  {
    hide LastUntouched, Push, Pop, Shift, Settle, Enter, Room, At, DoSendFrame, DoAccept;
    var c := w.content;
    UntouchedAtAll(c);
    match a
    case Open(_, _, _, _, _, _) =>
    case Accept(client, to, toPort, data) => AcceptUntouched(w, client, to, toPort, data);
    case Submit(client) =>
      MovesBefore(c, ClientHand(client), UnixQueue(w.facts.clients[client].host), At(c, ClientHand(client))[0]);
    case TakeUnix(m) => MovesBefore(c, UnixQueue(m), UnixHand(m), At(c, UnixQueue(m))[0]);
    case DropUnsent(m) => SettleUntouched(c, m, None);
    case SendFrame(m, h) => SendUntouched(w, m, h);
    case SendControl(h, data) => EntersBefore(c, h, Data(0, 0, data));
    case SendPing(h) => EntersBefore(c, h, Ping);
  }

  lemma ReadUntouched(w: World, h: Half)
    requires DoReadFrame(w, h).Some?
    ensures LastUntouched(w.content, DoReadFrame(w, h).value.content)
  {
    var c := w.content;
    assert LastUntouched(c, c);
    hide LastUntouched, Push, Shift, Room, At, Parse;
    var t := Framed(h, Parse(StreamOf(w, h).buffer).frame);
    if At(c, Wire(h)) != [] {
      MovesBefore(c, Wire(h), Passed(h), At(c, Wire(h))[0]);
    }
    MovesBefore(TakeOff(c, h), Wire(h), ReadHand(h), t);
    UntouchedTwice(c, TakeOff(c, h), Push(TakeOff(c, h), ReadHand(h), t));
  }

  lemma LoseUntouched(w: World, h: Half)
    requires DoLose(w, h).Some?
    ensures LastUntouched(w.content, DoLose(w, h).value.content)
  {
    hide LastUntouched, Shift, At;
    MovesBefore(w.content, WriteHand(h), Lost(h), At(w.content, WriteHand(h))[0]);
  }

  lemma AnswerUntouched(w: World, h: Half)
    requires DoAnswer(w, h).Some?
    ensures LastUntouched(w.content, DoAnswer(w, h).value.content)
  {
    var c := w.content;
    var t := At(c, ReadHand(h))[0];
    var answered := Shift(c, ReadHand(h), Answered(h), t);
    hide LastUntouched, Shift, Enter, Room, At;
    MovesBefore(c, ReadHand(h), Answered(h), t);
    EntersBefore(answered, w.facts.halves[h].back, Pong);
    UntouchedTwice(c, answered, DoAnswer(w, h).value.content);
  }

  lemma WriteUntouched(w: World, h: Half)
    requires DoWriteFrame(w, h).Some?
    ensures LastUntouched(w.content, DoWriteFrame(w, h).value.content)
  {
    hide LastUntouched, Shift, At, Encoding;
    MovesBefore(w.content, WriteHand(h), Wire(h), At(w.content, WriteHand(h))[0]);
  }

  lemma ForwardUntouched(w: World, h: Half)
    requires DoForward(w, h).Some?
    ensures LastUntouched(w.content, DoForward(w, h).value.content)
  {
    var t := At(w.content, ReadHand(h))[0];
    hide LastUntouched, Shift, At, Labelled;
    MovesBefore(w.content, ReadHand(h), SockQueue(SockOf(w.facts, h)), Labelled(w.facts, h, t.frame));
  }

  lemma OnLinkUntouched(w: World, a: Action)
    requires Next(w, a).Some? && OnLink(a)
    ensures LastUntouched(w.content, Next(w, a).value.content)
  {
    hide LastUntouched, Shift, Room, At, DoReadFrame, DoAnswer, DoWriteFrame, DoLose, DoForward;
    var c := w.content;
    UntouchedAtAll(c);
    match a
    case TakeSink(h) => MovesBefore(c, Sink(h), WriteHand(h), At(c, Sink(h))[0]);
    case WriteFrame(h) => WriteUntouched(w, h);
    case Lose(h) => LoseUntouched(w, h);
    case Carry(_, _) =>
    case ReadFrame(h) => ReadUntouched(w, h);
    case Answer(h) => AnswerUntouched(w, h);
    case Hear(h) => MovesBefore(c, ReadHand(h), Heard(h), At(c, ReadHand(h))[0]);
    case Forward(h) => ForwardUntouched(w, h);
  }

  lemma PartUntouched(c: Content, s: Sock, b: Place, t: Token)
    requires At(c, SockHand(s)) != [] && !IsLast(b)
    ensures LastUntouched(c, Push(Shift(c, SockHand(s), Split(s), t), b, t))
  {
    var mid := Shift(c, SockHand(s), Split(s), t);
    MovesBefore(c, SockHand(s), Split(s), t);
    MovesBefore(mid, SockHand(s), b, t);
    hide LastUntouched, Push, Shift, At;
    UntouchedTwice(c, mid, Push(mid, b, t));
  }

  lemma AfterLinkUntouched(w: World, a: Action)
    requires Next(w, a).Some? && AfterLink(a)
    ensures LastUntouched(w.content, Next(w, a).value.content)
  {
    var c := w.content;
    hide LastUntouched, Push, Pop, Shift, Room, At;
    match a
    case TakeSock(s) => MovesBefore(c, SockQueue(s), SockHand(s), At(c, SockQueue(s))[0]);
    case Process(s) => PartUntouched(c, s, Handled(s), At(c, SockHand(s))[0]);
    case PassUp(s) => PartUntouched(c, s, Upstream(s.host), At(c, SockHand(s))[0]);
    case TakeUp(m) => MovesBefore(c, Upstream(m), NetHand(m), At(c, Upstream(m))[0]);
  }

  /** These steps leave the table and the bound clients alone. */
  lemma TableUntouched(w: World, a: Action)
    requires Next(w, a).Some? && (OnLink(a) || BeforeLink(a) || AfterLink(a))
    ensures var w' := Next(w, a).value;
            w'.table == w.table && w'.closed == w.closed && w'.facts.clients == w.facts.clients
  {
    hide Push, Pop, Shift, Enter, Room, At, Parse, Encoding, Labelled, Reads, IsControl;
  }

  /** No step before the lookup touches a client's queue, the lookup log or the forwarder after it. */
  lemma NetworkStepUnnoticed(w: World, n: Host, a: Action)
    requires Next(w, a).Some? && (OnLink(a) || BeforeLink(a) || AfterLink(a))
    ensures Unnoticed(w, Next(w, a).value, n)
  {
    hide Next, At;
    if BeforeLink(a) {
      BeforeLinkUntouched(w, a);
    } else if OnLink(a) {
      OnLinkUntouched(w, a);
    } else {
      AfterLinkUntouched(w, a);
    }
    TableUntouched(w, a);
  }

  // ---------------------------------------------------------------- another host's steps

  /** The clients a host delivers to are its own. */
  lemma OtherDeliveryUnnoticed(w: World, n: Host, m: Host)
    requires n != m && At(w.content, Chosen(m)) != [] && At(w.content, Chosen(m))[0].Resolved?
    requires var c := At(w.content, Chosen(m))[0].client; c in w.facts.clients && w.facts.clients[c].host == m
    ensures DoDeliver(w, m).Some? ==> Unnoticed(w, DoDeliver(w, m).value, n)
    ensures DoDropDelivery(w, m).Some? ==> Unnoticed(w, DoDropDelivery(w, m).value, n)
  {
  }

  lemma OtherLookupUnnoticed(w: World, n: Host, m: Host)
    requires n != m && DoLookup(w, m).Some?
    ensures Unnoticed(w, DoLookup(w, m).value, n)
  {
  }

  lemma OtherClientUnnoticed(w: World, n: Host, c: Client)
    requires c in w.facts.clients && w.facts.clients[c].host != n
    ensures DoReceive(w, c).Some? ==> Unnoticed(w, DoReceive(w, c).value, n)
    ensures Unnoticed(w, w.(closed := w.closed + {c}), n)
  {
  }

  // ---------------------------------------------------------------- every step

  /** Tokens where clients and forwarders meet belong to known clients of the right host. */
  ghost predicate Placed(w: World) {
    && (forall m :: |At(w.content, Chosen(m))| <= 1)
    && (forall m, t | t in At(w.content, Chosen(m)) ::
          t.Resolved? && t.client in w.facts.clients && w.facts.clients[t.client].host == m)
    && (forall c | At(w.content, ClientQueue(c)) != [] :: c in w.facts.clients)
    && (forall c | At(w.content, Received(c)) != [] :: c in w.facts.clients)
  }

  lemma SoundIsPlaced(w: World)
    requires Bounded(w.content) && Provenance(w.facts, w.content)
    ensures Placed(w)
  {
    hide CameUp;
    forall c | At(w.content, ClientQueue(c)) != []
      ensures c in w.facts.clients
    {
      assert Good(w.facts, ClientQueue(c), At(w.content, ClientQueue(c))[0]);
    }
    forall c | At(w.content, Received(c)) != []
      ensures c in w.facts.clients
    {
      assert Good(w.facts, Received(c), At(w.content, Received(c))[0]);
    }
    forall m, t | t in At(w.content, Chosen(m))
      ensures t.Resolved? && t.client in w.facts.clients && w.facts.clients[t.client].host == m
    {
      assert Good(w.facts, Chosen(m), t);
    }
  }

  /** What a step adds to the log of packets handed to a host's port table. */
  function NewlyTabled(w: World, n: Host, a: Action): seq<Token> {
    if a == Lookup(n) && At(w.content, NetHand(n)) != [] then [At(w.content, NetHand(n))[0]] else []
  }

  /** Each step of the pipeline is at most one event of a host's port table, and what it looks up is logged. */
  ghost predicate Simulated(w: World, n: Host, a: Action, w': World) {
    && Events(HostView(w, n), EventsOf(w, n, a)) == Some(HostView(w', n))
    && At(w'.content, Tabled(n)) == At(w.content, Tabled(n)) + NewlyTabled(w, n, a)
  }

  lemma UnnoticedIsSimulated(w: World, n: Host, a: Action, w': World)
    requires Unnoticed(w, w', n) && EventsOf(w, n, a) == [] && NewlyTabled(w, n, a) == []
    ensures Simulated(w, n, a, w')
  {
    SameView(w, w', n);
    hide HostView;
  }

  lemma StepIsSimulated(w: World, n: Host, a: Action)
    requires Placed(w) && Next(w, a).Some?
    ensures Simulated(w, n, a, Next(w, a).value)
  {
    var w' := Next(w, a).value;
    if BeforeLink(a) || OnLink(a) || AfterLink(a) {
      NetworkStepUnnoticed(w, n, a);
      hide Next, Unnoticed;
      UnnoticedIsSimulated(w, n, a, w');
    } else {
      LocalStepIsSimulated(w, n, a);
    }
  }

  lemma LocalStepIsSimulated(w: World, n: Host, a: Action)
    requires Placed(w) && Next(w, a).Some? && !BeforeLink(a) && !OnLink(a) && !AfterLink(a)
    ensures Simulated(w, n, a, Next(w, a).value)
  {
    match a
    case Bind(c, host, port) =>
      BindIsSimulated(w, n, c, host, port);
    case Lookup(m) => LookupIsSimulated(w, n, m);
    case Deliver(m) => DeliveryIsSimulated(w, n, m);
    case DropDelivery(m) => DropIsSimulated(w, n, m);
    case Receive(c) => ReceiveIsSimulated(w, n, c);
    case CloseClient(c) => CloseIsSimulated(w, n, c);
  }

  lemma BindIsSimulated(w: World, n: Host, c: Client, host: Host, port: u16)
    requires Placed(w) && DoBind(w, c, host, port).Some?
    ensures Simulated(w, n, Bind(c, host, port), DoBind(w, c, host, port).value)
  {
    BindIsAnEvent(w, n, c, host, port);
    hide HostView;
  }

  lemma LookupIsSimulated(w: World, n: Host, m: Host)
    requires Placed(w) && DoLookup(w, m).Some?
    ensures Simulated(w, n, Lookup(m), DoLookup(w, m).value)
  {
    var w' := DoLookup(w, m).value;
    if n == m {
      LookupIsAnEvent(w, n);
      assert At(w'.content, Tabled(n)) == At(w.content, Tabled(n)) + NewlyTabled(w, n, Lookup(n));
      hide HostView;
    } else {
      OtherLookupUnnoticed(w, n, m);
      hide Unnoticed, DoLookup;
      UnnoticedIsSimulated(w, n, Lookup(m), w');
    }
  }

  lemma DeliveryIsSimulated(w: World, n: Host, m: Host)
    requires Placed(w) && DoDeliver(w, m).Some?
    ensures Simulated(w, n, Deliver(m), DoDeliver(w, m).value)
  {
    var w' := DoDeliver(w, m).value;
    if n == m {
      DeliverIsAnEvent(w, n);
      assert At(w'.content, Tabled(n)) == At(w.content, Tabled(n));
      hide HostView;
    } else {
      OtherDeliveryUnnoticed(w, n, m);
      hide Unnoticed, DoDeliver;
      UnnoticedIsSimulated(w, n, Deliver(m), w');
    }
  }

  lemma DropIsSimulated(w: World, n: Host, m: Host)
    requires Placed(w) && DoDropDelivery(w, m).Some?
    ensures Simulated(w, n, DropDelivery(m), DoDropDelivery(w, m).value)
  {
    var w' := DoDropDelivery(w, m).value;
    if n == m {
      DropIsAnEvent(w, n);
      assert At(w'.content, Tabled(n)) == At(w.content, Tabled(n));
      hide HostView;
    } else {
      OtherDeliveryUnnoticed(w, n, m);
      hide Unnoticed, DoDropDelivery;
      UnnoticedIsSimulated(w, n, DropDelivery(m), w');
    }
  }

  lemma ReceiveIsSimulated(w: World, n: Host, c: Client)
    requires Placed(w) && DoReceive(w, c).Some?
    ensures Simulated(w, n, Receive(c), DoReceive(w, c).value)
  {
    var w' := DoReceive(w, c).value;
    if w.facts.clients[c].host == n {
      ReceiveIsAnEvent(w, n, c);
      assert At(w'.content, Tabled(n)) == At(w.content, Tabled(n));
      hide HostView;
    } else {
      OtherClientUnnoticed(w, n, c);
      hide Unnoticed, DoReceive;
      UnnoticedIsSimulated(w, n, Receive(c), w');
    }
  }

  lemma CloseIsSimulated(w: World, n: Host, c: Client)
    requires c in w.facts.clients
    ensures Simulated(w, n, CloseClient(c), w.(closed := w.closed + {c}))
  {
    var w' := w.(closed := w.closed + {c});
    if w.facts.clients[c].host == n {
      CloseIsAnEvent(w, n, c);
      hide HostView;
    } else {
      OtherClientUnnoticed(w, n, c);
      hide Unnoticed;
      UnnoticedIsSimulated(w, n, CloseClient(c), w');
    }
  }

  // ---------------------------------------------------------------- every run

  /** The host's clients and forwarder are where these events of its port table lead. */
  ghost predicate Mirrors(w: World, n: Host, events: seq<PortTable.Event>) {
    && PortTable.Run(events) == Some(HostView(w, n))
    && forall port :: PortTable.LookedUp(events, port) == TabledFor(At(w.content, Tabled(n)), port)
  }

  lemma TabledForAppend(ts: seq<Token>, t: Token, port: u16)
    ensures TabledFor(ts + [t], port)
            == TabledFor(ts, port) + (if t.Incoming? && t.packet.dstPort == port then [ForTable(t.packet)] else [])
  {
    assert (ts + [t])[..|ts|] == ts;
  }

  lemma StepMirrors(w: World, n: Host, a: Action, w': World, events: seq<PortTable.Event>)
    requires Mirrors(w, n, events) && Simulated(w, n, a, w') && Next(w, a).Some?
    ensures Mirrors(w', n, events + EventsOf(w, n, a))
  {
    hide HostView, At, Next, EventsOf, TabledFor, NewlyTabled, PortTable.Run, Events;
    var more := EventsOf(w, n, a);
    EventsOfOne(w, n, a);
    RunFurther(events, more);
    forall port
      ensures PortTable.LookedUp(events + more, port) == TabledFor(At(w'.content, Tabled(n)), port)
    {
      StepTables(w, n, a, events, port);
    }
  }

  lemma RunFurther(events: seq<PortTable.Event>, more: seq<PortTable.Event>)
    requires PortTable.Run(events).Some? && |more| <= 1
    ensures PortTable.Run(events + more) == Events(PortTable.Run(events).value, more)
  {
    if more != [] {
      assert (events + more)[..|events|] == events;
    } else {
      assert events + more == events;
    }
  }

  lemma EventsOfOne(w: World, n: Host, a: Action)
    ensures |EventsOf(w, n, a)| <= 1
    ensures Next(w, a).Some? && a.Lookup? ==>
            At(w.content, NetHand(a.host)) != [] && At(w.content, NetHand(a.host))[0].Incoming?
  {
  }

  /** What the event looks up is what the step logs. */
  lemma StepTables(w: World, n: Host, a: Action, events: seq<PortTable.Event>, port: u16)
    requires Next(w, a).Some? && PortTable.LookedUp(events, port) == TabledFor(At(w.content, Tabled(n)), port)
    ensures PortTable.LookedUp(events + EventsOf(w, n, a), port)
            == TabledFor(At(w.content, Tabled(n)) + NewlyTabled(w, n, a), port)
  {
    hide At, TabledFor, PortTable.LookedUp;
    EventsOfOne(w, n, a);
    hide Next;
    if a == Lookup(n) {
      LookupTables(w, n, events, port);
    } else {
      OtherTables(w, n, a, events, port);
    }
  }

  lemma LookupTables(w: World, n: Host, events: seq<PortTable.Event>, port: u16)
    requires At(w.content, NetHand(n)) != [] && At(w.content, NetHand(n))[0].Incoming?
    requires PortTable.LookedUp(events, port) == TabledFor(At(w.content, Tabled(n)), port)
    ensures PortTable.LookedUp(events + EventsOf(w, n, Lookup(n)), port)
            == TabledFor(At(w.content, Tabled(n)) + NewlyTabled(w, n, Lookup(n)), port)
  {
    hide At, TabledFor, PortTable.LookedUp;
    var t := At(w.content, NetHand(n))[0];
    TabledForAppend(At(w.content, Tabled(n)), t, port);
    assert EventsOf(w, n, Lookup(n)) == [PortTable.Lookup(ForTable(t.packet))];
    assert NewlyTabled(w, n, Lookup(n)) == [t];
    hide EventsOf, NewlyTabled;
    LookedUpAppend(events, PortTable.Lookup(ForTable(t.packet)), port);
  }

  lemma OtherTables(w: World, n: Host, a: Action, events: seq<PortTable.Event>, port: u16)
    requires a != Lookup(n) && |EventsOf(w, n, a)| <= 1
    requires PortTable.LookedUp(events, port) == TabledFor(At(w.content, Tabled(n)), port)
    ensures PortTable.LookedUp(events + EventsOf(w, n, a), port)
            == TabledFor(At(w.content, Tabled(n)) + NewlyTabled(w, n, a), port)
  {
    hide At, TabledFor, PortTable.LookedUp;
    var more := EventsOf(w, n, a);
    assert NewlyTabled(w, n, a) == [] && At(w.content, Tabled(n)) + [] == At(w.content, Tabled(n));
    if more == [] {
      assert events + more == events;
    } else {
      assert !more[0].Lookup? && more == [more[0]];
      LookedUpAppend(events, more[0], port);
    }
  }

  lemma LookedUpAppend(events: seq<PortTable.Event>, e: PortTable.Event, port: u16)
    ensures PortTable.LookedUp(events + [e], port)
            == PortTable.LookedUp(events, port) + (if e.Lookup? && e.packet.localPort == port then [e.packet] else [])
  {
    assert (events + [e])[..|events|] == events;
  }

  lemma {:induction false} RunMirrors(w: World, n: Host, actions: seq<Action>, events: seq<PortTable.Event>)
    requires Inv(w) && Run(w, actions).Some? && Mirrors(w, n, events)
    ensures exists more :: Mirrors(Run(w, actions).value, n, more)
    decreases |actions|
  {
    if actions != [] {
      var a := actions[0];
      var w' := Next(w, a).value;
      SoundIsPlaced(w);
      hide Next, Mirrors, Inv, Placed, Simulated;
      StepIsSimulated(w, n, a);
      StepMirrors(w, n, a, w', events);
      StepKeepsInv(w, a);
      RunMirrors(w', n, actions[1..], events + EventsOf(w, n, a));
    }
  }

  // ---------------------------------------------------------------- whole pipeline, seen from one port

  /** What a client has been handed so far of what was sent to it: nothing but a prefix of these packets. */
  ghost predicate Served(w: World, n: Host, port: u16, c: Client, packets: seq<PortTable.Packet>) {
    var handed := Shown(At(w.content, Received(c))) + Shown(At(w.content, ClientQueue(c)));
    && c in w.facts.clients && w.facts.clients[c] == ClientInfo(n, port)
    && handed <= PortTable.Frames(packets)
    && (c !in w.closed ==> |packets| <= |handed| + |At(w.content, Chosen(n))|)
  }

  ghost predicate HasBlock(blocks: seq<PortTable.Block>, c: Client) {
    exists i :: 0 < i < |blocks| && blocks[i].owner == Some(c)
  }

  /** These blocks share out all that reached the port table for a port: one block to each client that bound it. */
  ghost predicate SharedOut(w: World, n: Host, port: u16, blocks: seq<PortTable.Block>) {
    && PortTable.AllPackets(blocks) == TabledFor(At(w.content, Tabled(n)), port)
    && blocks != [] && blocks[0].owner.None?
    && (forall i | 0 < i < |blocks| ::
          blocks[i].owner.Some? && Served(w, n, port, blocks[i].owner.value, blocks[i].packets))
    && (forall i, j | 0 < i < j < |blocks| :: blocks[i].owner != blocks[j].owner)
    && (forall c | c in w.facts.clients && w.facts.clients[c] == ClientInfo(n, port) :: HasBlock(blocks, c))
    && blocks[|blocks| - 1].owner == (if (n, port) in w.table then Some(w.table[(n, port)]) else None)
  }

  lemma BlockIsServed(w: World, n: Host, port: u16, events: seq<PortTable.Event>, i: nat)
    requires Mirrors(w, n, events) && |At(w.content, Chosen(n))| <= 1
    requires 0 < i < |PortTable.Blocks(events, port)|
    ensures var block := PortTable.Blocks(events, port)[i];
            block.owner.Some? && Served(w, n, port, block.owner.value, block.packets)
  {
    PortTable.BlocksPartitionTheTraffic(events, port);
    PortTable.EachBinderGetsAPrefixOfItsBlock(events, port, i);
    var c := PortTable.BindersOf(events, port)[i - 1];
    assert c in BindersOf(w, n) && BindersOf(w, n)[c] == BinderOf(w, c);
    assert PortTable.WaitingFor(ForwarderOf(w, n), c) == [] || At(w.content, Chosen(n)) != [];
    hide Shown, At, PortTable.Blocks, PortTable.BindersOf, PortTable.AllPackets;
  }

  lemma BoundClientHasBlock(w: World, n: Host, port: u16, events: seq<PortTable.Event>, c: Client)
    requires Mirrors(w, n, events) && c in w.facts.clients && w.facts.clients[c] == ClientInfo(n, port)
    ensures HasBlock(PortTable.Blocks(events, port), c)
  {
    assert c in BindersOf(w, n) && BindersOf(w, n)[c].port == port;
    PortTable.EveryBinderHasABlock(events, c);
    PortTable.BlocksPartitionTheTraffic(events, port);
    var i :| 0 <= i < |PortTable.BindersOf(events, port)| && PortTable.BindersOf(events, port)[i] == c;
    assert PortTable.Blocks(events, port)[i + 1].owner == Some(c);
  }

  /**
   In every run of any number of hosts, whatever was cut or lost on the way, what reached a host's
   port table for a port splits in
   order into blocks, one to each client that ever bound the port, the last to the one bound
   now; each has been handed a prefix of its own block, and while it is open only the packet
   in the forwarder's hand can be missing.
   */
  lemma EachBinderIsServedItsBlock(w: World, n: Host, port: u16)
    requires Reachable(w)
    ensures exists blocks :: SharedOut(w, n, port, blocks)
  {
    var actions :| Run(START, actions) == Some(w);
    StartHolds();
    assert Mirrors(START, n, []);
    ReachableInv(w);
    SoundIsPlaced(w);
    hide Run, Inv, Mirrors;
    RunMirrors(START, n, actions, []);
    var events :| Mirrors(w, n, events);
    MirrorSharesOut(w, n, port, events);
  }

  lemma MirrorSharesOut(w: World, n: Host, port: u16, events: seq<PortTable.Event>)
    requires Mirrors(w, n, events) && |At(w.content, Chosen(n))| <= 1
    ensures SharedOut(w, n, port, PortTable.Blocks(events, port))
  {
    var blocks := PortTable.Blocks(events, port);
    PortTable.BlocksPartitionTheTraffic(events, port);
    PortTable.BlocksNameTheTable(events, port);
    assert blocks[|blocks| - 1].owner == if (n, port) in w.table then Some(w.table[(n, port)]) else None;
    hide PortTable.AllPackets, Served, HasBlock, HostView;
    forall i | 0 < i < |blocks|
      ensures blocks[i].owner.Some? && Served(w, n, port, blocks[i].owner.value, blocks[i].packets)
    {
      BlockIsServed(w, n, port, events, i);
    }
    forall c | c in w.facts.clients && w.facts.clients[c] == ClientInfo(n, port)
      ensures HasBlock(blocks, c)
    {
      BoundClientHasBlock(w, n, port, events, c);
    }
  }
}
