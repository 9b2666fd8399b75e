/**
 Delivery to the local clients of one daemon. The forwarder hands over one packet at a time:
 it looks the port up, and only then waits for room in the queue it found. A client may bind
 the port between the two, and takes over what is looked up after it.
 */
module PortTable {
  import opened Bytes

  type Host = nat
  type Client = nat

  datatype Packet = Packet(host: Host, remotePort: u16, localPort: u16, data: seq<u8>)

  /** What a client is sent: the local port is its own and left out. */
  datatype Frame = Frame(host: Host, remotePort: u16, data: seq<u8>)

  function FrameOf(packet: Packet): Frame {
    Frame(packet.host, packet.remotePort, packet.data)
  }

  const CAPACITY: nat := 10

  datatype Binder = Binder(port: u16, got: seq<Frame>, queue: seq<Frame>, open: bool)

  datatype Forwarder = Idle | Delivering(packet: Packet, client: Client)

  datatype State = State(table: map<u16, Client>, binders: map<Client, Binder>, forwarder: Forwarder)

  const START := State(map[], map[], Idle)

  datatype Event =
    | Bind(client: Client, port: u16)
    | Lookup(packet: Packet)
    | Send
    | Receive(client: Client)
    | Close(client: Client)

  function Next(s: State, e: Event): Option<State> {
    match e
    case Bind(c, port) =>
      if c in s.binders then None
      else Some(s.(table := s.table[port := c], binders := s.binders[c := Binder(port, [], [], true)]))
    case Lookup(packet) =>
      if !s.forwarder.Idle? then None
      else if packet.localPort !in s.table then Some(s)
      else Some(s.(forwarder := Delivering(packet, s.table[packet.localPort])))
    case Send =>
      if s.forwarder.Idle? || s.forwarder.client !in s.binders then None
      else
        var Delivering(packet, c) := s.forwarder;
        var b := s.binders[c];
        if !b.open then Some(s.(forwarder := Idle))
        else if |b.queue| >= CAPACITY then None
        else Some(s.(binders := s.binders[c := b.(queue := b.queue + [FrameOf(packet)])], forwarder := Idle))
    case Receive(c) =>
      if c !in s.binders || s.binders[c].queue == [] then None
      else
        var b := s.binders[c];
        Some(s.(binders := s.binders[c := b.(got := b.got + [b.queue[0]], queue := b.queue[1..])]))
    case Close(c) =>
      if c !in s.binders then None
      else Some(s.(binders := s.binders[c := s.binders[c].(open := false)]))
  }

  /** The last event comes last: runs are built from the front. */
  function Run(events: seq<Event>): Option<State> {
    if events == [] then Some(START)
    else
      var before := Run(events[..|events| - 1]);
      if before.None? then None else Next(before.value, events[|events| - 1])
  }

  // ---------------------------------------------------------------- blocks, from the events alone

  /** A stretch of the packets looked up for a port: those while one client was its latest binder. */
  datatype Block = Block(owner: Option<Client>, packets: seq<Packet>)

  /** One more event: a bind opens a block, a lookup extends the last one. */
  function Extend(blocks: seq<Block>, e: Event, port: u16): (extended: seq<Block>)
    requires blocks != []
    ensures extended != []
  {
    var last := blocks[|blocks| - 1];
    if e.Bind? && e.port == port then blocks + [Block(Some(e.client), [])]
    else if e.Lookup? && e.packet.localPort == port then
      blocks[..|blocks| - 1] + [last.(packets := last.packets + [e.packet])]
    else blocks
  }

  /** The blocks of a port, oldest first; before the first bind there is one without an owner. */
  function Blocks(events: seq<Event>, port: u16): (blocks: seq<Block>)
    ensures blocks != []
  {
    if events == [] then [Block(None, [])]
    else Extend(Blocks(events[..|events| - 1], port), events[|events| - 1], port)
  }

  /** All packets looked up for a port, in order. */
  function LookedUp(events: seq<Event>, port: u16): seq<Packet> {
    if events == [] then []
    else
      var before := LookedUp(events[..|events| - 1], port);
      var e := events[|events| - 1];
      if e.Lookup? && e.packet.localPort == port then before + [e.packet] else before
  }

  /** The clients that bound a port, in order. */
  function BindersOf(events: seq<Event>, port: u16): seq<Client> {
    if events == [] then []
    else
      var before := BindersOf(events[..|events| - 1], port);
      var e := events[|events| - 1];
      if e.Bind? && e.port == port then before + [e.client] else before
  }

  function AllPackets(blocks: seq<Block>): seq<Packet> {
    if blocks == [] then [] else AllPackets(blocks[..|blocks| - 1]) + blocks[|blocks| - 1].packets
  }

  lemma PacketsOfExtended(blocks: seq<Block>, e: Event, port: u16)
    requires blocks != []
    ensures AllPackets(Extend(blocks, e, port))
            == AllPackets(blocks) + (if e.Lookup? && e.packet.localPort == port then [e.packet] else [])
  {
    var after := Extend(blocks, e, port);
    if e.Bind? && e.port == port {
      assert after[..|after| - 1] == blocks;
    } else if e.Lookup? && e.packet.localPort == port {
      assert after[..|after| - 1] == blocks[..|blocks| - 1];
    }
  }

  /** One block without an owner, then one for each of these clients in turn. */
  ghost predicate OwnedBy(blocks: seq<Block>, binders: seq<Client>) {
    && |blocks| == |binders| + 1 && blocks[0].owner == None
    && forall i | 0 < i < |blocks| :: blocks[i].owner == Some(binders[i - 1])
  }

  lemma OwnersOfExtended(blocks: seq<Block>, binders: seq<Client>, e: Event, port: u16)
    requires OwnedBy(blocks, binders)
    ensures OwnedBy(Extend(blocks, e, port), binders + (if e.Bind? && e.port == port then [e.client] else []))
  {
  }

  /** The blocks cut the looked-up packets, in order, and belong to nobody and then to the successive binders. */
  lemma {:induction false} BlocksPartitionTheTraffic(events: seq<Event>, port: u16)
    ensures AllPackets(Blocks(events, port)) == LookedUp(events, port)
    ensures OwnedBy(Blocks(events, port), BindersOf(events, port))
  {
    if events == [] {
      assert Blocks(events, port)[..0] == [];
    } else {
      var before, e := events[..|events| - 1], events[|events| - 1];
      BlocksPartitionTheTraffic(before, port);
      PacketsOfExtended(Blocks(before, port), e, port);
      OwnersOfExtended(Blocks(before, port), BindersOf(before, port), e, port);
      hide AllPackets, Extend, OwnedBy;
      assert BindersOf(before, port) + [] == BindersOf(before, port);
    }
  }

  function Frames(packets: seq<Packet>): seq<Frame> {
    seq(|packets|, i requires 0 <= i < |packets| => FrameOf(packets[i]))
  }

  // ---------------------------------------------------------------- each binder gets a prefix of its block

  /** The packet the forwarder is waiting to hand to this client, if any. */
  function WaitingFor(forwarder: Forwarder, c: Client): seq<Packet> {
    if forwarder.Delivering? && forwarder.client == c then [forwarder.packet] else []
  }

  /** Handed over so far, and still to come from the forwarder, out of a binder's block. */
  ghost predicate ServedFrom(s: State, c: Client, packets: seq<Packet>)
    requires c in s.binders
  {
    var b := s.binders[c];
    var handed := b.got + b.queue;
    && handed <= Frames(packets)
    && |b.queue| <= CAPACITY
    && (b.open ==> handed + Frames(WaitingFor(s.forwarder, c)) == Frames(packets))
  }

  ghost predicate OwnerOk(s: State, blocks: seq<Block>, port: u16, i: nat)
    requires i < |blocks|
  {
    match blocks[i].owner
    case None => i == 0
    case Some(c) =>
      && i > 0 && c in s.binders && s.binders[c].port == port && ServedFrom(s, c, blocks[i].packets)
      && forall j | 0 <= j < |blocks| && blocks[j].owner == Some(c) :: j == i
  }

  ghost predicate PortOk(s: State, blocks: seq<Block>, port: u16) {
    && blocks != [] && (forall i | 0 <= i < |blocks| :: OwnerOk(s, blocks, port, i))
    && blocks[|blocks| - 1].owner == if port in s.table then Some(s.table[port]) else None
  }

  ghost predicate Inv(s: State, events: seq<Event>) {
    && (forall port: u16 :: PortOk(s, Blocks(events, port), port))
    && (s.forwarder.Delivering? ==>
          s.forwarder.client in s.binders && s.binders[s.forwarder.client].port == s.forwarder.packet.localPort)
  }

  lemma BlocksAfter(events: seq<Event>, e: Event, port: u16)
    ensures Blocks(events + [e], port) == Extend(Blocks(events, port), e, port)
  {
    assert (events + [e])[..|events|] == events;
  }

  lemma FramesAppend(packets: seq<Packet>, packet: Packet)
    ensures Frames(packets + [packet]) == Frames(packets) + [FrameOf(packet)]
  {
  }

  lemma BindKeepsPort(s: State, blocks: seq<Block>, port: u16, c: Client, p: u16)
    requires PortOk(s, blocks, port) && Next(s, Bind(c, p)).Some?
    requires s.forwarder.Delivering? ==> s.forwarder.client in s.binders
    ensures PortOk(Next(s, Bind(c, p)).value, Extend(blocks, Bind(c, p), port), port)
  {
    var s' := Next(s, Bind(c, p)).value;
    var blocks' := Extend(blocks, Bind(c, p), port);
    forall i | 0 <= i < |blocks'|
      ensures OwnerOk(s', blocks', port, i)
    {
      assert i < |blocks| ==> OwnerOk(s, blocks, port, i);
      forall j | 0 <= j < |blocks|
        ensures blocks[j].owner != Some(c)
      {
        assert OwnerOk(s, blocks, port, j);
      }
    }
  }

  lemma LookupKeepsPort(s: State, blocks: seq<Block>, port: u16, packet: Packet)
    requires PortOk(s, blocks, port) && Next(s, Lookup(packet)).Some?
    requires packet.localPort in s.table ==>
               s.table[packet.localPort] in s.binders && s.binders[s.table[packet.localPort]].port == packet.localPort
    ensures PortOk(Next(s, Lookup(packet)).value, Extend(blocks, Lookup(packet), port), port)
  {
    var s' := Next(s, Lookup(packet)).value;
    var last := blocks[|blocks| - 1];
    var blocks' := Extend(blocks, Lookup(packet), port);
    FramesAppend(last.packets, packet);
    FramesAppend([], packet);
    assert [] + [packet] == [packet];
    hide Frames;
    forall i | 0 <= i < |blocks'|
      ensures OwnerOk(s', blocks', port, i)
    {
      assert OwnerOk(s, blocks, port, i);
      assert OwnerOk(s, blocks, port, |blocks| - 1);
      assert forall j | 0 <= j < |blocks| :: blocks'[j].owner == blocks[j].owner;
    }
  }

  lemma OtherKeepsPort(s: State, blocks: seq<Block>, port: u16, e: Event)
    requires PortOk(s, blocks, port) && Next(s, e).Some? && !e.Bind? && !e.Lookup?
    ensures PortOk(Next(s, e).value, Extend(blocks, e, port), port)
  {
    var s' := Next(s, e).value;
    if s.forwarder.Delivering? {
      FramesAppend([], s.forwarder.packet);
      assert [] + [s.forwarder.packet] == [s.forwarder.packet];
    }
    assert Frames([]) == [];
    hide Frames;
    forall i | 0 <= i < |blocks|
      ensures OwnerOk(s', blocks, port, i)
    {
      assert OwnerOk(s, blocks, port, i);
    }
  }

  lemma StepKeepsInv(s: State, before: seq<Event>, e: Event)
    requires Inv(s, before) && Next(s, e).Some?
    ensures Inv(Next(s, e).value, before + [e])
  {
    forall port: u16
      ensures PortOk(Next(s, e).value, Blocks(before + [e], port), port)
    {
      BlocksAfter(before, e, port);
      assert PortOk(s, Blocks(before, port), port);
      TableIsOfBinders(s, before, if e.Lookup? then e.packet.localPort else port);
      hide PortOk, Blocks, Extend;
      if e.Bind? {
        BindKeepsPort(s, Blocks(before, port), port, e.client, e.port);
      } else if e.Lookup? {
        LookupKeepsPort(s, Blocks(before, port), port, e.packet);
      } else {
        OtherKeepsPort(s, Blocks(before, port), port, e);
      }
    }
    TableIsOfBinders(s, before, if e.Lookup? then e.packet.localPort else 0);
  }

  /** The table names clients bound to that very port. */
  lemma TableIsOfBinders(s: State, events: seq<Event>, port: u16)
    requires Inv(s, events)
    ensures port in s.table ==> s.table[port] in s.binders && s.binders[s.table[port]].port == port
  {
    var blocks := Blocks(events, port);
    assert PortOk(s, blocks, port);
    assert OwnerOk(s, blocks, port, |blocks| - 1);
  }

  lemma {:induction false} RunKeepsInv(events: seq<Event>)
    requires Run(events).Some?
    ensures Inv(Run(events).value, events)
  {
    if events != [] {
      var before, e := events[..|events| - 1], events[|events| - 1];
      RunKeepsInv(before);
      StepKeepsInv(Run(before).value, before, e);
      assert before + [e] == events;
    }
  }

  /**
   For each port the packets looked up split in order into blocks, one per successive binder
   after an initial one that is dropped; and each binder is handed a prefix of its own block,
   all of it, but for one packet the forwarder may still hold, as long as it has not closed.
   */
  lemma EachBinderGetsAPrefixOfItsBlock(events: seq<Event>, port: u16, i: nat)
    requires Run(events).Some? && 0 < i < |Blocks(events, port)|
    ensures i <= |BindersOf(events, port)|
    ensures var s := Run(events).value;
            var c := BindersOf(events, port)[i - 1];
            var packets := Blocks(events, port)[i].packets;
            && c in s.binders && s.binders[c].port == port
            && s.binders[c].got + s.binders[c].queue <= Frames(packets)
            && (s.binders[c].open ==>
                  s.binders[c].got + s.binders[c].queue + Frames(WaitingFor(s.forwarder, c)) == Frames(packets))
            && |WaitingFor(s.forwarder, c)| <= 1
  {
    BlocksPartitionTheTraffic(events, port);
    RunKeepsInv(events);
    var s, blocks := Run(events).value, Blocks(events, port);
    assert PortOk(s, blocks, port);
    assert OwnerOk(s, blocks, port, i);
  }

  /** Whoever is bound did bind, so has a block of its own. */
  lemma {:induction false} EveryBinderHasABlock(events: seq<Event>, c: Client)
    requires Run(events).Some? && c in Run(events).value.binders
    ensures c in BindersOf(events, Run(events).value.binders[c].port)
  {
    if events != [] {
      var before, e := events[..|events| - 1], events[|events| - 1];
      var s, s' := Run(before).value, Run(events).value;
      if c in s.binders {
        EveryBinderHasABlock(before, c);
        assert s'.binders[c].port == s.binders[c].port;
      } else {
        assert e == Bind(c, s'.binders[c].port);
        assert BindersOf(events, e.port) == BindersOf(before, e.port) + [c];
      }
    }
  }

  /** The latest block of a port belongs to whom the table names, and no client has two. */
  lemma BlocksNameTheTable(events: seq<Event>, port: u16)
    requires Run(events).Some?
    ensures var blocks, s := Blocks(events, port), Run(events).value;
            && blocks[|blocks| - 1].owner == (if port in s.table then Some(s.table[port]) else None)
            && forall i, j | 0 < i < j < |blocks| :: blocks[i].owner != blocks[j].owner
  {
    RunKeepsInv(events);
    BlocksPartitionTheTraffic(events, port);
    var blocks, s := Blocks(events, port), Run(events).value;
    assert PortOk(s, blocks, port);
    forall i, j | 0 < i < j < |blocks|
      ensures blocks[i].owner != blocks[j].owner
    {
      assert OwnerOk(s, blocks, port, i);
    }
  }

  // ---------------------------------------------------------------- the table in place

  /** The daemon's local side: the port table, the clients' queues, and the forwarder's hand. */
  class UnixState {
    var connections: map<u16, Client>
    var binders: map<Client, Binder>
    var forwarder: Forwarder
    var nextClient: Client
    ghost var history: seq<Event>

    ghost function View(): State
      reads this
    {
      State(connections, binders, forwarder)
    }

    ghost predicate Valid()
      reads this
    {
      Run(history) == Some(View()) && forall c | c in binders :: c < nextClient
    }

    constructor ()
      ensures Valid() && View() == START
    {
      connections, binders, forwarder, nextClient := map[], map[], Idle, 0;
      history := [];
    }

    ghost method Record(e: Event, before: State)
      requires Run(history) == Some(before) && Next(before, e) == Some(View())
      modifies this`history
      ensures history == old(history) + [e] && Run(history) == Some(View())
    {
      history := history + [e];
      assert history[..|history| - 1] == old(history);
    }

    /** A new client takes over the port. */
    method Bind(port: u16) returns (client: Client)
      requires Valid()
      modifies this
      ensures Valid() && history == old(history) + [Event.Bind(client, port)]
      ensures connections == old(connections)[port := client] && client !in old(binders)
    {
      ghost var before := View();
      client := nextClient;
      nextClient := nextClient + 1;
      binders := binders[client := Binder(port, [], [], true)];
      connections := connections[port := client];
      Record(Event.Bind(client, port), before);
    }

    /** First half of delivering: find the queue for the port; without one the packet is dropped. */
    method FindQueue(packet: Packet)
      requires Valid() && forwarder.Idle?
      modifies this
      ensures Valid() && history == old(history) + [Lookup(packet)]
    {
      ghost var before := View();
      if packet.localPort in connections {
        forwarder := Delivering(packet, connections[packet.localPort]);
      }
      Record(Lookup(packet), before);
    }

    /** Second half: push into the queue that was found, whoever is bound by now; `blocked` while it is full. */
    method PushToQueue() returns (blocked: bool)
      requires Valid() && forwarder.Delivering?
      modifies this
      ensures Valid()
      ensures blocked ==> View() == old(View()) && history == old(history)
      ensures blocked <==> Next(old(View()), Send).None?
      ensures blocked <==> old(forwarder.client in binders && binders[forwarder.client].open
                               && |binders[forwarder.client].queue| >= 10)
      ensures !blocked ==> history == old(history) + [Send] && forwarder.Idle?
      ensures !blocked ==>
                var Delivering(packet, client) := old(forwarder);
                && binders.Keys == old(binders).Keys && client in binders
                && (forall c | c in binders && c != client :: binders[c] == old(binders)[c])
                && binders[client].queue
                   == old(binders)[client].queue
                      + (if old(binders)[client].open then [Frame(packet.host, packet.remotePort, packet.data)] else [])
    {
      RunKeepsInv(history);
      ghost var before := View();
      var Delivering(packet, client) := forwarder;
      var b := binders[client];
      if b.open {
        if |b.queue| >= CAPACITY {
          return true;
        }
        binders := binders[client := b.(queue := b.queue + [FrameOf(packet)])];
      }
      forwarder := Idle;
      Record(Send, before);
      return false;
    }

    /** The write task of a client takes the oldest frame of its queue. */
    method TakeFromQueue(client: Client) returns (frame: Frame)
      requires Valid() && client in binders && binders[client].queue != []
      modifies this
      ensures Valid() && history == old(history) + [Receive(client)]
      ensures [frame] + binders[client].queue == old(binders[client].queue)
      ensures forwarder == old(forwarder) && connections == old(connections)
    {
      ghost var before := View();
      var b := binders[client];
      frame := b.queue[0];
      binders := binders[client := b.(got := b.got + [frame], queue := b.queue[1..])];
      Record(Receive(client), before);
    }

    /** A client goes away; its port keeps pointing at the queue nobody reads. */
    method CloseClient(client: Client)
      requires Valid() && client in binders
      modifies this
      ensures Valid() && history == old(history) + [Close(client)]
      ensures !binders[client].open && connections == old(connections)
    {
      ghost var before := View();
      binders := binders[client := binders[client].(open := false)];
      Record(Close(client), before);
    }
  }
}
