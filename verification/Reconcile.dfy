/**
 One node's open sockets, reconciled with the addresses its interfaces have: stale sockets
 are closed, new addresses are opened, and every registered connection is told. Sockets and
 their registries are objects that are changed in place.
 */
module Reconcile {
  import opened Bytes
  import opened PeerInfo

  datatype LocalAddress = LocalAddress(interface: nat, address: Addr)

  /** An authenticated connection; `remote` is the identifier its read task puts on what it delivers. */
  datatype Connection = Connection(remote: Id, number: nat)

  datatype ConnectError = AddressNotFound | NoSocketOpen | HandshakeFailed

  datatype Result<+T> = Ok(value: T) | Err(error: ConnectError)

  // ---------------------------------------------------------------- transport sockets

  /** A socket with its registry of accepted connections. */
  class TransportSocket {
    const address: LocalAddress
    var connections: map<Id, Connection>
    var closed: bool
    var made: nat
    var dialled: seq<(Id, Addr)>

    ghost predicate Valid()
      reads this
    {
      forall id | id in connections :: connections[id].remote == id && connections[id].number < made
    }

    constructor (address: LocalAddress)
      ensures this.address == address && connections == map[] && !closed && Valid()
    {
      this.address := address;
      connections, closed, made, dialled := map[], false, 0, [];
    }

    /** A peer connected and proved its identifier: it is registered under it, replacing an earlier connection. */
    method Accept(id: Id) returns (conn: Connection)
      requires Valid()
      modifies this`connections, this`made
      ensures Valid() && connections == old(connections)[id := conn]
      ensures conn == Connection(id, old(made)) && made == old(made) + 1
    {
      conn := Connection(id, made);
      made := made + 1;
      connections := connections[id := conn];
    }

    /** An outgoing connection carries the identifier it was opened for, and is not registered. */
    method OpenConnection(id: Id, to: Addr, succeeds: bool) returns (r: Result<Connection>)
      requires Valid()
      modifies this`made, this`dialled
      ensures Valid() && dialled == old(dialled) + [(id, to)]
      ensures r == if succeeds then Ok(Connection(id, old(made))) else Err(HandshakeFailed)
      ensures made == old(made) + (if succeeds then 1 else 0)
    {
      dialled := dialled + [(id, to)];
      if !succeeds {
        return Err(HandshakeFailed);
      }
      r := Ok(Connection(id, made));
      made := made + 1;
    }

    function GetConnection(id: Id): Option<Connection>
      reads this
    {
      if id in connections then Some(connections[id]) else None
    }

    method Close()
      modifies this`connections, this`closed
      ensures connections == map[] && closed && Valid()
    {
      closed := true;
      connections := map[];
    }
  }

  type Sockets = map<Addr, TransportSocket>

  // ---------------------------------------------------------------- the specification of a pass

  function Addresses(locals: seq<LocalAddress>): set<Addr> {
    set l | l in locals :: l.address
  }

  /** The sockets a pass keeps: the same objects under the same keys. */
  function Kept(sockets: Sockets, current: seq<LocalAddress>): Sockets {
    map a | a in sockets && a in Addresses(current) :: sockets[a]
  }

  /** What discovery found, if it worked, and for which of its entries opening a socket will succeed. */
  datatype Pass = Pass(discovered: Option<seq<LocalAddress>>, succeeds: nat -> bool)

  /** Those of some entries that had no socket and can be opened. */
  function Opened(open: set<Addr>, current: seq<LocalAddress>, succeeds: nat -> bool): set<Addr> {
    set i | 0 <= i < |current| && current[i].address !in open && succeeds(i) :: current[i].address
  }

  /** This address is found by the pass, or nothing could be discovered. */
  predicate Stays(a: Addr, pass: Pass, port: u16) {
    pass.discovered.Some? ==> exists l :: l in pass.discovered.value && a == Addr(l.address.ip, port)
  }

  /** A socket on this address is opened by the pass. */
  predicate Opens(open: set<Addr>, pass: Pass, port: u16, a: Addr) {
    && a !in open && pass.discovered.Some?
    && exists i :: 0 <= i < |pass.discovered.value| && pass.succeeds(i) &&
                   a == Addr(pass.discovered.value[i].address.ip, port)
  }

  /** The addresses with an open socket after a pass. */
  function KeysAfter(open: set<Addr>, pass: Pass, port: u16): set<Addr> {
    if pass.discovered.None? then open
    else
      var found := pass.discovered.value;
      (set a | a in open && Stays(a, pass, port))
      + (set i | 0 <= i < |found| && Opens(open, pass, port, Addr(found[i].address.ip, port)) ::
           Addr(found[i].address.ip, port))
  }

  /** What happens to a node's sockets: the network changes, or a peer connects to an address. */
  datatype Event = NetworkChanged(pass: Pass) | PeerConnected(a: Addr, id: Id)

  function PassesOf(events: seq<Event>): seq<Pass> {
    if events == [] then []
    else
      var last := events[|events| - 1];
      PassesOf(events[..|events| - 1]) + (if last.NetworkChanged? then [last.pass] else [])
  }

  /** The peers that have connected to an address. */
  function AcceptedOn(events: seq<Event>, a: Addr): set<Id> {
    if events == [] then {}
    else
      var last := events[|events| - 1];
      AcceptedOn(events[..|events| - 1], a) + (if last.PeerConnected? && last.a == a then {last.id} else {})
  }

  function KeysAfterAll(open: set<Addr>, passes: seq<Pass>, port: u16): set<Addr> {
    if passes == [] then open
    else KeysAfter(KeysAfterAll(open, passes[..|passes| - 1], port), passes[|passes| - 1], port)
  }

  lemma OpenedAppend(open: set<Addr>, current: seq<LocalAddress>, succeeds: nat -> bool, i: nat)
    requires i < |current|
    ensures Opened(open, current[..i + 1], succeeds)
            == Opened(open, current[..i], succeeds)
               + (if current[i].address !in open && succeeds(i) then {current[i].address} else {})
  {
    var before, after := current[..i], current[..i + 1];
    forall a | a in Opened(open, before, succeeds)
      ensures a in Opened(open, after, succeeds)
    {
      var j :| 0 <= j < |before| && before[j].address !in open && succeeds(j) && before[j].address == a;
      assert after[j] == before[j];
    }
    assert after[i] == current[i] && forall j | 0 <= j < i :: after[j] == before[j];
  }

  /** What was open on other addresses makes no difference to what is opened. */
  lemma StaleDoNotMatter(open: set<Addr>, current: seq<LocalAddress>, succeeds: nat -> bool)
    ensures Opened(open * Addresses(current), current, succeeds) == Opened(open, current, succeeds)
  {
    var kept := open * Addresses(current);
    forall i | 0 <= i < |current|
      ensures current[i].address in kept <==> current[i].address in open
    {
      assert current[i] in current;
    }
    assert forall a :: a in Opened(kept, current, succeeds) <==> a in Opened(open, current, succeeds);
  }

  /** Setting the port on each discovered address gives what the pass is about. */
  lemma PortsAreSet(open: set<Addr>, pass: Pass, port: u16, current: seq<LocalAddress>)
    requires pass.discovered.Some? && |current| == |pass.discovered.value|
    requires var found := pass.discovered.value;
             forall i | 0 <= i < |found| :: current[i].address == Addr(found[i].address.ip, port)
    ensures forall a :: Stays(a, pass, port) <==> a in Addresses(current)
    ensures KeysAfter(open, pass, port) == open * Addresses(current) + Opened(open, current, pass.succeeds)
  {
    var found := pass.discovered.value;
    forall a
      ensures Stays(a, pass, port) <==> a in Addresses(current)
      ensures Opens(open, pass, port, a) <==> a in Opened(open, current, pass.succeeds)
    {
      if a in Addresses(current) {
        var i :| 0 <= i < |current| && current[i].address == a;
        assert found[i] in found;
      }
      if Stays(a, pass, port) {
        var i :| 0 <= i < |found| && a == Addr(found[i].address.ip, port);
        assert current[i] in current;
      }
    }
    hide Opened, Stays, Addresses;
    forall a
      ensures a in KeysAfter(open, pass, port) <==> (a in open && Stays(a, pass, port)) || Opens(open, pass, port, a)
    {
    }
  }

  /**
   Open sockets are always on the addresses of discovered interfaces, with the node's own port.
   One that was open stays so if and only if it is found again; another is open if and only if an
   entry with it could be opened. So with no failures they are exactly those found.
   */
  lemma PassFollowsDiscovery(open: set<Addr>, pass: Pass, port: u16)
    requires pass.discovered.Some?
    ensures var discovered := pass.discovered.value;
            var found := set l | l in discovered :: Addr(l.address.ip, port);
            && open * found <= KeysAfter(open, pass, port) <= found
            && (forall a | a in found - open ::
                  a in KeysAfter(open, pass, port) <==>
                  exists i :: 0 <= i < |discovered| && pass.succeeds(i) && Addr(discovered[i].address.ip, port) == a)
            && ((forall i :: pass.succeeds(i)) ==> KeysAfter(open, pass, port) == found)
  {
    var discovered := pass.discovered.value;
    forall l | l in discovered && forall i :: pass.succeeds(i)
      ensures Addr(l.address.ip, port) in KeysAfter(open, pass, port)
    {
      var i :| 0 <= i < |discovered| && discovered[i] == l;
      assert pass.succeeds(i);
      assert Addr(l.address.ip, port) !in open ==> Opens(open, pass, port, Addr(discovered[i].address.ip, port));
    }
  }

  /** A pass after one without failures, with the same addresses found, closes nothing and has nothing to open. */
  lemma SecondPassIsIdle(open: set<Addr>, pass: Pass, again: Pass, port: u16)
    requires pass.discovered.Some? && again.discovered == pass.discovered && forall i :: pass.succeeds(i)
    ensures var after := KeysAfter(open, pass, port);
            && (forall a | a in after :: Stays(a, again, port))
            && (forall l | l in again.discovered.value :: Addr(l.address.ip, port) in after)
            && KeysAfter(after, again, port) == after
  {
    PassFollowsDiscovery(open, pass, port);
    PassFollowsDiscovery(KeysAfter(open, pass, port), again, port);
    hide KeysAfter;
    var found := set l | l in pass.discovered.value :: Addr(l.address.ip, port);
    assert found - KeysAfter(open, pass, port) == {};
  }

  /** Open from the start for k == 0, else opened by the pass before the k-th. */
  predicate OpenFrom(open: set<Addr>, passes: seq<Pass>, port: u16, a: Addr, k: nat)
    requires k <= |passes|
  {
    if k == 0 then a in open
    else Opens(KeysAfterAll(open, passes[..k - 1], port), passes[k - 1], port, a)
  }

  ghost predicate StaysSince(passes: seq<Pass>, port: u16, a: Addr, k: nat) {
    forall j | k <= j < |passes| :: Stays(a, passes[j], port)
  }

  lemma OneMorePass(open: set<Addr>, passes: seq<Pass>, pass: Pass, port: u16)
    ensures KeysAfterAll(open, passes + [pass], port) == KeysAfter(KeysAfterAll(open, passes, port), pass, port)
    ensures forall a ::
              StaysSince(passes + [pass], port, a, 0) <==> StaysSince(passes, port, a, 0) && Stays(a, pass, port)
  {
    var more := passes + [pass];
    assert more[..|more| - 1] == passes;
    forall a
      ensures StaysSince(more, port, a, 0) <==> StaysSince(passes, port, a, 0) && Stays(a, pass, port)
    {
      assert StaysSince(more, port, a, 0) ==> Stays(a, more[|passes|], port);
      assert forall j | 0 <= j < |passes| :: more[j] == passes[j];
    }
  }

  type Registry = map<Id, Connection>

  /** A registry after some peers have connected: their connections are new, the others as before. */
  ghost predicate Joined(before: Registry, after: Registry, accepted: set<Id>) {
    && after.Keys == before.Keys + accepted
    && (forall id | id in before && id !in accepted :: after[id] == before[id])
    && (forall id | id in accepted :: after[id] !in before.Values)
  }

  lemma OneMoreJoined(before: Registry, after: Registry, accepted: set<Id>, id: Id, conn: Connection)
    requires Joined(before, after, accepted) && conn !in before.Values
    ensures Joined(before, after[id := conn], accepted + {id})
  {
  }

  /** One more event: one more pass, or one more peer on an address. */
  lemma OneMoreEvent(events: seq<Event>, e: Event)
    ensures PassesOf(events + [e]) == if e.NetworkChanged? then PassesOf(events) + [e.pass] else PassesOf(events)
    ensures forall a ::
              AcceptedOn(events + [e], a)
              == if e.PeerConnected? && e.a == a then AcceptedOn(events, a) + {e.id} else AcceptedOn(events, a)
  {
    assert (events + [e])[..|events|] == events;
  }

  /**
   After any passes, an address is open exactly when it was opened at some point and every
   discovery since has found it.
   */
  lemma {:induction false} OpenIffFoundEverSince(open: set<Addr>, passes: seq<Pass>, port: u16, a: Addr)
    ensures a in KeysAfterAll(open, passes, port)
            <==> exists k: nat :: k <= |passes| && OpenFrom(open, passes, port, a, k) && StaysSince(passes, port, a, k)
    decreases |passes|
  {
    var n := |passes|;
    if n == 0 {
      assert a in open ==> OpenFrom(open, passes, port, a, 0) && StaysSince(passes, port, a, 0);
    } else {
      var earlier := passes[..n - 1];
      OpenIffFoundEverSince(open, earlier, port, a);
      forall k: nat | k < n
        ensures OpenFrom(open, passes, port, a, k) == OpenFrom(open, earlier, port, a, k)
        ensures StaysSince(passes, port, a, k) <==> StaysSince(earlier, port, a, k) && Stays(a, passes[n - 1], port)
      {
        assert k > 0 ==> earlier[..k - 1] == passes[..k - 1];
      }
      assert StaysSince(passes, port, a, n);
      assert a in KeysAfterAll(open, passes, port) <==>
        (a in KeysAfterAll(open, earlier, port) && Stays(a, passes[n - 1], port)) || OpenFrom(open, passes, port, a, n);
    }
  }

  // ---------------------------------------------------------------- the node

  /** What `publish_addresses` sends: one record on one registered connection. */
  datatype Sending = Sending(socket: Addr, to: Id, conn: Connection, peer: Peer)

  class NetworkState {
    const me: Id
    const port: u16
    const pib: PeerInformationBase
    var relays: seq<Id>
    var sockets: Sockets

    ghost predicate Valid()
      reads this, sockets.Values
    {
      forall a | a in sockets ::
        && sockets[a].address.address == a && a.port == port
        && !sockets[a].closed && sockets[a].Valid()
    }

    constructor (me: Id, port: u16, pib: PeerInformationBase, relays: seq<Id>)
      ensures Valid() && sockets == map[]
      ensures this.me == me && this.port == port && this.pib == pib && this.relays == relays
    {
      this.me, this.port, this.pib := me, port, pib;
      this.relays := relays;
      sockets := map[];
    }

    /** Some sockets are removed and closed, one after another. */
    method CloseAll(stale: set<Addr>)
      requires Valid() && stale <= sockets.Keys
      modifies this`sockets, sockets.Values
      ensures Valid() && sockets == old(sockets) - stale
      ensures forall a | a in stale :: old(sockets)[a].closed && old(sockets)[a].connections == map[]
      ensures forall a | a in sockets :: unchanged(sockets[a])
    {
      ghost var before := sockets;
      assert forall a | a in before :: before[a].address.address == a;
      var left := stale;
      while left != {}
        invariant left <= stale && sockets.Keys == before.Keys - (stale - left)
        invariant forall a | a in sockets :: sockets[a] == before[a]
        invariant forall a | a in before && (a in left || a !in stale) :: unchanged(before[a])
        invariant forall a | a in stale && a !in left :: before[a].closed && before[a].connections == map[]
        decreases |left|
      {
        var a :| a in left;
        Remove(a);
        left := left - {a};
      }
    }

    /** One socket is removed and closed. */
    method Remove(a: Addr)
      requires a in sockets
      modifies this`sockets, sockets[a]
      ensures sockets == old(sockets) - {a} && old(sockets[a]).closed && old(sockets[a]).connections == map[]
    {
      var socket := sockets[a];
      sockets := sockets - {a};
      socket.Close();
    }

    /** Sockets on addresses that are gone are removed and closed; the others are not touched. */
    method CloseStaleSockets(current: seq<LocalAddress>)
      requires Valid()
      modifies this`sockets, sockets.Values
      ensures Valid() && sockets == Kept(old(sockets), current)
      ensures forall a | a in old(sockets) && a !in sockets ::
                old(sockets)[a].closed && old(sockets)[a].connections == map[]
      ensures forall a | a in sockets :: unchanged(sockets[a])
    {
      CloseAll(set a | a in sockets && a !in Addresses(current));
      hide Addresses;
    }

    /** Opening may fail, and then nothing changes. */
    method OpenSocket(address: LocalAddress, succeeds: bool)
      requires Valid() && address.address.port == port
      modifies this`sockets
      ensures Valid()
      ensures if succeeds then
                var a := address.address;
                a in sockets && sockets == old(sockets)[a := sockets[a]] && fresh(sockets[a])
                && sockets[a].connections == map[] && sockets[a].address == address
              else sockets == old(sockets)
    {
      if succeeds {
        var socket := new TransportSocket(address);
        sockets := sockets[address.address := socket];
      }
    }

    /** Open what can be opened among these addresses, but for those that have a socket already. */
    method OpenAll(current: seq<LocalAddress>, succeeds: nat -> bool)
      requires Valid() && (forall l | l in current :: l.address.port == port)
      modifies this`sockets
      ensures Valid() && sockets.Keys == old(sockets).Keys + Opened(old(sockets).Keys, current, succeeds)
      ensures forall a | a in old(sockets) :: sockets[a] == old(sockets)[a]
      ensures forall a | a in sockets && a !in old(sockets) ::
                fresh(sockets[a]) && sockets[a].connections == map[] && sockets[a].address in current
    {
      var open := sockets.Keys;
      for i := 0 to |current|
        invariant Valid() && sockets.Keys == open + Opened(open, current[..i], succeeds)
        invariant forall a | a in old(sockets) :: sockets[a] == old(sockets)[a]
        invariant forall a | a in sockets && a !in old(sockets) ::
                    fresh(sockets[a]) && sockets[a].connections == map[] && sockets[a].address in current
      {
        assert current[i] in current;
        if current[i].address !in open {
          OpenSocket(current[i], succeeds(i));
        }
        OpenedAppend(open, current, succeeds, i);
        hide Opened;
      }
      assert current[..|current|] == current;
    }

    /** The discovered addresses, with the node's own port set on each in turn. */
    method SetPorts(discovered: seq<LocalAddress>) returns (current: seq<LocalAddress>)
      ensures |current| == |discovered|
      ensures forall i | 0 <= i < |current| ::
                current[i] == LocalAddress(discovered[i].interface, Addr(discovered[i].address.ip, port))
    {
      current := discovered;
      for i := 0 to |current|
        invariant |current| == |discovered| && current[i..] == discovered[i..]
        invariant forall j | 0 <= j < i ::
                    current[j] == LocalAddress(discovered[j].interface, Addr(discovered[j].address.ip, port))
      {
        current := current[i := current[i].(address := current[i].address.(port := port))];
      }
    }

    /**
     One reconciliation pass. The open sockets afterwards are those still discovered, the same
     objects with their connections, and those just opened, each on a discovered interface with
     the node's own port; the rest are closed and cleared.
     */
    method OpenNewSockets(pass: Pass) returns (sent: seq<Sending>)
      requires Valid()
      modifies this`sockets, sockets.Values
      ensures Valid() && sockets.Keys == KeysAfter(old(sockets).Keys, pass, port)
      ensures pass.discovered.None? ==> sockets == old(sockets) && sent == []
      ensures pass.discovered.Some? ==>
                var found := set l | l in pass.discovered.value :: Addr(l.address.ip, port);
                old(sockets).Keys * found <= sockets.Keys <= found
      ensures forall a | a in old(sockets) && Stays(a, pass, port) ::
                a in sockets && sockets[a] == old(sockets)[a] && unchanged(sockets[a])
      ensures forall a | a in old(sockets) && !Stays(a, pass, port) ::
                old(sockets)[a].closed && old(sockets)[a].connections == map[]
      ensures forall a | a in sockets && !(a in old(sockets) && Stays(a, pass, port)) ::
                fresh(sockets[a]) && sockets[a].connections == map[]
      ensures forall a | a in sockets && a !in old(sockets) && pass.discovered.Some? ::
                exists l :: l in pass.discovered.value &&
                            sockets[a].address == LocalAddress(l.interface, Addr(l.address.ip, port))
      ensures pass.discovered.Some? ==> Announced(sent)
    {
      sent := [];
      if pass.discovered.None? {
        return;
      }
      var current := SetPorts(pass.discovered.value);
      PortsAreSet(sockets.Keys, pass, port, current);
      PassFollowsDiscovery(sockets.Keys, pass, port);
      hide Addresses, Opened, Stays, KeysAfter;
      FollowDiscovery(current, pass.succeeds);
      sent := PublishAddresses();
    }

    /** Close what is no longer among these addresses and open what is new among them. */
    method FollowDiscovery(current: seq<LocalAddress>, succeeds: nat -> bool)
      requires Valid() && forall l | l in current :: l.address.port == port
      modifies this`sockets, sockets.Values
      ensures Valid()
      ensures sockets.Keys == old(sockets).Keys * Addresses(current) + Opened(old(sockets).Keys, current, succeeds)
      ensures forall a | a in old(sockets) && a in Addresses(current) ::
                a in sockets && sockets[a] == old(sockets)[a] && unchanged(sockets[a])
      ensures forall a | a in old(sockets) && a !in Addresses(current) ::
                old(sockets)[a].closed && old(sockets)[a].connections == map[]
      ensures forall a | a in sockets && !(a in old(sockets) && a in Addresses(current)) ::
                fresh(sockets[a]) && sockets[a].connections == map[] && sockets[a].address in current
    {
      CloseStaleSockets(current);
      assert sockets.Keys == old(sockets).Keys * Addresses(current);
      StaleDoNotMatter(old(sockets).Keys, current, succeeds);
      hide Addresses, Opened;
      OpenAll(current, succeeds);
    }

    /** The record this node gives of itself. */
    ghost predicate DescribesMe(peer: Peer)
      reads this
    {
      && peer.id == me && peer.relays == relays
      && (set a | a in peer.addresses) == sockets.Keys && |peer.addresses| == |sockets|
    }

    /** In the protocol among the nodes, this node has these addresses and relays. */
    ghost predicate IsNode(node: Node)
      reads this
    {
      node.relays == relays && (set a | a in node.addresses) == sockets.Keys && |node.addresses| == |sockets|
    }

    /**
     What the node publishes in the protocol describes it: its identifier, its relays and each of
     its open addresses once. And any record that does can be the one it publishes.
     */
    lemma PublishesItself(net: Net, to: Id, peer: Peer)
      requires me in net.nodes
      ensures IsNode(net.nodes[me]) ==>
                exists sent :: DescribesMe(sent)
                               && Next(net, Publish(me, to)).value.flight == net.flight + [Envelope(me, to, Info(sent))]
      ensures DescribesMe(peer) ==>
                var moved := Next(net, SetAddresses(me, peer.addresses));
                && moved.Some?
                && (net.nodes[me].relays == relays ==>
                      && IsNode(moved.value.nodes[me])
                      && Next(moved.value, Publish(me, to)).value.flight
                         == net.flight + [Envelope(me, to, Info(peer))])
    {
      if IsNode(net.nodes[me]) {
        assert DescribesMe(Peer(me, net.nodes[me].addresses, net.nodes[me].relays));
      }
    }

    method MyPeerInformation() returns (peer: Peer)
      ensures DescribesMe(peer)
    {
      var addresses: seq<Addr> := [];
      var left := sockets.Keys;
      while left != {}
        invariant left <= sockets.Keys
        invariant (set a | a in addresses) == sockets.Keys - left && |addresses| + |left| == |sockets|
        decreases |left|
      {
        var a :| a in left;
        assert (set x | x in addresses + [a]) == (set x | x in addresses) + {a};
        addresses, left := addresses + [a], left - {a};
      }
      return Peer(me, addresses, relays);
    }

    /** Every connection registered on an open socket, and no other, is told once, with the present addresses. */
    ghost predicate Announced(sent: seq<Sending>)
      reads this, sockets.Values
    {
      && (forall s | s in sent ::
            s.socket in sockets && s.to in sockets[s.socket].connections
            && s.conn == sockets[s.socket].connections[s.to] && DescribesMe(s.peer))
      && (forall a, id | a in sockets && id in sockets[a].connections ::
            exists s :: s in sent && s.socket == a && s.to == id)
      && (forall i, j | 0 <= i < j < |sent| :: sent[i].socket != sent[j].socket || sent[i].to != sent[j].to)
    }

    method PublishAddresses() returns (sent: seq<Sending>)
      requires Valid()
      ensures Announced(sent)
    {
      var peer := MyPeerInformation();
      sent := [];
      var left := sockets.Keys;
      while left != {}
        invariant left <= sockets.Keys
        invariant forall s | s in sent ::
                    s.socket in sockets && s.socket !in left && s.to in sockets[s.socket].connections
                    && s.conn == sockets[s.socket].connections[s.to] && s.peer == peer
        invariant forall a, id | a in sockets && a !in left && id in sockets[a].connections ::
                    exists s :: s in sent && s.socket == a && s.to == id
        invariant forall i, j | 0 <= i < j < |sent| :: sent[i].socket != sent[j].socket || sent[i].to != sent[j].to
        decreases |left|
      {
        var a :| a in left;
        var more := PublishOn(a, peer);
        sent, left := sent + more, left - {a};
      }
    }

    method PublishOn(a: Addr, peer: Peer) returns (sent: seq<Sending>)
      requires a in sockets
      ensures forall s | s in sent ::
                s.socket == a && s.to in sockets[a].connections &&
                s.conn == sockets[a].connections[s.to] && s.peer == peer
      ensures forall id | id in sockets[a].connections :: exists s :: s in sent && s.socket == a && s.to == id
      ensures forall i, j | 0 <= i < j < |sent| :: sent[i].to != sent[j].to
    {
      sent := [];
      var connections := sockets[a].connections;
      var left := connections.Keys;
      while left != {}
        invariant left <= connections.Keys
        invariant forall s | s in sent ::
                    s.socket == a && s.to in connections &&
                    s.to !in left && s.conn == connections[s.to] && s.peer == peer
        invariant forall id | id in connections && id !in left :: exists s :: s in sent && s.socket == a && s.to == id
        invariant forall i, j | 0 <= i < j < |sent| :: sent[i].to != sent[j].to
        decreases |left|
      {
        var id :| id in left;
        var sending := Sending(a, id, connections[id], peer);
        assert sending in sent + [sending];
        sent, left := sent + [sending], left - {id};
      }
    }

    /** What has become of the sockets there were, and of their registries, after some events. */
    ghost predicate Outcome(before: Sockets, registries: map<Addr, Registry>, events: seq<Event>)
      requires before.Keys <= registries.Keys
      reads this, before.Values
    {
      && sockets.Keys == KeysAfterAll(before.Keys, PassesOf(events), port)
      && (forall a | a in before && StaysSince(PassesOf(events), port, a, 0) ::
            && a in sockets && sockets[a] == before[a]
            && Joined(registries[a], before[a].connections, AcceptedOn(events, a))
            && forall id | id in registries[a] :: registries[a][id].number < before[a].made)
      && (forall a | a in before && !StaysSince(PassesOf(events), port, a, 0) ::
            before[a].closed && before[a].connections == map[])
      && (forall a | a in sockets && sockets[a] in before.Values ::
            a in before && StaysSince(PassesOf(events), port, a, 0))
    }

    /** A peer connects to an address, if there is a socket on it. */
    method AcceptOn(a: Addr, id: Id, ghost before: Sockets,
                    ghost registries: map<Addr, Registry>, ghost events: seq<Event>)
      requires Valid() && before.Keys <= registries.Keys && Outcome(before, registries, events)
      modifies sockets.Values
      ensures Valid() && Outcome(before, registries, events + [PeerConnected(a, id)])
      ensures sockets == old(sockets)
    {
      OneMoreEvent(events, PeerConnected(a, id));
      hide PassesOf, AcceptedOn, StaysSince, KeysAfterAll, Joined;
      if a in sockets {
        ghost var registry := sockets[a].connections;
        assert forall b | b in sockets && b != a :: sockets[b] != sockets[a];
        var conn := sockets[a].Accept(id);
        if a in before && StaysSince(PassesOf(events), port, a, 0) {
          OneMoreJoined(registries[a], registry, AcceptedOn(events, a), id, conn);
        }
      }
    }

    /** The network changes. */
    method Follow(pass: Pass, ghost before: Sockets, ghost registries: map<Addr, Registry>, ghost events: seq<Event>)
      requires Valid() && before.Keys <= registries.Keys && Outcome(before, registries, events)
      modifies this`sockets, sockets.Values
      ensures Valid() && Outcome(before, registries, events + [NetworkChanged(pass)])
      ensures forall a | a in sockets :: fresh(sockets[a]) || (a in old(sockets) && sockets[a] == old(sockets)[a])
    {
      OneMoreEvent(events, NetworkChanged(pass));
      OneMorePass(before.Keys, PassesOf(events), pass, port);
      hide PassesOf, AcceptedOn, StaysSince, Stays, KeysAfter, KeysAfterAll, Joined, Announced;
      var _ := OpenNewSockets(pass);
    }

    /**
     Reconcile on every change of the network, as long as changes are reported, with peers
     connecting in between. A socket open before stays the same object, with its connections and
     those accepted since, as long as every pass finds its address; otherwise it has been closed
     and cleared for good.
     */
    method ObserveNetworkChanges(events: seq<Event>)
      requires Valid()
      modifies this`sockets, sockets.Values
      ensures Valid()
      ensures Outcome(old(sockets), old(map a | a in sockets :: sockets[a].connections), events)
      ensures forall a | a in sockets :: fresh(sockets[a]) || (a in old(sockets) && sockets[a] == old(sockets)[a])
    {
      ghost var before, registries := sockets, map a | a in sockets :: sockets[a].connections;
      assert Outcome(before, registries, events[..0]) by {
        hide Stays;
        assert PassesOf([]) == [] && forall a :: AcceptedOn([], a) == {};
      }
      hide Outcome;
      for i := 0 to |events|
        invariant Valid() && Outcome(before, registries, events[..i])
        invariant forall a | a in sockets :: fresh(sockets[a]) || (a in before && sockets[a] == before[a])
      {
        assert events[..i] + [events[i]] == events[..i + 1];
        match events[i]
        case NetworkChanged(pass) => Follow(pass, before, registries, events[..i]);
        case PeerConnected(a, id) => AcceptOn(a, id, before, registries, events[..i]);
      }
      assert events[..|events|] == events;
    }

    // ---------------------------------------------------------------- routing

    /** Some open socket has a connection registered for this host. */
    ghost predicate Registered(host: Id)
      reads this, sockets.Values
    {
      exists a :: a in sockets && host in sockets[a].connections
    }

    /**
     A connection for a host: a registered one if any socket has one, else a new one, for which
     one socket dials the first known address. Either way what comes back is labelled with that
     host; a new one is none of those registered on its socket.
     */
    method GetConnection(host: Id, succeeds: bool) returns (r: Result<Connection>)
      requires Valid()
      modifies sockets.Values`made, sockets.Values`dialled
      ensures Valid()
      ensures r.Ok? ==> r.value.remote == host
      ensures Registered(host) ==>
                (exists a :: a in sockets && host in sockets[a].connections && r == Ok(sockets[a].connections[host]))
                && forall a | a in sockets :: unchanged(sockets[a])
      ensures !Registered(host) && pib.LookupPeerAddress(host).Some? && sockets != map[] ==>
                exists via :: Dials(via, old(map b | b in sockets :: sockets[b].dialled), host)
                              && (r.Ok? ==> r.value.number == old(sockets[via].made) < sockets[via].made)
      ensures r.Err? && r.error != HandshakeFailed ==> forall a | a in sockets :: unchanged(sockets[a])
      ensures r.Ok? <==> Registered(host) || (pib.LookupPeerAddress(host).Some? && sockets != map[] && succeeds)
      ensures r.Err? && r.error == AddressNotFound <==> !Registered(host) && pib.LookupPeerAddress(host).None?
      ensures r.Err? && r.error == NoSocketOpen <==>
                !Registered(host) && pib.LookupPeerAddress(host).Some? && sockets == map[]
      ensures forall a | a in sockets :: sockets[a].connections == old(sockets[a].connections)
    {
      var left := sockets.Keys;
      while left != {}
        invariant left <= sockets.Keys
        invariant forall a | a in sockets && a !in left :: host !in sockets[a].connections
        decreases |left|
      {
        var a :| a in left;
        var registered := sockets[a].GetConnection(host);
        if registered.Some? {
          return Ok(registered.value);
        }
        left := left - {a};
      }
      ghost var before := map b | b in sockets :: sockets[b].dialled;
      ghost var via;
      r, via := Connect(host, succeeds);
      assert pib.LookupPeerAddress(host).Some? && sockets != map[] ==> Dials(via, before, host);
    }

    /** This socket, and no other, has dialled the host at its first known address. */
    ghost predicate Dials(a: Addr, before: map<Addr, seq<(Id, Addr)>>, host: Id)
      reads this, sockets.Values, pib
    {
      && a in sockets && before.Keys == sockets.Keys && pib.LookupPeerAddress(host).Some?
      && sockets[a].dialled == before[a] + [(host, pib.LookupPeerAddress(host).value)]
      && forall b | b in sockets && b != a :: sockets[b].dialled == before[b]
    }

    method Connect(host: Id, succeeds: bool) returns (r: Result<Connection>, ghost via: Addr)
      requires Valid()
      modifies sockets.Values`made, sockets.Values`dialled
      ensures Valid()
      ensures r.Ok? ==> r.value.remote == host
      ensures pib.LookupPeerAddress(host).Some? && sockets != map[] ==>
                && Dials(via, old(map b | b in sockets :: sockets[b].dialled), host)
                && (r.Ok? ==> r.value.number == old(sockets[via].made) < sockets[via].made)
      ensures r.Err? && r.error != HandshakeFailed ==> forall a | a in sockets :: unchanged(sockets[a])
      ensures r.Ok? <==> pib.LookupPeerAddress(host).Some? && sockets != map[] && succeeds
      ensures r.Err? && r.error == AddressNotFound <==> pib.LookupPeerAddress(host).None?
      ensures r.Err? && r.error == NoSocketOpen <==> pib.LookupPeerAddress(host).Some? && sockets == map[]
    {
      var address := pib.LookupPeerAddress(host);
      via := Addr(0, 0);
      if address.None? {
        return Err(AddressNotFound), via;
      }
      if |sockets| == 0 {
        return Err(NoSocketOpen), via;
      }
      var a :| a in sockets;
      via := a;
      assert forall b | b in sockets && b != a :: sockets[b] != sockets[a];
      ghost var before := map b | b in sockets :: sockets[b].dialled;
      r := sockets[a].OpenConnection(host, address.value, succeeds);
      assert Dials(a, before, host);
    }
  }
}
