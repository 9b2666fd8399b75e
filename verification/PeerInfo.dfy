/**
 The peer-information protocol among any number of nodes. Nodes publish their own addresses
 and relays, ask relays about others, and answer from their tables. Messages may be delivered
 in any order or lost; a local client on port 0 can have its node send any control message.
 */
module PeerInfo {
  import opened Bytes

  type Id = nat

  /** A socket address; `ip` stands for everything in it but the port. */
  datatype Addr = Addr(ip: nat, port: u16)

  datatype Peer = Peer(id: Id, addresses: seq<Addr>, relays: seq<Id>)

  type Table = map<Id, Peer>

  datatype Message = Info(peer: Peer) | Request(id: Id) | Invalid(bytes: seq<u8>)

  datatype Envelope = Envelope(from: Id, to: Id, message: Message)

  datatype Node = Node(table: Table, addresses: seq<Addr>, relays: seq<Id>)

  /** The nodes and messages under way, with what the nodes started from, published, handled, and were made to send. */
  datatype Net = Net(
    nodes: map<Id, Node>,
    flight: seq<Envelope>,
    initial: map<Id, Table>,
    published: set<Peer>,
    injected: set<(Id, Peer)>,
    handled: map<Id, seq<Envelope>>)

  datatype Action =
    | SetAddresses(node: Id, addresses: seq<Addr>)
    | AddRelay(node: Id, relay: Id)
    | Publish(node: Id, to: Id)
    | Ask(node: Id, about: Id)
    | Inject(node: Id, to: Id, message: Message)
    | Deliver(index: nat, canReply: bool)
    | Lose(index: nat)

  /** A node's record of itself. */
  function MyPeerInformation(n: Id, node: Node): Peer {
    Peer(n, node.addresses, node.relays)
  }

  /** Only what a node says about itself is taken over. */
  function Learn(table: Table, from: Id, message: Message): Table {
    match message
    case Info(peer) => if from == peer.id then table[peer.id := peer] else table
    case _ => table
  }

  /** A request is answered from the table, if it has an entry. */
  function Reply(table: Table, me: Id, from: Id, message: Message): seq<Envelope> {
    match message
    case Request(id) => if id in table then [Envelope(me, from, Info(table[id]))] else []
    case _ => []
  }

  function Without<T>(s: seq<T>, i: nat): seq<T>
    requires i < |s|
  {
    s[..i] + s[i + 1..]
  }

  function DoDeliver(net: Net, i: nat, canReply: bool): Option<Net> {
    if i >= |net.flight| || net.flight[i].to !in net.nodes || net.flight[i].to !in net.handled then None
    else
      var e := net.flight[i];
      var node := net.nodes[e.to];
      var reply := if canReply then Reply(node.table, e.to, e.from, e.message) else [];
      Some(net.(nodes := net.nodes[e.to := node.(table := Learn(node.table, e.from, e.message))],
                flight := Without(net.flight, i) + reply,
                handled := net.handled[e.to := net.handled[e.to] + [e]]))
  }

  /** Ask the first relay named in the table's entry. */
  function DoAsk(net: Net, n: Id, about: Id): Option<Net> {
    if n !in net.nodes then None
    else
      var table := net.nodes[n].table;
      if about !in table || table[about].relays == [] then None
      else Some(net.(flight := net.flight + [Envelope(n, table[about].relays[0], Request(about))]))
  }

  function Next(net: Net, a: Action): Option<Net> {
    match a
    case SetAddresses(n, addresses) =>
      if n !in net.nodes then None
      else Some(net.(nodes := net.nodes[n := net.nodes[n].(addresses := addresses)]))
    case AddRelay(n, relay) =>
      if n !in net.nodes then None
      else Some(net.(nodes := net.nodes[n := net.nodes[n].(relays := net.nodes[n].relays + [relay])]))
    case Publish(n, to) =>
      if n !in net.nodes then None
      else
        var me := MyPeerInformation(n, net.nodes[n]);
        Some(net.(flight := net.flight + [Envelope(n, to, Info(me))], published := net.published + {me}))
    case Ask(n, about) => DoAsk(net, n, about)
    case Inject(n, to, message) =>
      var injected := if message.Info? then net.injected + {(n, message.peer)} else net.injected;
      Some(net.(flight := net.flight + [Envelope(n, to, message)], injected := injected))
    case Deliver(i, canReply) => DoDeliver(net, i, canReply)
    case Lose(i) => if i >= |net.flight| then None else Some(net.(flight := Without(net.flight, i)))
  }

  function Run(net: Net, actions: seq<Action>): Option<Net>
    decreases |actions|
  {
    if actions == [] then Some(net)
    else
      var next := Next(net, actions[0]);
      if next.None? then None else Run(next.value, actions[1..])
  }

  /** Nodes start with the tables of their configurations and nothing is under way. */
  ghost predicate Init(net: Net) {
    && net.initial.Keys == net.nodes.Keys == net.handled.Keys
    && (forall n | n in net.nodes :: net.nodes[n].table == net.initial[n] && net.handled[n] == [])
    && net.flight == [] && net.published == {} && net.injected == {}
  }

  ghost predicate Reachable(net: Net) {
    exists start, actions :: Init(start) && Run(start, actions) == Some(net)
  }

  // ---------------------------------------------------------------- where records come from

  /** The record is what the node it names published at some moment, or had a port-0 client send about itself. */
  ghost predicate SaidBySubject(net: Net, peer: Peer) {
    peer in net.published || (peer.id, peer) in net.injected
  }

  ghost predicate InitialSomewhere(net: Net, peer: Peer) {
    exists n, key :: n in net.initial && key in net.initial[n] && net.initial[n][key] == peer
  }

  /** A record with a history. */
  ghost predicate RecordOk(net: Net, peer: Peer) {
    SaidBySubject(net, peer) || InitialSomewhere(net, peer)
  }

  ghost predicate TableOk(net: Net, table: Table) {
    forall key | key in table :: RecordOk(net, table[key])
  }

  /** Under way there may also be what a port-0 client had the sender say about others. */
  ghost predicate EnvelopeOk(net: Net, e: Envelope) {
    e.message.Info? ==> RecordOk(net, e.message.peer) || (e.from, e.message.peer) in net.injected
  }

  ghost predicate KeysAreIds(table: Table) {
    forall key | key in table :: table[key].id == key
  }

  /** The table after handling some messages one after another. */
  function LearnAll(table: Table, messages: seq<Envelope>): Table {
    if messages == [] then table
    else
      var last := messages[|messages| - 1];
      Learn(LearnAll(table, messages[..|messages| - 1]), last.from, last.message)
  }

  ghost predicate NodeOk(net: Net, n: Id)
    requires n in net.nodes
  {
    && n in net.initial && n in net.handled
    && TableOk(net, net.nodes[n].table)
    && net.nodes[n].table == LearnAll(net.initial[n], net.handled[n])
    && (KeysAreIds(net.initial[n]) ==> KeysAreIds(net.nodes[n].table))
  }

  ghost predicate Inv(net: Net) {
    && (forall n | n in net.nodes :: NodeOk(net, n))
    && (forall e | e in net.flight :: EnvelopeOk(net, e))
    && (forall n, e | n in net.handled && e in net.handled[n] :: e.to == n && EnvelopeOk(net, e))
  }

  /** What is said stays said. */
  ghost predicate Grown(net: Net, net': Net) {
    net.initial == net'.initial && net.published <= net'.published && net.injected <= net'.injected
  }

  lemma RecordStaysOk(net: Net, net': Net, peer: Peer)
    requires Grown(net, net') && RecordOk(net, peer)
    ensures RecordOk(net', peer)
  {
    if InitialSomewhere(net, peer) {
      var n, key :| n in net.initial && key in net.initial[n] && net.initial[n][key] == peer;
      assert n in net'.initial && key in net'.initial[n] && net'.initial[n][key] == peer;
    }
  }

  lemma EnvelopeStaysOk(net: Net, net': Net, e: Envelope)
    requires Grown(net, net') && EnvelopeOk(net, e)
    ensures EnvelopeOk(net', e)
  {
    if e.message.Info? && RecordOk(net, e.message.peer) {
      RecordStaysOk(net, net', e.message.peer);
    }
  }

  lemma NodeStaysOk(net: Net, net': Net, n: Id)
    requires Grown(net, net') && n in net.nodes && n in net'.nodes && NodeOk(net, n)
    requires net'.nodes[n].table == net.nodes[n].table && n in net'.handled && net'.handled[n] == net.handled[n]
    ensures NodeOk(net', n)
  {
    forall key | key in net.nodes[n].table
      ensures RecordOk(net', net.nodes[n].table[key])
    {
      RecordStaysOk(net, net', net.nodes[n].table[key]);
    }
  }

  /** The receiver's table after one more message. */
  lemma LearnKeepsNodeOk(net: Net, e: Envelope)
    requires e.to in net.nodes && NodeOk(net, e.to) && EnvelopeOk(net, e)
    ensures var node := net.nodes[e.to];
            NodeOk(net.(nodes := net.nodes[e.to := node.(table := Learn(node.table, e.from, e.message))],
                        handled := net.handled[e.to := net.handled[e.to] + [e]]), e.to)
  {
    var node := net.nodes[e.to];
    var net' := net.(nodes := net.nodes[e.to := node.(table := Learn(node.table, e.from, e.message))],
                     handled := net.handled[e.to := net.handled[e.to] + [e]]);
    assert (net.handled[e.to] + [e])[..|net.handled[e.to]|] == net.handled[e.to];
    forall key | key in net'.nodes[e.to].table
      ensures RecordOk(net', net'.nodes[e.to].table[key])
    {
      assert RecordOk(net, net'.nodes[e.to].table[key]);
      RecordStaysOk(net, net', net'.nodes[e.to].table[key]);
    }
  }

  lemma DeliverKeepsInv(net: Net, i: nat, canReply: bool)
    requires Inv(net) && DoDeliver(net, i, canReply).Some?
    ensures Inv(DoDeliver(net, i, canReply).value)
  {
    var net' := DoDeliver(net, i, canReply).value;
    var e := net.flight[i];
    NodesAfterDelivery(net, i, canReply);
    FlightAfterDelivery(net, i, canReply);
    HandledStayOk(net, net');
    EnvelopeStaysOk(net, net', e);
    hide NodeOk, EnvelopeOk, Learn, Reply;
  }

  lemma NodesAfterDelivery(net: Net, i: nat, canReply: bool)
    requires Inv(net) && DoDeliver(net, i, canReply).Some?
    ensures var net' := DoDeliver(net, i, canReply).value; forall n | n in net'.nodes :: NodeOk(net', n)
  {
    var net' := DoDeliver(net, i, canReply).value;
    var e := net.flight[i];
    LearnKeepsNodeOk(net, e);
    hide LearnAll, TableOk, KeysAreIds, Learn, RecordOk;
    forall n | n in net'.nodes
      ensures NodeOk(net', n)
    {
      if n == e.to {
        var learnt := net.(nodes := net'.nodes, handled := net'.handled);
        NodeStaysOk(learnt, net', n);
      } else {
        NodeStaysOk(net, net', n);
      }
    }
  }

  lemma FlightAfterDelivery(net: Net, i: nat, canReply: bool)
    requires Inv(net) && DoDeliver(net, i, canReply).Some?
    ensures var net' := DoDeliver(net, i, canReply).value; forall f | f in net'.flight :: EnvelopeOk(net', f)
  {
    var net' := DoDeliver(net, i, canReply).value;
    var e := net.flight[i];
    hide LearnAll, TableOk, KeysAreIds, Learn, RecordOk;
    forall f | f in net'.flight
      ensures EnvelopeOk(net', f)
    {
      if f in net.flight {
        EnvelopeStaysOk(net, net', f);
      } else {
        AnswerIsOk(net, e.to, f);
        EnvelopeStaysOk(net, net', f);
      }
    }
  }

  lemma HandledStayOk(net: Net, net': Net)
    requires Inv(net) && Grown(net, net')
    ensures forall n, f | n in net.handled && f in net.handled[n] :: f.to == n && EnvelopeOk(net', f)
  {
    forall n, f | n in net.handled && f in net.handled[n]
      ensures f.to == n && EnvelopeOk(net', f)
    {
      EnvelopeStaysOk(net, net', f);
    }
  }

  /** An answer carries an entry of the answering table. */
  lemma AnswerIsOk(net: Net, n: Id, f: Envelope)
    requires n in net.nodes && NodeOk(net, n)
    requires f.message.Info? && exists key :: key in net.nodes[n].table && net.nodes[n].table[key] == f.message.peer
    ensures EnvelopeOk(net, f)
  {
  }

  lemma StepKeepsInv(net: Net, a: Action)
    requires Inv(net) && Next(net, a).Some?
    ensures Inv(Next(net, a).value)
  {
    if a.Deliver? {
      DeliverKeepsInv(net, a.index, a.canReply);
    } else {
      var net' := Next(net, a).value;
      hide LearnAll, TableOk, KeysAreIds;
      forall n | n in net'.nodes
        ensures NodeOk(net', n)
      {
        NodeStaysOk(net, net', n);
      }
      forall f | f in net'.flight
        ensures EnvelopeOk(net', f)
      {
        if f in net.flight {
          EnvelopeStaysOk(net, net', f);
        }
      }
      HandledStayOk(net, net');
    }
  }

  lemma {:induction false} RunKeepsInv(net: Net, actions: seq<Action>)
    requires Inv(net) && Run(net, actions).Some?
    ensures Inv(Run(net, actions).value)
    decreases |actions|
  {
    hide Inv, Next;
    if actions != [] {
      StepKeepsInv(net, actions[0]);
      RunKeepsInv(Next(net, actions[0]).value, actions[1..]);
    }
  }

  lemma InitHolds(net: Net)
    requires Init(net)
    ensures Inv(net)
  {
    forall n | n in net.nodes
      ensures NodeOk(net, n)
    {
      forall key | key in net.nodes[n].table
        ensures InitialSomewhere(net, net.nodes[n].table[key])
      {
        assert n in net.initial && key in net.initial[n];
      }
    }
  }

  lemma ReachableInv(net: Net)
    requires Reachable(net)
    ensures Inv(net)
  {
    var start, actions :| Init(start) && Run(start, actions) == Some(net);
    InitHolds(start);
    RunKeepsInv(start, actions);
  }

  // ---------------------------------------------------------------- what the actions alone decide

  /** A node's addresses after some actions: the last that were set. */
  function AddressesAfter(start: Net, actions: seq<Action>, n: Id): seq<Addr>
    requires n in start.nodes
  {
    if actions == [] then start.nodes[n].addresses
    else
      var last := actions[|actions| - 1];
      if last.SetAddresses? && last.node == n then last.addresses
      else AddressesAfter(start, actions[..|actions| - 1], n)
  }

  function RelaysAfter(start: Net, actions: seq<Action>, n: Id): seq<Id>
    requires n in start.nodes
  {
    if actions == [] then start.nodes[n].relays
    else
      var last := actions[|actions| - 1];
      RelaysAfter(start, actions[..|actions| - 1], n)
      + (if last.AddRelay? && last.node == n then [last.relay] else [])
  }

  /** The k-th action has the node named in the record publish it, as its addresses and relays then are. */
  ghost predicate PublishedAt(start: Net, actions: seq<Action>, k: nat, peer: Peer) {
    && k < |actions| && actions[k].Publish? && actions[k].node == peer.id && peer.id in start.nodes
    && peer.addresses == AddressesAfter(start, actions[..k], peer.id)
    && peer.relays == RelaysAfter(start, actions[..k], peer.id)
  }

  ghost predicate WasPublished(start: Net, actions: seq<Action>, peer: Peer) {
    exists k :: PublishedAt(start, actions, k, peer)
  }

  ghost predicate WasInjected(actions: seq<Action>, n: Id, peer: Peer) {
    exists to :: Inject(n, to, Info(peer)) in actions
  }

  /** A request was injected, or asked of the first relay its sender's entry named at that moment. */
  ghost predicate WasAsked(start: Net, actions: seq<Action>, e: Envelope)
    requires e.message.Request?
  {
    || Inject(e.from, e.to, e.message) in actions
    || exists k :: AskedAt(start, actions, k, e)
  }

  ghost predicate AskedAt(start: Net, actions: seq<Action>, k: nat, e: Envelope)
    requires e.message.Request?
  {
    && k < |actions| && actions[k] == Ask(e.from, e.message.id)
    && var net := Run(start, actions[..k]);
       && net.Some? && e.from in net.value.nodes
       && var table := net.value.nodes[e.from].table;
          e.message.id in table && table[e.message.id].relays != [] && table[e.message.id].relays[0] == e.to
  }

  /** The logs and the nodes' own data are what the actions say. */
  ghost predicate Follows(start: Net, actions: seq<Action>, net: Net) {
    && net.initial == start.initial && net.nodes.Keys == start.nodes.Keys
    && (forall n | n in net.nodes ::
          && net.nodes[n].addresses == AddressesAfter(start, actions, n)
          && net.nodes[n].relays == RelaysAfter(start, actions, n))
    && (forall peer | peer in net.published :: WasPublished(start, actions, peer))
    && (forall n, peer | (n, peer) in net.injected :: WasInjected(actions, n, peer))
    && (forall e | e in net.flight && e.message.Request? :: WasAsked(start, actions, e))
  }

  lemma OneMoreAction(start: Net, actions: seq<Action>, a: Action, n: Id)
    requires n in start.nodes
    ensures AddressesAfter(start, actions + [a], n)
            == if a.SetAddresses? && a.node == n then a.addresses else AddressesAfter(start, actions, n)
    ensures RelaysAfter(start, actions + [a], n)
            == RelaysAfter(start, actions, n) + (if a.AddRelay? && a.node == n then [a.relay] else [])
  {
    assert (actions + [a])[..|actions|] == actions;
  }

  /** What was published, injected or asked stays so. */
  lemma HistoryStays(start: Net, actions: seq<Action>, a: Action)
    ensures forall peer :: WasPublished(start, actions, peer) ==> WasPublished(start, actions + [a], peer)
    ensures forall n, peer :: WasInjected(actions, n, peer) ==> WasInjected(actions + [a], n, peer)
    ensures forall e: Envelope | e.message.Request? :: WasAsked(start, actions, e) ==> WasAsked(start, actions + [a], e)
  {
    var more := actions + [a];
    assert forall k | 0 <= k < |actions| :: more[..k] == actions[..k] && more[k] == actions[k];
    hide AddressesAfter, RelaysAfter, Run;
    forall peer | WasPublished(start, actions, peer)
      ensures WasPublished(start, more, peer)
    {
      var k :| PublishedAt(start, actions, k, peer);
      assert PublishedAt(start, more, k, peer);
    }
    forall n, peer | WasInjected(actions, n, peer)
      ensures WasInjected(more, n, peer)
    {
      var to :| Inject(n, to, Info(peer)) in actions;
      assert Inject(n, to, Info(peer)) in more;
    }
    forall e: Envelope | e.message.Request? && WasAsked(start, actions, e)
      ensures WasAsked(start, more, e)
    {
      if Inject(e.from, e.to, e.message) !in actions {
        var k :| AskedAt(start, actions, k, e);
        assert AskedAt(start, more, k, e);
      }
    }
  }

  lemma NodesFollow(start: Net, actions: seq<Action>, net: Net, a: Action)
    requires Follows(start, actions, net) && Next(net, a).Some?
    ensures var net' := Next(net, a).value;
            && net'.initial == start.initial && net'.nodes.Keys == start.nodes.Keys
            && forall n | n in net'.nodes ::
                 && net'.nodes[n].addresses == AddressesAfter(start, actions + [a], n)
                 && net'.nodes[n].relays == RelaysAfter(start, actions + [a], n)
  {
    hide AddressesAfter, RelaysAfter, WasPublished, WasInjected, WasAsked, Learn, Reply;
    forall n | n in start.nodes
      ensures Next(net, a).value.nodes[n].addresses == AddressesAfter(start, actions + [a], n)
      ensures Next(net, a).value.nodes[n].relays == RelaysAfter(start, actions + [a], n)
    {
      OneMoreAction(start, actions, a, n);
    }
  }

  /** What an action adds to the logs, and the requests it sends. */
  lemma NewHistory(start: Net, actions: seq<Action>, net: Net, a: Action)
    requires Follows(start, actions, net) && Next(net, a).Some? && Run(start, actions) == Some(net)
    ensures var net', more := Next(net, a).value, actions + [a];
            && (forall peer | peer in net'.published && peer !in net.published :: WasPublished(start, more, peer))
            && (forall n, peer | (n, peer) in net'.injected && (n, peer) !in net.injected ::
                  WasInjected(more, n, peer))
            && (forall e | e in net'.flight && e !in net.flight && e.message.Request? :: WasAsked(start, more, e))
  {
    var more := actions + [a];
    assert more[..|actions|] == actions && more[|actions|] == a && a in more;
    hide AddressesAfter, RelaysAfter, Run, Learn;
    match a
    case Publish(n, to) =>
      assert PublishedAt(start, more, |actions|, MyPeerInformation(n, net.nodes[n]));
    case Ask(n, about) =>
      var e := Envelope(n, net.nodes[n].table[about].relays[0], Request(about));
      assert AskedAt(start, more, |actions|, e);
    case Inject(n, to, message) =>
      assert message.Info? ==> WasInjected(more, n, message.peer);
    case _ =>
  }

  lemma StepFollows(start: Net, actions: seq<Action>, net: Net, a: Action)
    requires Follows(start, actions, net) && Next(net, a).Some? && Run(start, actions) == Some(net)
    ensures Follows(start, actions + [a], Next(net, a).value)
  {
    hide AddressesAfter, RelaysAfter, WasPublished, WasInjected, WasAsked, Next;
    NodesFollow(start, actions, net, a);
    HistoryStays(start, actions, a);
    NewHistory(start, actions, net, a);
  }

  lemma {:induction false} RunSnoc(net: Net, actions: seq<Action>, a: Action)
    requires Run(net, actions).Some?
    ensures Run(net, actions + [a]) == Next(Run(net, actions).value, a)
    decreases |actions|
  {
    if actions == [] {
      assert actions + [a] == [a];
      assert [a][1..] == [];
    } else {
      assert (actions + [a])[1..] == actions[1..] + [a];
      RunSnoc(Next(net, actions[0]).value, actions[1..], a);
    }
  }

  lemma {:induction false} RunFollows(start: Net, before: seq<Action>, net: Net, actions: seq<Action>)
    requires Follows(start, before, net) && Run(start, before) == Some(net) && Run(net, actions).Some?
    ensures Follows(start, before + actions, Run(net, actions).value)
    decreases |actions|
  {
    if actions == [] {
      assert before + actions == before;
    } else {
      hide Follows, Next;
      OneOver(before, actions);
      StepFollows(start, before, net, actions[0]);
      RunSnoc(start, before, actions[0]);
      RunFollows(start, before + [actions[0]], Next(net, actions[0]).value, actions[1..]);
    }
  }

  // ---------------------------------------------------------------- what the protocol guarantees

  /**
   The record was in some initial table; or the node it names published it, with the addresses and
   relays it had at that moment; or a port-0 client of that node had it sent.
   */
  ghost predicate HasHistory(start: Net, actions: seq<Action>, peer: Peer) {
    || (exists n, key :: n in start.nodes && key in start.nodes[n].table && start.nodes[n].table[key] == peer)
    || WasPublished(start, actions, peer)
    || WasInjected(actions, peer.id, peer)
  }

  /**
   In every run, going by its actions alone: every record in a table has a history, and so has
   every record under way or handled, unless a port-0 client of its sender had it sent. A request
   under way was injected, or goes to the first relay of the entry its sender had.
   */
  lemma RecordsHaveAHistory(start: Net, actions: seq<Action>)
    requires Init(start) && Run(start, actions).Some?
    ensures var net := Run(start, actions).value;
            && (forall n, key | n in net.nodes && key in net.nodes[n].table ::
                  HasHistory(start, actions, net.nodes[n].table[key]))
            && (forall e: Envelope |
                  e.message.Info? && (e in net.flight || exists n :: n in net.handled && e in net.handled[n]) ::
                  HasHistory(start, actions, e.message.peer) || WasInjected(actions, e.from, e.message.peer))
            && (forall e | e in net.flight && e.message.Request? :: WasAsked(start, actions, e))
  {
    var net := Run(start, actions).value;
    InitHolds(start);
    RunKeepsInv(start, actions);
    assert Follows(start, [], start);
    RunFollows(start, [], start, actions);
    assert [] + actions == actions;
    hide Run, WasPublished, WasInjected, WasAsked;
    forall n, key | n in net.nodes && key in net.nodes[n].table
      ensures HasHistory(start, actions, net.nodes[n].table[key])
    {
      assert NodeOk(net, n);
      FromLogs(start, actions, net, net.nodes[n].table[key]);
    }
    forall e: Envelope | e.message.Info? && (e in net.flight || exists n :: n in net.handled && e in net.handled[n])
      ensures HasHistory(start, actions, e.message.peer) || WasInjected(actions, e.from, e.message.peer)
    {
      assert EnvelopeOk(net, e);
      if RecordOk(net, e.message.peer) {
        FromLogs(start, actions, net, e.message.peer);
      }
    }
  }

  lemma FromLogs(start: Net, actions: seq<Action>, net: Net, peer: Peer)
    requires Init(start) && Follows(start, actions, net) && RecordOk(net, peer)
    ensures HasHistory(start, actions, peer)
  {
    hide WasPublished, WasInjected, WasAsked, AddressesAfter, RelaysAfter;
    if !SaidBySubject(net, peer) {
      var n, key :| n in net.initial && key in net.initial[n] && net.initial[n][key] == peer;
      assert n in start.nodes && key in start.nodes[n].table;
    }
  }

  /** A record that is published and delivered is the receiver's entry for that node, just as it was. */
  lemma PublishingInforms(net: Net, n: Id, to: Id, canReply: bool)
    requires n in net.nodes && to in net.nodes && to in net.handled
    ensures var next := Run(net, [Publish(n, to), Deliver(|net.flight|, canReply)]);
            && next.Some? && to in next.value.nodes && n in next.value.nodes[to].table
            && next.value.nodes[to].table[n] == Peer(n, net.nodes[n].addresses, net.nodes[n].relays)
            && forall id | id != n && id in net.nodes[to].table ::
                 id in next.value.nodes[to].table && next.value.nodes[to].table[id] == net.nodes[to].table[id]
  {
    var actions := [Publish(n, to), Deliver(|net.flight|, canReply)];
    var mid := Next(net, actions[0]).value;
    assert actions[1..] == [actions[1]] && actions[1..][1..] == [];
    assert mid.flight[|net.flight|] == Envelope(n, to, Info(Peer(n, net.nodes[n].addresses, net.nodes[n].relays)));
    assert Run(mid, actions[1..]) == Next(mid, actions[1]);
  }

  /** A message leaves only by being delivered or lost itself; the others stay, in order, before what is new. */
  lemma MessagesLeaveOneByOne(net: Net, a: Action)
    requires Next(net, a).Some?
    ensures var before, after := net.flight, Next(net, a).value.flight;
            match a
            case Deliver(i, _) => i < |before| && before[..i] + before[i + 1..] <= after
            case Lose(i) => i < |before| && after == before[..i] + before[i + 1..]
            case _ => before <= after
  {
  }

  /**
   A request for X is answered with the entry for X, as it stands, exactly when there is one and
   the asker can be reached; nothing else is ever answered.
   */
  lemma RequestsAreAnsweredFromTheTable(net: Net, i: nat, canReply: bool)
    requires i < |net.flight| && DoDeliver(net, i, canReply).Some?
    ensures var e, flight := net.flight[i], DoDeliver(net, i, canReply).value.flight;
            var others := net.flight[..i] + net.flight[i + 1..];
            match e.message
            case Request(id) =>
              if canReply && id in net.nodes[e.to].table then
                flight == others + [Envelope(e.to, e.from, Info(net.nodes[e.to].table[id]))]
              else flight == others
            case _ => flight == others
  {
  }

  /**
   A node that asks its relay about X gets the relay's entry for X as an answer, but keeps its own
   table as it is, because the answer is about another than its sender.
   */
  lemma AskingTeachesNothing(net: Net, n: Id, about: Id, relay: Id, canReply: bool)
    requires n in net.nodes && n in net.handled && relay in net.nodes && relay in net.handled && relay != n
    requires about in net.nodes[n].table && net.nodes[n].table[about].relays != []
    requires net.nodes[n].table[about].relays[0] == relay
    requires about in net.nodes[relay].table && net.nodes[relay].table[about].id != relay
    ensures var k := |net.flight|;
            var next := Run(net, [Ask(n, about), Deliver(k, true), Deliver(k, canReply)]);
            && next.Some? && n in next.value.handled && n in next.value.nodes
            && next.value.handled[n] == net.handled[n] + [Envelope(relay, n, Info(net.nodes[relay].table[about]))]
            && next.value.nodes[n] == net.nodes[n]
  {
    var k, answer := |net.flight|, Envelope(relay, n, Info(net.nodes[relay].table[about]));
    var asked := Next(net, Ask(n, about)).value;
    assert asked.flight == net.flight + [Envelope(n, relay, Request(about))];
    var answered := Next(asked, Deliver(k, true)).value;
    assert answered.flight == net.flight + [answer];
    var told := Next(answered, Deliver(k, canReply)).value;
    assert told.nodes[n] == net.nodes[n];
    RunOfThree(net, Ask(n, about), Deliver(k, true), Deliver(k, canReply));
  }

  lemma RunOfThree(net: Net, a: Action, b: Action, c: Action)
    requires Next(net, a).Some? && Next(Next(net, a).value, b).Some?
    ensures Run(net, [a, b, c]) == Next(Next(Next(net, a).value, b).value, c)
  {
    hide Next;
    assert [a, b, c][1..] == [b, c] && [b, c][1..] == [c] && [c][1..] == [];
    assert Run(Next(Next(net, a).value, b).value, [c]) == Next(Next(Next(net, a).value, b).value, c);
    assert Run(Next(net, a).value, [b, c]) == Run(Next(Next(net, a).value, b).value, [c]);
  }

  /** The last record about `id` that `id` itself sent, among some handled messages. */
  function LastFrom(messages: seq<Envelope>, id: Id): Option<Peer> {
    if messages == [] then None
    else
      var last := messages[|messages| - 1];
      if last.from == id && last.message.Info? && last.message.peer.id == id then Some(last.message.peer)
      else LastFrom(messages[..|messages| - 1], id)
  }

  lemma {:induction false} LearnAllIsLastFrom(table: Table, messages: seq<Envelope>, id: Id)
    ensures var learnt, last := LearnAll(table, messages), LastFrom(messages, id);
            if last.Some? then id in learnt && learnt[id] == last.value
            else (id in learnt <==> id in table) && (id in table ==> learnt[id] == table[id])
  {
    if messages != [] {
      LearnAllIsLastFrom(table, messages[..|messages| - 1], id);
    }
  }

  /**
   A node's entry for X is the last self-describing record from X it handled, else its initial
   entry; so nothing any other node or relay says can change it. Keys stay the records' ids.
   */
  lemma EntriesAreTheSubjectsLastWord(net: Net, n: Id, id: Id)
    requires Reachable(net) && n in net.nodes
    ensures n in net.initial && n in net.handled
    ensures var table, last := net.nodes[n].table, LastFrom(net.handled[n], id);
            if last.Some? then id in table && table[id] == last.value
            else (id in table <==> id in net.initial[n]) && (id in table ==> table[id] == net.initial[n][id])
    ensures KeysAreIds(net.initial[n]) ==> KeysAreIds(net.nodes[n].table)
  {
    ReachableInv(net);
    assert NodeOk(net, n);
    LearnAllIsLastFrom(net.initial[n], net.handled[n], id);
  }

  /**
   A message changes the receiver's table only if it is a new record of its own sender: a relay's
   answer about a third peer never does.
   */
  lemma AnswersAboutOthersAreIgnored(net: Net, i: nat, canReply: bool)
    requires i < |net.flight| && DoDeliver(net, i, canReply).Some?
    ensures var e, net' := net.flight[i], DoDeliver(net, i, canReply).value;
            net'.nodes[e.to].table != net.nodes[e.to].table <==>
              (e.message.Info? && e.message.peer.id == e.from
               && (e.from !in net.nodes[e.to].table || net.nodes[e.to].table[e.from] != e.message.peer))
  {
    var e := net.flight[i];
    var table := net.nodes[e.to].table;
    if e.message.Info? && e.message.peer.id == e.from {
      assert table[e.from := e.message.peer][e.from] == e.message.peer;
      if e.from in table && table[e.from] == e.message.peer {
        assert table[e.from := e.message.peer] == table;
      }
    }
  }

  // ---------------------------------------------------------------- the table in place

  /** A node's peer table, as it is changed in place. */
  class PeerInformationBase {
    var peers: Table

    constructor ()
      ensures peers == map[]
    {
      peers := map[];
    }

    method AddPeer(id: Id, peer: Peer)
      modifies this
      ensures peers == old(peers)[id := peer]
      ensures LookupPeerAddress(id) == if peer.addresses == [] then None else Some(peer.addresses[0])
    {
      peers := peers[id := peer];
    }

    function GetPeer(id: Id): Option<Peer>
      reads this
    {
      if id in peers then Some(peers[id]) else None
    }

    /** The first known address, if any. */
    function LookupPeerAddress(id: Id): Option<Addr>
      reads this
    {
      var peer := GetPeer(id);
      if peer.None? || peer.value.addresses == [] then None else Some(peer.value.addresses[0])
    }

    /** Adding an address keeps every other entry, creates a missing one, and never changes the first known address. */
    method AddPeerAddress(id: Id, address: Addr)
      modifies this
      ensures var before := if id in old(peers) then old(peers)[id] else Peer(id, [], []);
              peers == old(peers)[id := before.(addresses := before.addresses + [address])]
      ensures LookupPeerAddress(id)
              == Some(if old(LookupPeerAddress(id)).Some? then old(LookupPeerAddress(id)).value else address)
      ensures KeysAreIds(old(peers)) ==> KeysAreIds(peers)
    {
      if id !in peers {
        peers := peers[id := Peer(id, [], [])];
      }
      var peer := peers[id];
      peers := peers[id := peer.(addresses := peer.addresses + [address])];
    }

    /** What handling one control message from a host does to the table, and the record to answer with. */
    method ProcessControlMessage(me: Id, host: Id, message: Message) returns (answer: Option<Peer>)
      modifies this
      ensures peers == if message.Info? && message.peer.id == host then old(peers)[host := message.peer] else old(peers)
      ensures answer == if message.Request? && message.id in old(peers) then Some(old(peers)[message.id]) else None
      ensures peers == Learn(old(peers), host, message)
      ensures Reply(old(peers), me, host, message)
              == if answer.Some? then [Envelope(me, host, Info(answer.value))] else []
    {
      answer := None;
      match message
      case Info(peer) =>
        if host == peer.id {
          AddPeer(peer.id, peer);
        }
      case Request(id) => answer := GetPeer(id);
      case Invalid(_) =>
    }
  }
}
