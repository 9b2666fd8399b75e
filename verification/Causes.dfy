/**
 What the actions of a run decide by themselves: the connections and the sockets of their ends,
 the clients and what they sent, the port tables, and what the tasks put on each connection.
 */
module Causes {
  import opened Bytes
  import opened FrameCodec
  import opened Merging
  import opened Places
  import opened Pipeline
  import opened PipelineSafety
  import opened PipelineRuns

  // ---------------------------------------------------------------- going by the actions

  /** A connection was opened with this end: its label, the peer it leads to and the socket there. */
  ghost predicate OpenedAs(actions: seq<Action>, h: Half, info: HalfInfo) {
    exists sock ::
      || Open(h, info.back, info.origin, info.target, sock, info.sock) in actions
      || Open(info.back, h, info.target, info.origin, info.sock, sock) in actions
  }

  /** The client that bound a port last. */
  function BoundLast(actions: seq<Action>, n: Host, port: u16): Option<Client> {
    if actions == [] then None
    else
      var last := actions[|actions| - 1];
      if last.Bind? && last.host == n && last.port == port then Some(last.c)
      else BoundLast(actions[..|actions| - 1], n, port)
  }

  /** What a client that bound this port has sent. */
  function Requested(actions: seq<Action>, c: Client, port: u16): seq<Packet> {
    if actions == [] then []
    else
      var last := actions[|actions| - 1];
      Requested(actions[..|actions| - 1], c, port)
      + (if last.Accept? && last.c == c then [Packet(last.to, port, last.toPort, last.data)] else [])
  }

  /** How often some actions have one of these among them. */
  function Count(actions: seq<Action>, a: Action): nat {
    if actions == [] then 0
    else Count(actions[..|actions| - 1], a) + (if actions[|actions| - 1] == a then 1 else 0)
  }

  /** The control messages that were put on a direction, in order. */
  function Controls(actions: seq<Action>, h: Half): seq<Frame> {
    if actions == [] then []
    else
      var last := actions[|actions| - 1];
      Controls(actions[..|actions| - 1], h)
      + (if last.SendControl? && last.h == h then [Data(0, 0, last.data)] else [])
  }

  /** The control messages among what the forwarder has put on a direction: clients on port 0 can send them. */
  function FromPortZero(ts: seq<Token>, h: Half): seq<Frame> {
    if ts == [] then []
    else
      var last := ts[|ts| - 1];
      FromPortZero(ts[..|ts| - 1], h)
      + (if last.Settled? && last.over == Some(h) && last.packet.srcPort == 0 && last.packet.dstPort == 0
         then [Data(0, 0, last.packet.data)] else [])
  }

  lemma OneMore(actions: seq<Action>, a: Action)
    ensures forall n, port ::
              BoundLast(actions + [a], n, port)
              == if a.Bind? && a.host == n && a.port == port then Some(a.c) else BoundLast(actions, n, port)
    ensures forall c, port ::
              Requested(actions + [a], c, port)
              == Requested(actions, c, port)
                 + (if a.Accept? && a.c == c then [Packet(a.to, port, a.toPort, a.data)] else [])
    ensures forall b :: Count(actions + [a], b) == Count(actions, b) + (if a == b then 1 else 0)
    ensures forall h ::
              Controls(actions + [a], h)
              == Controls(actions, h) + (if a.SendControl? && a.h == h then [Data(0, 0, a.data)] else [])
  {
    assert (actions + [a])[..|actions|] == actions;
  }

  lemma FromPortZeroPush(ts: seq<Token>, t: Token, h: Half)
    ensures FromPortZero(ts + [t], h)
            == FromPortZero(ts, h)
               + (if t.Settled? && t.over == Some(h) && t.packet.srcPort == 0 && t.packet.dstPort == 0
                  then [Data(0, 0, t.packet.data)] else [])
  {
    assert (ts + [t])[..|ts|] == ts;
  }

  // ---------------------------------------------------------------- what a step changes

  /** What an action puts on a direction. */
  function Enters(w: World, a: Action, h: Half): seq<Frame> {
    match a
    case SendPing(g) => if g == h then [Ping] else []
    case SendControl(g, data) => if g == h then [Data(0, 0, data)] else []
    case Answer(g) => if g in w.facts.halves && w.facts.halves[g].back == h then [Pong] else []
    case SendFrame(n, g) =>
      var hand := At(w.content, UnixHand(n));
      if g == h && hand != [] && hand[0].Outgoing? then
        [Data(hand[0].packet.srcPort, hand[0].packet.dstPort, hand[0].packet.data)]
      else []
    case _ => []
  }

  /** What an action adds to the forwarder's log. */
  function Settles(w: World, a: Action, n: Host): seq<Token> {
    var hand := At(w.content, UnixHand(n));
    if hand == [] || !hand[0].Outgoing? then []
    else
      match a
      case SendFrame(m, g) => if m == n then [Settled(hand[0].client, hand[0].packet, Some(g))] else []
      case DropUnsent(m) => if m == n then [Settled(hand[0].client, hand[0].packet, None)] else []
      case _ => []
  }

  /** What the logs are after a step. */
  ghost predicate Logs(w: World, a: Action, w': World) {
    && (forall h :: At(w'.content, Entered(h)) == At(w.content, Entered(h)) + AsTokens(h, Enters(w, a, h)))
    && (forall n :: At(w'.content, Forwarded(n)) == At(w.content, Forwarded(n)) + Settles(w, a, n))
    && (forall h :: |At(w'.content, Answered(h))| == |At(w.content, Answered(h))| + (if a == Answer(h) then 1 else 0))
    && (forall h :: |At(w'.content, Heard(h))| == |At(w.content, Heard(h))| + (if a == Hear(h) then 1 else 0))
  }

  function AsTokens(h: Half, frames: seq<Frame>): seq<Token> {
    if frames == [] then [] else [Framed(h, frames[0])]
  }

  ghost predicate SameLogs(w: World, w': World) {
    forall p: Place | p.Entered? || p.Forwarded? || p.Answered? || p.Heard? :: At(w'.content, p) == At(w.content, p)
  }

  lemma OnLinkLogs(w: World, a: Action)
    requires Next(w, a).Some? && OnLink(a) && !a.Answer? && !a.Hear?
    ensures SameLogs(w, Next(w, a).value)
  {
    hide Encoding, Parse, Labelled, StreamOf, KindOf, Room;
  }

  lemma SocketLogs(w: World, a: Action)
    requires Next(w, a).Some? && (a.TakeSock? || a.Process? || a.PassUp? || a.TakeUp? || a.Lookup?)
    ensures SameLogs(w, Next(w, a).value)
  {
    hide IsControl, Room;
  }

  lemma ClientLogs(w: World, a: Action)
    requires Next(w, a).Some?
    requires a.Deliver? || a.DropDelivery? || a.Receive? || a.CloseClient? || a.Submit? || a.TakeUnix?
    ensures SameLogs(w, Next(w, a).value)
  {
    hide Room;
  }

  lemma FactLogs(w: World, a: Action)
    requires Next(w, a).Some? && (a.Open? || a.Bind? || a.Accept?)
    ensures SameLogs(w, Next(w, a).value)
  {
    hide Room;
  }

  lemma EnterLogs(c: Content, h: Half, frame: Frame)
    ensures var c' := Enter(c, h, frame);
            && (forall p: Place | p.Forwarded? || p.Answered? || p.Heard? :: At(c', p) == At(c, p))
            && forall g :: At(c', Entered(g)) == At(c, Entered(g)) + (if g == h then [Framed(h, frame)] else [])
  {
  }

  lemma SettleLogs(c: Content, n: Host, over: Option<Half>)
    requires At(c, UnixHand(n)) != [] && At(c, UnixHand(n))[0].Outgoing?
    ensures var c', t := Settle(c, n, over), At(c, UnixHand(n))[0];
            && (forall p: Place | p.Entered? || p.Answered? || p.Heard? :: At(c', p) == At(c, p))
            && forall m ::
                 At(c', Forwarded(m))
                 == At(c, Forwarded(m)) + (if m == n then [Settled(t.client, t.packet, over)] else [])
  {
  }

  lemma SendLogs(w: World, n: Host, h: Half)
    requires DoSendFrame(w, n, h).Some?
    ensures Logs(w, SendFrame(n, h), DoSendFrame(w, n, h).value)
  {
    var Packet(_, srcPort, dstPort, data) := At(w.content, UnixHand(n))[0].packet;
    SettleLogs(w.content, n, Some(h));
    EnterLogs(Settle(w.content, n, Some(h)), h, Data(srcPort, dstPort, data));
    hide At, Settle, Enter, Room;
  }

  lemma DropLogs(w: World, n: Host)
    requires DoDropUnsent(w, n).Some?
    ensures Logs(w, DropUnsent(n), DoDropUnsent(w, n).value)
  {
    SettleLogs(w.content, n, None);
    hide At, Settle, Enter;
  }

  lemma AnsweredLogs(c: Content, h: Half)
    requires At(c, ReadHand(h)) != []
    ensures var c' := Shift(c, ReadHand(h), Answered(h), At(c, ReadHand(h))[0]);
            && (forall p: Place | p.Forwarded? || p.Entered? || p.Heard? :: At(c', p) == At(c, p))
            && forall g :: |At(c', Answered(g))| == |At(c, Answered(g))| + (if g == h then 1 else 0)
  {
  }

  lemma AnswerLogs(w: World, h: Half)
    requires DoAnswer(w, h).Some?
    ensures Logs(w, Answer(h), DoAnswer(w, h).value)
  {
    AnsweredLogs(w.content, h);
    hide At, Shift, Enter, Room, KindOf;
    EnterLogs(Shift(w.content, ReadHand(h), Answered(h), At(w.content, ReadHand(h))[0]), w.facts.halves[h].back, Pong);
  }

  lemma HearLogs(w: World, h: Half)
    requires DoHear(w, h).Some?
    ensures Logs(w, Hear(h), DoHear(w, h).value)
  {
    hide Room, KindOf;
  }

  lemma EnteringLogs(w: World, a: Action)
    requires Next(w, a).Some? && (a.SendControl? || a.SendPing?)
    ensures Logs(w, a, Next(w, a).value)
  {
    match a
    case SendControl(h, data) => EnterLogs(w.content, h, Data(0, 0, data));
    case SendPing(h) => EnterLogs(w.content, h, Ping);
  }

  lemma SameLogsAreLogs(w: World, a: Action, w': World)
    requires SameLogs(w, w') && (forall h :: Enters(w, a, h) == []) && (forall n :: Settles(w, a, n) == [])
    requires !a.Answer? && !a.Hear?
    ensures Logs(w, a, w')
  {
    hide At, Enters, Settles;
  }

  lemma StepLogs(w: World, a: Action)
    requires Next(w, a).Some?
    ensures Logs(w, a, Next(w, a).value)
  {
    hide Logs, SameLogs, DoSendFrame, DoDropUnsent, DoAnswer, DoHear, Enter;
    match a
    case SendFrame(n, h) => SendLogs(w, n, h);
    case DropUnsent(n) => DropLogs(w, n);
    case Answer(h) => AnswerLogs(w, h);
    case Hear(h) => HearLogs(w, h);
    case _ =>
      if a.SendControl? || a.SendPing? {
        EnteringLogs(w, a);
      } else {
        OtherLogs(w, a);
      }
  }

  lemma OtherLogs(w: World, a: Action)
    requires Next(w, a).Some? && !a.SendFrame? && !a.DropUnsent? && !a.Answer? && !a.Hear?
    requires !a.SendControl? && !a.SendPing?
    ensures Logs(w, a, Next(w, a).value)
  {
    if OnLink(a) {
      OnLinkLogs(w, a);
    } else if a.Open? || a.Bind? || a.Accept? {
      FactLogs(w, a);
    } else if a.TakeSock? || a.Process? || a.PassUp? || a.TakeUp? || a.Lookup? {
      SocketLogs(w, a);
    } else {
      ClientLogs(w, a);
    }
    hide SameLogs, Next;
    SameLogsAreLogs(w, a, Next(w, a).value);
  }

  // ---------------------------------------------------------------- facts

  ghost predicate ClientsFollow(clients: map<Client, ClientInfo>, actions: seq<Action>) {
    forall c, n, port :: (c in clients && clients[c] == ClientInfo(n, port)) <==> Bind(c, n, port) in actions
  }

  ghost predicate HalvesFollow(halves: map<Half, HalfInfo>, actions: seq<Action>) {
    forall h, info :: (h in halves && halves[h] == info) <==> OpenedAs(actions, h, info)
  }

  ghost predicate TableFollows(table: map<(Host, u16), Client>, actions: seq<Action>) {
    forall n: Host, port: u16 ::
      BoundLast(actions, n, port) == if (n, port) in table then Some(table[(n, port)]) else None
  }

  ghost predicate ClosedFollow(closed: set<Client>, actions: seq<Action>) {
    forall c :: c in closed <==> CloseClient(c) in actions
  }

  ghost predicate AcceptedFollow(facts: Facts, actions: seq<Action>, c: Client) {
    if c in facts.clients then AcceptedFrom(facts, c) == Requested(actions, c, facts.clients[c].port)
    else AcceptedFrom(facts, c) == [] && forall port :: Requested(actions, c, port) == []
  }

  /** Clients, connections, port tables and what was sent are what the actions say. */
  ghost predicate FactsFollow(w: World, actions: seq<Action>) {
    && ClientsFollow(w.facts.clients, actions) && HalvesFollow(w.facts.halves, actions)
    && TableFollows(w.table, actions) && ClosedFollow(w.closed, actions)
    && forall c :: AcceptedFollow(w.facts, actions, c)
  }

  predicate ChangesFacts(a: Action) {
    a.Open? || a.Bind? || a.Accept? || a.CloseClient?
  }

  lemma OtherFacts(w: World, a: Action)
    requires Next(w, a).Some? && !ChangesFacts(a)
    ensures var w' := Next(w, a).value;
            && w'.facts.clients == w.facts.clients && w'.facts.accepted == w.facts.accepted
            && w'.table == w.table && w'.closed == w.closed
  {
    hide At, Shift, Push, Encoding, Parse, Room, Labelled, KindOf, IsControl, StreamOf, Enter;
  }

  /** What an action does to them. */
  lemma FactsAfter(w: World, a: Action)
    requires Next(w, a).Some?
    ensures var w' := Next(w, a).value;
            && (a.Bind? ==> a.c !in w.facts.clients)
            && (a.Accept? ==> a.c in w.facts.clients)
            && w'.facts.clients == (if a.Bind? then w.facts.clients[a.c := ClientInfo(a.host, a.port)]
                                    else w.facts.clients)
            && w'.table == (if a.Bind? then w.table[(a.host, a.port) := a.c] else w.table)
            && w'.closed == (if a.CloseClient? then w.closed + {a.c} else w.closed)
            && w'.facts.accepted
               == (if a.Accept? then
                     w.facts.accepted[a.c := AcceptedFrom(w.facts, a.c)
                                             + [Packet(a.to, w.facts.clients[a.c].port, a.toPort, a.data)]]
                   else w.facts.accepted)
  {
    if ChangesFacts(a) {
      hide At, Shift, Push, Room, AcceptedFrom;
    } else {
      hide Next;
      OtherFacts(w, a);
    }
  }

  lemma ClientsAfter(w: World, actions: seq<Action>, a: Action)
    requires Next(w, a).Some? && ClientsFollow(w.facts.clients, actions)
    ensures ClientsFollow(Next(w, a).value.facts.clients, actions + [a])
  {
    FactsAfter(w, a);
    hide Next;
    assert forall b :: b in actions + [a] <==> b in actions || b == a;
    if a.Bind? {
      assert forall n, port :: Bind(a.c, n, port) !in actions;
    }
  }

  lemma TableAfter(w: World, actions: seq<Action>, a: Action)
    requires Next(w, a).Some? && TableFollows(w.table, actions)
    ensures TableFollows(Next(w, a).value.table, actions + [a])
  {
    FactsAfter(w, a);
    OneMore(actions, a);
    hide Next, BoundLast;
  }

  lemma ClosedAfter(w: World, actions: seq<Action>, a: Action)
    requires Next(w, a).Some? && ClosedFollow(w.closed, actions)
    ensures ClosedFollow(Next(w, a).value.closed, actions + [a])
  {
    FactsAfter(w, a);
    hide Next;
    assert forall b :: b in actions + [a] <==> b in actions || b == a;
  }

  lemma AcceptedAfter(w: World, actions: seq<Action>, a: Action, c: Client)
    requires Next(w, a).Some? && AcceptedFollow(w.facts, actions, c)
    ensures AcceptedFollow(Next(w, a).value.facts, actions + [a], c)
  {
    FactsAfter(w, a);
    OneMore(actions, a);
    hide Next, Requested;
  }

  lemma HalvesFollowAfter(w: World, actions: seq<Action>, a: Action)
    requires Next(w, a).Some? && HalvesFollow(w.facts.halves, actions)
    ensures HalvesFollow(Next(w, a).value.facts.halves, actions + [a])
  {
    HalvesAfter(w, a);
    hide Next, OpenedAs;
    if a.Open? {
      OneMoreOpened(w, actions, a);
    } else {
      OpenedStays(actions, a);
    }
  }

  lemma OpenedStays(actions: seq<Action>, a: Action)
    requires !a.Open?
    ensures forall h, info :: OpenedAs(actions + [a], h, info) <==> OpenedAs(actions, h, info)
  {
    assert forall b :: b in actions + [a] <==> b in actions || b == a;
    forall h, info
      ensures OpenedAs(actions + [a], h, info) <==> OpenedAs(actions, h, info)
    {
      if OpenedAs(actions, h, info) {
        var sock :|
          || Open(h, info.back, info.origin, info.target, sock, info.sock) in actions
          || Open(info.back, h, info.target, info.origin, info.sock, sock) in actions;
        assert
          || Open(h, info.back, info.origin, info.target, sock, info.sock) in actions + [a]
          || Open(info.back, h, info.target, info.origin, info.sock, sock) in actions + [a];
      }
    }
  }

  lemma OneMoreOpened(w: World, actions: seq<Action>, a: Action)
    requires HalvesFollow(w.facts.halves, actions) && a.Open? && Next(w, a).Some?
    ensures HalvesFollow(Next(w, a).value.facts.halves, actions + [a])
  {
    HalvesAfter(w, a);
    var halves := Next(w, a).value.facts.halves;
    hide Next, OpenedAs;
    forall h, info
      ensures (h in halves && halves[h] == info) <==> OpenedAs(actions + [a], h, info)
    {
      OpenedOrBefore(actions, a, h, info);
      if h == a.h || h == a.back {
        assert !OpenedAs(actions, h, info);
      }
    }
  }

  lemma OpenedOrBefore(actions: seq<Action>, a: Action, h: Half, info: HalfInfo)
    requires a.Open?
    ensures OpenedAs(actions + [a], h, info) <==>
            || OpenedAs(actions, h, info)
            || (h == a.h && info == HalfInfo(a.one, a.other, a.otherSock, a.back))
            || (h == a.back && info == HalfInfo(a.other, a.one, a.oneSock, a.h))
  {
    var more := actions + [a];
    assert a in more && forall b :: b in more <==> b in actions || b == a;
    if h == a.h && info == HalfInfo(a.one, a.other, a.otherSock, a.back) {
      assert Open(h, info.back, info.origin, info.target, a.oneSock, info.sock) in more;
    }
    if h == a.back && info == HalfInfo(a.other, a.one, a.oneSock, a.h) {
      assert Open(info.back, h, info.target, info.origin, info.sock, a.otherSock) in more;
    }
    if OpenedAs(actions, h, info) {
      var sock :|
        || Open(h, info.back, info.origin, info.target, sock, info.sock) in actions
        || Open(info.back, h, info.target, info.origin, info.sock, sock) in actions;
      assert
        || Open(h, info.back, info.origin, info.target, sock, info.sock) in more
        || Open(info.back, h, info.target, info.origin, info.sock, sock) in more;
    }
  }

  lemma StepFactsFollow(w: World, actions: seq<Action>, a: Action)
    requires FactsFollow(w, actions) && Next(w, a).Some?
    ensures FactsFollow(Next(w, a).value, actions + [a])
  {
    hide Next, ClientsFollow, HalvesFollow, TableFollows, ClosedFollow, AcceptedFollow;
    ClientsAfter(w, actions, a);
    HalvesFollowAfter(w, actions, a);
    TableAfter(w, actions, a);
    ClosedAfter(w, actions, a);
    forall c
      ensures AcceptedFollow(Next(w, a).value.facts, actions + [a], c)
    {
      AcceptedAfter(w, actions, a, c);
    }
  }

  // ---------------------------------------------------------------- what entered the connections

  /** The pings, pongs and control messages on a direction are what the actions put there. */
  ghost predicate EnteredFollow(w: World, actions: seq<Action>, h: Half) {
    var entered := At(w.content, Entered(h));
    && |Frames(entered, h, {PingKind})| == Count(actions, SendPing(h))
    && |At(w.content, Answered(h))| == Count(actions, Answer(h))
    && |At(w.content, Heard(h))| == Count(actions, Hear(h))
    && PongsFollow(w, actions, h) && ControlsFollow(w, actions, h)
  }

  ghost predicate PongsFollow(w: World, actions: seq<Action>, h: Half) {
    var pongs := |Frames(At(w.content, Entered(h)), h, {PongKind})|;
    if h in w.facts.halves then pongs == Count(actions, Answer(w.facts.halves[h].back))
    else pongs == 0 && Count(actions, Answer(h)) == 0
  }

  ghost predicate ControlsFollow(w: World, actions: seq<Action>, h: Half) {
    var controls := Frames(At(w.content, Entered(h)), h, {Control});
    if h in w.facts.halves then
      var done := At(w.content, Forwarded(w.facts.halves[h].origin));
      Merged(controls, Controls(actions, h), FromPortZero(done, h))
    else
      controls == [] && Controls(actions, h) == [] && forall n :: FromPortZero(At(w.content, Forwarded(n)), h) == []
  }

  /** One kind on a direction, after a step. */
  lemma KindAfter(w: World, a: Action, w': World, h: Half, k: Kind)
    requires Logs(w, a, w')
    ensures var one := Enters(w, a, h);
            Frames(At(w'.content, Entered(h)), h, {k})
            == Frames(At(w.content, Entered(h)), h, {k}) + (if one != [] && KindOf(one[0]) == k then [one[0]] else [])
  {
    var before, one := At(w.content, Entered(h)), Enters(w, a, h);
    if one == [] {
      assert before + [] == before;
    } else {
      var t := Framed(h, one[0]);
      FramesOfConcat(before, [t], h, {k});
      FramesOfOne(t, h, {k});
    }
    hide Frames, Enters, At;
  }

  lemma FramesOfOne(t: Token, h: Half, ks: set<Kind>)
    ensures Frames([t], h, ks) == One(t, h, ks)
  {
    assert [t][1..] == [];
  }

  /** A pong goes on the direction whose other direction had the ping. */
  lemma PongAfter(w: World, a: Action, w': World, h: Half)
    requires Logs(w, a, w') && (a.Answer? ==> a.h in w.facts.halves)
    ensures |Frames(At(w'.content, Entered(h)), h, {PongKind})|
            == |Frames(At(w.content, Entered(h)), h, {PongKind})|
               + (if a.Answer? && w.facts.halves[a.h].back == h then 1 else 0)
  {
    hide Logs, Frames, At;
    KindAfter(w, a, w', h, PongKind);
  }

  lemma PongsAfter(w: World, actions: seq<Action>, a: Action, h: Half)
    requires Linked(w.facts) && (forall g :: PongsFollow(w, actions, g))
    requires Next(w, a).Some? && Logs(w, a, Next(w, a).value)
    ensures PongsFollow(Next(w, a).value, actions + [a], h)
  {
    hide Frames, Count, Next, Logs, At, PongsFollow;
    HalvesAfter(w, a);
    PongAfter(w, a, Next(w, a).value, h);
    OneMore(actions, a);
    assert PongsFollow(w, actions, h);
    if a.Open? {
      assert PongsFollow(w, actions, a.h) && PongsFollow(w, actions, a.back);
      PongsAfterOpen(w, actions, a, Next(w, a).value, h);
    } else {
      PongsAfterOther(w, actions, a, Next(w, a).value, h);
    }
  }

  lemma PongsAfterOpen(w: World, actions: seq<Action>, a: Action, w': World, h: Half)
    requires a.Open? && a.h !in w.facts.halves && a.back !in w.facts.halves && a.h != a.back
    requires w'.facts.halves == w.facts.halves[a.h := HalfInfo(a.one, a.other, a.otherSock, a.back)]
                                              [a.back := HalfInfo(a.other, a.one, a.oneSock, a.h)]
    requires |Frames(At(w'.content, Entered(h)), h, {PongKind})| == |Frames(At(w.content, Entered(h)), h, {PongKind})|
    requires forall b :: Count(actions + [a], b) == Count(actions, b) + (if a == b then 1 else 0)
    requires PongsFollow(w, actions, h) && PongsFollow(w, actions, a.h) && PongsFollow(w, actions, a.back)
    ensures PongsFollow(w', actions + [a], h)
  {
    hide Frames, Count, At;
  }

  lemma PongsAfterOther(w: World, actions: seq<Action>, a: Action, w': World, h: Half)
    requires Linked(w.facts) && w'.facts.halves == w.facts.halves && (a.Answer? ==> a.h in w.facts.halves)
    requires |Frames(At(w'.content, Entered(h)), h, {PongKind})|
             == |Frames(At(w.content, Entered(h)), h, {PongKind})|
                + (if a.Answer? && w.facts.halves[a.h].back == h then 1 else 0)
    requires forall b :: Count(actions + [a], b) == Count(actions, b) + (if a == b then 1 else 0)
    requires PongsFollow(w, actions, h)
    ensures PongsFollow(w', actions + [a], h)
  {
    hide Frames, Count, At;
  }

  /** Connections stay; one that is opened is new. */
  lemma HalvesAfter(w: World, a: Action)
    requires Next(w, a).Some?
    ensures var halves, halves' := w.facts.halves, Next(w, a).value.facts.halves;
            && (a.Answer? ==> a.h in halves)
            && (a.SendControl? ==> a.h in halves)
            && (a.SendPing? ==> a.h in halves)
            && (a.SendFrame? ==>
                  a.h in halves && halves[a.h].origin == a.host
                  && At(w.content, UnixHand(a.host)) != [] && At(w.content, UnixHand(a.host))[0].Outgoing?)
            && if a.Open? then
                 && a.h !in halves && a.back !in halves && a.h != a.back
                 && halves' == halves[a.h := HalfInfo(a.one, a.other, a.otherSock, a.back)]
                                     [a.back := HalfInfo(a.other, a.one, a.oneSock, a.h)]
               else halves' == halves
  {
    hide Shift, Push, Encoding, Parse, Room, Labelled, KindOf, IsControl, StreamOf, Enter;
  }

  lemma ControlsAfter(w: World, actions: seq<Action>, a: Action, h: Half)
    requires ControlsFollow(w, actions, h) && Next(w, a).Some? && Logs(w, a, Next(w, a).value)
    ensures ControlsFollow(Next(w, a).value, actions + [a], h)
  {
    hide Logs, Next;
    var w' := Next(w, a).value;
    HalvesAfter(w, a);
    if h in w.facts.halves {
      ControlsGrow(w, actions, a, w', h);
    } else {
      ControlsStart(w, actions, a, w', h);
    }
  }

  /** Before a connection is open nothing is put on it. */
  lemma ControlsStart(w: World, actions: seq<Action>, a: Action, w': World, h: Half)
    requires ControlsFollow(w, actions, h) && Logs(w, a, w') && h !in w.facts.halves
    requires (a.SendControl? || a.SendFrame? ==> a.h in w.facts.halves)
    ensures ControlsFollow(w', actions + [a], h)
  {
    hide Logs, Frames, Controls, At, FromPortZero, Merged;
    OneMore(actions, a);
    KindAfter(w, a, w', h, Control);
    ZerosAfter(w, a, w', h);
    ControlEnters(w, a, h);
    hide Enters;
    MergeNone();
  }

  lemma ControlsGrow(w: World, actions: seq<Action>, a: Action, w': World, h: Half)
    requires ControlsFollow(w, actions, h) && Logs(w, a, w') && h in w.facts.halves && h in w'.facts.halves
    requires w'.facts.halves[h] == w.facts.halves[h]
    requires a.SendFrame? ==> a.h in w.facts.halves && w.facts.halves[a.h].origin == a.host
    ensures ControlsFollow(w', actions + [a], h)
  {
    hide Logs, Frames, Controls, At, FromPortZero, Merged;
    OneMore(actions, a);
    KindAfter(w, a, w', h, Control);
    ZerosAfter(w, a, w', h);
    ControlEnters(w, a, h);
    hide Enters;
    var one := Zeros(Enters(w, a, h));
    MergeOneMore(Frames(At(w.content, Entered(h)), h, {Control}), Controls(actions, h),
                 FromPortZero(At(w.content, Forwarded(w.facts.halves[h].origin)), h),
                 if one == [] then Ping else one[0]);
  }

  lemma MergeNone()
    ensures Merged<Frame>([], [], [])
  {
  }

  lemma MergeOneMore(whole: seq<Frame>, a: seq<Frame>, b: seq<Frame>, f: Frame)
    requires Merged(whole, a, b)
    ensures Merged(whole + [f], a + [f], b) && Merged(whole + [f], a, b + [f])
    ensures Merged(whole + [], a + [], b + [])
    ensures Merged(whole + [f], a + [f], b + []) && Merged(whole + [f], a + [], b + [f])
  {
    MergedAppend(whole, a, b, f);
    assert whole + [] == whole && a + [] == a && b + [] == b;
  }

  /** A control message comes from the daemon or from a client on port 0. */
  lemma ControlEnters(w: World, a: Action, h: Half)
    ensures var one := Enters(w, a, h);
            && (a.SendControl? && a.h == h ==> one == [Data(0, 0, a.data)])
            && (one != [] && KindOf(one[0]) == Control ==> (a.SendControl? || a.SendFrame?) && a.h == h)
  {
  }

  /** What clients on port 0 have had put on a direction, after a step. */
  lemma ZerosAfter(w: World, a: Action, w': World, h: Half)
    requires Logs(w, a, w')
    ensures forall n ::
              FromPortZero(At(w'.content, Forwarded(n)), h)
              == FromPortZero(At(w.content, Forwarded(n)), h)
                 + (if a == SendFrame(n, h) then Zeros(Enters(w, a, h)) else [])
  {
    hide Logs;
    forall n
      ensures FromPortZero(At(w'.content, Forwarded(n)), h)
              == FromPortZero(At(w.content, Forwarded(n)), h)
                 + (if a == SendFrame(n, h) then Zeros(Enters(w, a, h)) else [])
    {
      ZerosOfHost(w, a, w', h, n);
    }
  }

  lemma ZerosOfHost(w: World, a: Action, w': World, h: Half, n: Host)
    requires Logs(w, a, w')
    ensures FromPortZero(At(w'.content, Forwarded(n)), h)
            == FromPortZero(At(w.content, Forwarded(n)), h)
               + (if a == SendFrame(n, h) then Zeros(Enters(w, a, h)) else [])
  {
    hide FromPortZero, At;
    var before, one := At(w.content, Forwarded(n)), Settles(w, a, n);
    assert At(w'.content, Forwarded(n)) == before + one;
    hide Logs;
    if one == [] {
      assert before + [] == before;
    } else {
      FromPortZeroPush(before, one[0], h);
    }
  }

  function Zeros(frames: seq<Frame>): seq<Frame> {
    if frames != [] && KindOf(frames[0]) == Control then [frames[0]] else []
  }

  lemma StepEnteredFollow(w: World, actions: seq<Action>, a: Action)
    requires Inv(w) && (forall h :: EnteredFollow(w, actions, h)) && Next(w, a).Some?
    ensures forall h :: EnteredFollow(Next(w, a).value, actions + [a], h)
  {
    StepLogs(w, a);
    assert Linked(w.facts);
    assert forall g :: PongsFollow(w, actions, g) by {
      forall g
        ensures PongsFollow(w, actions, g)
      {
        assert EnteredFollow(w, actions, g);
      }
    }
    forall h
      ensures EnteredFollow(Next(w, a).value, actions + [a], h)
    {
      hide Inv, Next, Linked, Logs, PongsFollow, EnteredFollow;
      HalfEnteredFollows(w, actions, a, h);
    }
  }

  lemma HalfEnteredFollows(w: World, actions: seq<Action>, a: Action, h: Half)
    requires Linked(w.facts) && (forall g :: PongsFollow(w, actions, g)) && EnteredFollow(w, actions, h)
    requires Next(w, a).Some? && Logs(w, a, Next(w, a).value)
    ensures EnteredFollow(Next(w, a).value, actions + [a], h)
  {
    OneMore(actions, a);
    hide Next, PongsFollow, ControlsFollow, Frames, At, Count, Linked;
    KindAfter(w, a, Next(w, a).value, h, PingKind);
    PongsAfter(w, actions, a, h);
    ControlsAfter(w, actions, a, h);
    PingEnters(w, a, h);
    hide Enters, Settles;
  }

  lemma PingEnters(w: World, a: Action, h: Half)
    ensures var one := Enters(w, a, h);
            one != [] && KindOf(one[0]) == PingKind <==> a == SendPing(h)
  {
  }

  // ---------------------------------------------------------------- every run

  lemma {:induction false} RunFollows(w: World, before: seq<Action>, actions: seq<Action>)
    requires Inv(w) && FactsFollow(w, before) && (forall h :: EnteredFollow(w, before, h)) && Run(w, actions).Some?
    ensures FactsFollow(Run(w, actions).value, before + actions)
    ensures forall h :: EnteredFollow(Run(w, actions).value, before + actions, h)
    decreases |actions|
  {
    if actions == [] {
      assert before + actions == before;
    } else {
      hide Inv, Next, FactsFollow, EnteredFollow;
      OneOver(before, actions);
      StepKeepsInv(w, actions[0]);
      StepFactsFollow(w, before, actions[0]);
      StepEnteredFollow(w, before, actions[0]);
      RunFollows(Next(w, actions[0]).value, before + [actions[0]], actions[1..]);
    }
  }

  lemma NothingAtStart()
    ensures FactsFollow(START, []) && forall h :: EnteredFollow(START, [], h)
  {
    assert forall p :: At(START.content, p) == [];
    assert forall h, info :: !OpenedAs([], h, info);
    hide At;
  }

  lemma FollowsFromStart(actions: seq<Action>)
    requires Run(START, actions).Some?
    ensures var w := Run(START, actions).value;
            Inv(w) && FactsFollow(w, actions) && forall h :: EnteredFollow(w, actions, h)
  {
    StartHolds();
    NothingAtStart();
    hide Inv, FactsFollow, EnteredFollow, Run;
    RunKeepsInv(START, actions);
    RunFollows(START, [], actions);
    assert [] + actions == actions;
  }

  /**
   In every run, going by its actions: a client is bound where it was bound, has sent what was read
   from it, in order, under the port it bound; a port belongs to the client that bound it last; and
   each end of a connection has the label, the peer and the socket with which it was opened.
   */
  lemma FactsAreWhatHappened(actions: seq<Action>)
    requires Run(START, actions).Some?
    ensures var w := Run(START, actions).value;
            && (forall c, n, port ::
                  (c in w.facts.clients && w.facts.clients[c] == ClientInfo(n, port)) <==> Bind(c, n, port) in actions)
            && (forall c, n, port | Bind(c, n, port) in actions ::
                  AcceptedFrom(w.facts, c) == Requested(actions, c, port))
            && (forall n: Host, port: u16 ::
                  BoundLast(actions, n, port) == if (n, port) in w.table then Some(w.table[(n, port)]) else None)
            && (forall c :: c in w.closed <==> CloseClient(c) in actions)
            && (forall h, info :: (h in w.facts.halves && w.facts.halves[h] == info) <==> OpenedAs(actions, h, info))
  {
    FollowsFromStart(actions);
    hide Run, Requested, BoundLast, OpenedAs, AcceptedFrom;
    var w := Run(START, actions).value;
    forall c, n, port | Bind(c, n, port) in actions
      ensures AcceptedFrom(w.facts, c) == Requested(actions, c, port)
    {
      assert AcceptedFollow(w.facts, actions, c);
    }
  }

  /**
   In every run, the pings put on a direction are as many as its ping task sent, the pongs as many
   as the pings answered at its near end; the control messages are those the daemon sent, in order,
   with those of clients on port 0 among them; and pongs are heard as often as they are taken.
   */
  lemma EnteredIsWhatWasSent(actions: seq<Action>, h: Half)
    requires Run(START, actions).Some? && h in Run(START, actions).value.facts.halves
    ensures var w := Run(START, actions).value;
            var entered := At(w.content, Entered(h));
            && |Frames(entered, h, {PingKind})| == Count(actions, SendPing(h))
            && |Frames(entered, h, {PongKind})| == Count(actions, Answer(w.facts.halves[h].back))
            && Merged(Frames(entered, h, {Control}), Controls(actions, h),
                      FromPortZero(At(w.content, Forwarded(w.facts.halves[h].origin)), h))
            && |At(w.content, Answered(h))| == Count(actions, Answer(h))
            && |At(w.content, Heard(h))| == Count(actions, Hear(h))
  {
    FollowsFromStart(actions);
    hide Run, Frames, Count, Controls, FromPortZero, At, Merged;
    assert EnteredFollow(Run(START, actions).value, actions, h);
  }

  /** What is decoded on a connection goes through the socket on which its receiving end was opened, and no other. */
  lemma EachEndHasItsSocket(actions: seq<Action>, a: Action, t: Token, s: Sock)
    requires Run(START, actions).Some? && a in actions && a.Open?
    requires var c := Run(START, actions).value.content;
             t in At(c, SockQueue(s)) || t in At(c, SockHand(s)) || t in At(c, Split(s)) || t in At(c, Handled(s))
    ensures t.Incoming? && (t.via == a.h ==> s == Sock(a.other, a.otherSock))
            && (t.via == a.back ==> s == Sock(a.one, a.oneSock))
  {
    FollowsFromStart(actions);
    var w := Run(START, actions).value;
    assert OpenedAs(actions, a.h, HalfInfo(a.one, a.other, a.otherSock, a.back));
    assert OpenedAs(actions, a.back, HalfInfo(a.other, a.one, a.oneSock, a.h));
    hide Run;
    SocketTokensAreGood(w, t, s);
    hide Inv;
  }

  lemma SocketTokensAreGood(w: World, t: Token, s: Sock)
    requires Inv(w)
    requires var c := w.content;
             t in At(c, SockQueue(s)) || t in At(c, SockHand(s)) || t in At(c, Split(s)) || t in At(c, Handled(s))
    ensures t.Incoming? && t.via in w.facts.halves && SockOf(w.facts, t.via) == s
  {
    if t in At(w.content, SockQueue(s)) {
      assert Good(w.facts, SockQueue(s), t);
    } else if t in At(w.content, SockHand(s)) {
      assert Good(w.facts, SockHand(s), t);
    } else if t in At(w.content, Split(s)) {
      assert Good(w.facts, Split(s), t);
    } else {
      assert Good(w.facts, Handled(s), t);
    }
  }
}
