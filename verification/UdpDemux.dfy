/**
 The demultiplexer of one UDP socket. A single reader task receives a datagram, looks up the
 channel of its sender, waits for room there, and only then writes the table entry back;
 `connect` may replace that entry between any two of these steps.
 */
module UdpDemux {
  import opened Bytes

  type Addr = nat
  type Chan = nat

  datatype Datagram = Datagram(remote: Addr, bytes: seq<u8>)

  /** What became of a datagram: queued on a channel, or dropped because that channel's receiver was gone. */
  datatype Fate = Queued(chan: Chan) | Dropped(chan: Chan)

  datatype Entry = Entry(datagram: Datagram, fate: Fate)

  /** `taken` is what the connection has already read. */
  datatype Channel = Channel(remote: Addr, taken: seq<Datagram>, queue: seq<Datagram>, open: bool)

  datatype Reader =
    | Receiving
    | Arrived(datagram: Datagram)
    | Sending(datagram: Datagram, chan: Chan, isNew: bool)
    | Sent(datagram: Datagram, chan: Chan, isNew: bool)
    | Surfacing(datagram: Datagram, chan: Chan)
    | Ended

  /**
   The socket, with logs of what arrived, what became of it, which connections were surfaced for
   which datagram, and which of these have been accepted.
   */
  datatype Demux = Demux(
    table: map<Addr, Chan>,
    channels: map<Chan, Channel>,
    reader: Reader,
    waiting: seq<Chan>,
    arrivals: seq<Datagram>,
    log: seq<Entry>,
    surfaced: seq<(Chan, Datagram)>,
    accepted: seq<Chan>)

  const START := Demux(map[], map[], Receiving, [], [], [], [], [])

  const CAPACITY: nat := 10

  datatype Action =
    | Receive(datagram: Datagram)
    | Lookup(made: Chan)
    | Send
    | Reinsert
    | Surface
    | SurfaceFails
    | AcceptOne
    | Connect(remote: Addr, made: Chan)
    | Take(chan: Chan)
    | CloseChannel(chan: Chan)
    | CloseSocket

  /** The reader still owns the receiving end of a channel it has made and not yet surfaced. */
  predicate Holds(reader: Reader, chan: Chan) {
    match reader
    case Sending(_, c, isNew) => isNew && c == chan
    case Sent(_, c, isNew) => isNew && c == chan
    case Surfacing(_, c) => c == chan
    case _ => false
  }

  function DoLookup(s: Demux, made: Chan): Option<Demux> {
    if !s.reader.Arrived? || made in s.channels then None
    else
      var d := s.reader.datagram;
      if d.remote in s.table then Some(s.(reader := Sending(d, s.table[d.remote], false)))
      else Some(s.(channels := s.channels[made := Channel(d.remote, [], [], true)], reader := Sending(d, made, true)))
  }

  /** The send fails when the receiver is gone, and waits while the channel is full. */
  function DoSend(s: Demux): Option<Demux> {
    if !s.reader.Sending? || s.reader.chan !in s.channels then None
    else
      var Sending(d, chan, isNew) := s.reader;
      var channel := s.channels[chan];
      if !channel.open then Some(s.(log := s.log + [Entry(d, Dropped(chan))], reader := Receiving))
      else if |channel.queue| >= CAPACITY then None
      else
        var channels := s.channels[chan := channel.(queue := channel.queue + [d])];
        Some(s.(channels := channels, log := s.log + [Entry(d, Queued(chan))], reader := Sent(d, chan, isNew)))
  }

  /** The entry is written back, even over one that `connect` has made in the meantime. */
  function DoReinsert(s: Demux): Option<Demux> {
    if !s.reader.Sent? then None
    else
      var Sent(d, chan, isNew) := s.reader;
      Some(s.(table := s.table[d.remote := chan], reader := if isNew then Surfacing(d, chan) else Receiving))
  }

  function DoConnect(s: Demux, remote: Addr, made: Chan): Option<Demux> {
    if made in s.channels then None
    else Some(s.(channels := s.channels[made := Channel(remote, [], [], true)], table := s.table[remote := made]))
  }

  function DoTake(s: Demux, chan: Chan): Option<Demux> {
    if chan !in s.channels || s.channels[chan].queue == [] then None
    else
      var Channel(remote, taken, queue, open) := s.channels[chan];
      Some(s.(channels := s.channels[chan := Channel(remote, taken + [queue[0]], queue[1..], open)]))
  }

  function DoClose(s: Demux, chan: Chan): Option<Demux> {
    if chan !in s.channels || Holds(s.reader, chan) then None
    else Some(s.(channels := s.channels[chan := s.channels[chan].(open := false)]))
  }

  function Next(s: Demux, a: Action): Option<Demux> {
    match a
    case Receive(d) =>
      if s.reader.Receiving? then Some(s.(arrivals := s.arrivals + [d], reader := Arrived(d))) else None
    case Lookup(made) => DoLookup(s, made)
    case Send => DoSend(s)
    case Reinsert => DoReinsert(s)
    case Surface =>
      if !s.reader.Surfacing? || |s.waiting| >= CAPACITY then None
      else
        var Surfacing(d, chan) := s.reader;
        Some(s.(waiting := s.waiting + [chan], surfaced := s.surfaced + [(chan, d)], reader := Receiving))
    case SurfaceFails => if s.reader.Surfacing? then Some(s.(reader := Ended)) else None
    case AcceptOne =>
      if s.waiting == [] then None
      else Some(s.(waiting := s.waiting[1..], accepted := s.accepted + [s.waiting[0]]))
    case Connect(remote, made) => DoConnect(s, remote, made)
    case Take(chan) => DoTake(s, chan)
    case CloseChannel(chan) => DoClose(s, chan)
    case CloseSocket => if s.reader.Receiving? then Some(s.(reader := Ended)) else None
  }

  function Run(s: Demux, actions: seq<Action>): Option<Demux>
    decreases |actions|
  {
    if actions == [] then Some(s)
    else
      var next := Next(s, actions[0]);
      if next.None? then None else Run(next.value, actions[1..])
  }

  // ---------------------------------------------------------------- what the logs say

  function Datagrams(log: seq<Entry>): seq<Datagram> {
    seq(|log|, i requires 0 <= i < |log| => log[i].datagram)
  }

  /** The datagrams queued on one channel, in the order they were. */
  function Through(log: seq<Entry>, chan: Chan): seq<Datagram> {
    if log == [] then []
    else
      var last := log[|log| - 1];
      Through(log[..|log| - 1], chan) + (if last.fate == Queued(chan) then [last.datagram] else [])
  }

  function InHand(reader: Reader): seq<Datagram> {
    match reader
    case Arrived(d) => [d]
    case Sending(d, _, _) => [d]
    case _ => []
  }

  // ---------------------------------------------------------------- the invariant

  ghost predicate ChannelsOk(s: Demux) {
    forall c | c in s.channels :: ChannelOk(s, c)
  }

  /** A channel has held exactly the datagrams logged for it, all from its own remote. */
  ghost predicate ChannelOk(s: Demux, c: Chan)
    requires c in s.channels
  {
    && s.channels[c].taken + s.channels[c].queue == Through(s.log, c)
    && |s.channels[c].queue| <= CAPACITY
  }

  /** Each datagram went to a channel of its sender; it was dropped only if that one's receiver is gone. */
  ghost predicate LogOk(s: Demux) {
    forall i | 0 <= i < |s.log| ::
      && s.log[i].fate.chan in s.channels && s.channels[s.log[i].fate.chan].remote == s.log[i].datagram.remote
      && (s.log[i].fate.Dropped? ==> !s.channels[s.log[i].fate.chan].open)
  }

  function Chans(surfaced: seq<(Chan, Datagram)>): seq<Chan> {
    seq(|surfaced|, i requires 0 <= i < |surfaced| => surfaced[i].0)
  }

  ghost predicate TableOk(s: Demux) {
    forall r | r in s.table :: s.table[r] in s.channels && s.channels[s.table[r]].remote == r
  }

  ghost predicate ReaderOk(s: Demux) {
    match s.reader
    case Sending(d, c, isNew) =>
      && c in s.channels && s.channels[c].remote == d.remote
      && (isNew ==> Through(s.log, c) == [] && s.channels[c].open && Unsurfaced(s, d.remote))
    case Sent(d, c, isNew) =>
      && c in s.channels && s.channels[c].remote == d.remote
      && (isNew ==> FirstIs(s, c, d) && Unsurfaced(s, d.remote))
    case Surfacing(d, c) =>
      c in s.channels && s.channels[c].remote == d.remote && d.remote in s.table
      && FirstIs(s, c, d) && Unsurfaced(s, d.remote)
    case _ => true
  }

  ghost predicate Unsurfaced(s: Demux, remote: Addr) {
    forall i | 0 <= i < |s.surfaced| :: s.surfaced[i].1.remote != remote
  }

  ghost predicate FirstIs(s: Demux, c: Chan, d: Datagram) {
    Through(s.log, c) != [] && Through(s.log, c)[0] == d
  }

  /** Each surfaced connection is of its datagram's sender, which is known from then on; no sender twice. */
  ghost predicate SurfacedOk(s: Demux) {
    && (forall i | 0 <= i < |s.surfaced| ::
          var (c, d) := s.surfaced[i];
          c in s.channels && s.channels[c].remote == d.remote && d.remote in s.table && FirstIs(s, c, d))
    && (forall i, j | 0 <= i < j < |s.surfaced| :: s.surfaced[i].1.remote != s.surfaced[j].1.remote)
    && s.accepted + s.waiting == Chans(s.surfaced) && |s.waiting| <= CAPACITY
  }

  ghost predicate Inv(s: Demux) {
    && s.arrivals == Datagrams(s.log) + InHand(s.reader)
    && ChannelsOk(s) && LogOk(s) && TableOk(s) && ReaderOk(s) && SurfacedOk(s)
  }

  lemma ThroughAppend(log: seq<Entry>, e: Entry, c: Chan)
    ensures Through(log + [e], c) == Through(log, c) + (if e.fate == Queued(c) then [e.datagram] else [])
  {
    assert (log + [e])[..|log|] == log;
  }

  lemma {:induction false} ThroughOfStranger(log: seq<Entry>, c: Chan)
    requires forall i | 0 <= i < |log| :: log[i].fate != Queued(c)
    ensures Through(log, c) == []
  {
    if log != [] {
      ThroughOfStranger(log[..|log| - 1], c);
    }
  }

  lemma DatagramsAppend(log: seq<Entry>, e: Entry)
    ensures Datagrams(log + [e]) == Datagrams(log) + [e.datagram]
  {
  }

  lemma FreshIsUnused(s: Demux, c: Chan)
    requires LogOk(s) && c !in s.channels
    ensures Through(s.log, c) == []
  {
    ThroughOfStranger(s.log, c);
  }

  /** A new, empty channel disturbs nothing. */
  lemma NewChannelKeepsInv(s: Demux, made: Chan, remote: Addr)
    requires Inv(s) && made !in s.channels
    ensures var s' := s.(channels := s.channels[made := Channel(remote, [], [], true)]);
            Inv(s') && Through(s'.log, made) == []
  {
    FreshIsUnused(s, made);
    hide Through, Datagrams, FirstIs, Unsurfaced;
    var s' := s.(channels := s.channels[made := Channel(remote, [], [], true)]);
    assert LogOk(s') && TableOk(s') && SurfacedOk(s');
    forall c | c in s'.channels
      ensures ChannelOk(s', c)
    {
      assert c in s.channels ==> ChannelOk(s, c);
    }
  }

  lemma LookupKeepsInv(s: Demux, made: Chan)
    requires Inv(s) && DoLookup(s, made).Some?
    ensures Inv(DoLookup(s, made).value)
  {
    var d := s.reader.datagram;
    NewChannelKeepsInv(s, made, d.remote);
    var mid := if d.remote in s.table then s else s.(channels := s.channels[made := Channel(d.remote, [], [], true)]);
    assert forall c | c in mid.channels :: ChannelOk(mid, c);
    hide Through, Datagrams;
    var s' := DoLookup(s, made).value;
    assert ReaderOk(s');
    forall c | c in s'.channels
      ensures ChannelOk(s', c)
    {
      assert ChannelOk(mid, c);
    }
  }

  lemma ConnectKeepsInv(s: Demux, remote: Addr, made: Chan)
    requires Inv(s) && DoConnect(s, remote, made).Some?
    ensures Inv(DoConnect(s, remote, made).value)
  {
    NewChannelKeepsInv(s, made, remote);
    var mid := s.(channels := s.channels[made := Channel(remote, [], [], true)]);
    hide Through, Datagrams;
    var s' := DoConnect(s, remote, made).value;
    forall c | c in s'.channels
      ensures ChannelOk(s', c)
    {
      assert ChannelOk(mid, c);
    }
  }

  /** One more log entry; only the channel it names gets one more datagram. */
  lemma ThroughAfter(s: Demux, e: Entry)
    requires Inv(s)
    ensures forall c ::
              Through(s.log + [e], c) == Through(s.log, c) + (if e.fate == Queued(c) then [e.datagram] else [])
    ensures Datagrams(s.log + [e]) == Datagrams(s.log) + [e.datagram]
  {
    DatagramsAppend(s.log, e);
    forall c
      ensures Through(s.log + [e], c) == Through(s.log, c) + (if e.fate == Queued(c) then [e.datagram] else [])
    {
      ThroughAppend(s.log, e, c);
    }
  }

  lemma DropKeepsInv(s: Demux)
    requires Inv(s) && DoSend(s).Some? && !s.channels[s.reader.chan].open
    ensures Inv(DoSend(s).value)
  {
    ThroughAfter(s, Entry(s.reader.datagram, Dropped(s.reader.chan)));
    hide Through, Datagrams;
    var s' := DoSend(s).value;
    forall c | c in s'.channels
      ensures ChannelOk(s', c)
    {
      assert ChannelOk(s, c);
    }
  }

  lemma SendKeepsInv(s: Demux)
    requires Inv(s) && DoSend(s).Some?
    ensures Inv(DoSend(s).value)
  {
    if !s.channels[s.reader.chan].open {
      DropKeepsInv(s);
    } else {
      ThroughAfter(s, Entry(s.reader.datagram, Queued(s.reader.chan)));
      hide Through, Datagrams;
      var s' := DoSend(s).value;
      assert ReaderOk(s') && LogOk(s');
      forall c | c in s'.channels
        ensures ChannelOk(s', c)
      {
        assert ChannelOk(s, c);
      }
    }
  }

  lemma ChansAppend(surfaced: seq<(Chan, Datagram)>, one: (Chan, Datagram))
    ensures Chans(surfaced + [one]) == Chans(surfaced) + [one.0]
  {
  }

  lemma ReaderStepKeepsInv(s: Demux, a: Action)
    requires Inv(s) && Next(s, a).Some? && (a.Receive? || a.Reinsert? || a.SurfaceFails? || a.CloseSocket?)
    ensures Inv(Next(s, a).value)
  {
    hide Through, Datagrams, Chans;
    var s' := Next(s, a).value;
    forall c | c in s'.channels
      ensures ChannelOk(s', c)
    {
      assert ChannelOk(s, c);
    }
  }

  lemma SurfaceKeepsInv(s: Demux)
    requires Inv(s) && Next(s, Surface).Some?
    ensures Inv(Next(s, Surface).value)
  {
    hide Through, Datagrams, Chans, LogOk;
    var s' := Next(s, Surface).value;
    ChansAppend(s.surfaced, (s.reader.chan, s.reader.datagram));
    Associate(s.accepted, s.waiting, [s.reader.chan]);
    forall c | c in s'.channels
      ensures ChannelOk(s', c)
    {
      assert ChannelOk(s, c);
    }
    LogStaysOk(s, s');
  }

  lemma AcceptOneKeepsInv(s: Demux)
    requires Inv(s) && Next(s, AcceptOne).Some?
    ensures Inv(Next(s, AcceptOne).value)
  {
    hide Through, Datagrams, Chans, LogOk;
    var s' := Next(s, AcceptOne).value;
    assert s.waiting == [s.waiting[0]] + s.waiting[1..];
    Associate(s.accepted, [s.waiting[0]], s.waiting[1..]);
    forall c | c in s'.channels
      ensures ChannelOk(s', c)
    {
      assert ChannelOk(s, c);
    }
    LogStaysOk(s, s');
  }

  lemma LogStaysOk(s: Demux, s': Demux)
    requires LogOk(s) && s'.log == s.log && s'.channels == s.channels
    ensures LogOk(s')
  {
  }

  lemma TakeKeepsInv(s: Demux, chan: Chan)
    requires Inv(s) && DoTake(s, chan).Some?
    ensures Inv(DoTake(s, chan).value)
  {
    hide Through, Datagrams;
    var s' := DoTake(s, chan).value;
    forall c | c in s'.channels
      ensures ChannelOk(s', c)
    {
      assert ChannelOk(s, c);
    }
  }

  lemma CloseKeepsInv(s: Demux, chan: Chan)
    requires Inv(s) && DoClose(s, chan).Some?
    ensures Inv(DoClose(s, chan).value)
  {
    hide Through, Datagrams;
    var s' := DoClose(s, chan).value;
    forall c | c in s'.channels
      ensures ChannelOk(s', c)
    {
      assert ChannelOk(s, c);
    }
  }

  lemma StepKeepsInv(s: Demux, a: Action)
    requires Inv(s) && Next(s, a).Some?
    ensures Inv(Next(s, a).value)
  {
    hide Inv;
    match a
    case Lookup(made) => LookupKeepsInv(s, made);
    case Connect(remote, made) => ConnectKeepsInv(s, remote, made);
    case Send => SendKeepsInv(s);
    case Take(chan) => TakeKeepsInv(s, chan);
    case CloseChannel(chan) => CloseKeepsInv(s, chan);
    case Surface => SurfaceKeepsInv(s);
    case AcceptOne => AcceptOneKeepsInv(s);
    case _ => ReaderStepKeepsInv(s, a);
  }

  lemma {:induction false} RunKeepsInv(s: Demux, actions: seq<Action>)
    requires Inv(s) && Run(s, actions).Some?
    ensures Inv(Run(s, actions).value)
    decreases |actions|
  {
    hide Inv, Next;
    if actions != [] {
      StepKeepsInv(s, actions[0]);
      RunKeepsInv(Next(s, actions[0]).value, actions[1..]);
    }
  }

  ghost predicate Reachable(s: Demux) {
    exists actions :: Run(START, actions) == Some(s)
  }

  lemma ReachableInv(s: Demux)
    requires Reachable(s)
    ensures Inv(s)
  {
    var actions :| Run(START, actions) == Some(s);
    RunKeepsInv(START, actions);
  }

  // ---------------------------------------------------------------- what survives the race

  /**
   Whatever `connect` calls interleave: every datagram that arrived has, in order, been queued
   on a channel of its own sender or dropped, but for at most one still in the reader's hand;
   and a channel has held exactly those logged for it, in that order.
   */
  lemma NothingIsLostOrMixed(s: Demux)
    requires Reachable(s)
    ensures s.arrivals == Datagrams(s.log) + InHand(s.reader) && |InHand(s.reader)| <= 1
    ensures forall i | 0 <= i < |s.log| ::
              && s.log[i].fate.chan in s.channels
              && s.channels[s.log[i].fate.chan].remote == s.log[i].datagram.remote
              && (s.log[i].fate.Dropped? ==> !s.channels[s.log[i].fate.chan].open)
    ensures forall c | c in s.channels ::
              s.channels[c].taken + s.channels[c].queue == Through(s.log, c) && |s.channels[c].queue| <= 10
    ensures forall c, d | c in s.channels && d in s.channels[c].taken + s.channels[c].queue ::
              d.remote == s.channels[c].remote
  {
    ReachableInv(s);
    forall c | c in s.channels
      ensures s.channels[c].taken + s.channels[c].queue == Through(s.log, c) && |s.channels[c].queue| <= CAPACITY
      ensures forall d | d in s.channels[c].taken + s.channels[c].queue :: d.remote == s.channels[c].remote
    {
      assert ChannelOk(s, c);
      forall i | 0 <= i < |s.log| && s.log[i].fate == Queued(c)
        ensures s.log[i].datagram.remote == s.channels[c].remote
      {
      }
      ThroughIsOfOne(s.log, c, s.channels[c].remote);
    }
  }

  lemma {:induction false} ThroughIsOfOne(log: seq<Entry>, c: Chan, remote: Addr)
    requires forall i | 0 <= i < |log| && log[i].fate == Queued(c) :: log[i].datagram.remote == remote
    ensures forall d | d in Through(log, c) :: d.remote == remote
  {
    if log != [] {
      ThroughIsOfOne(log[..|log| - 1], c, remote);
    }
  }

  /**
   Over the whole life of the socket a remote causes at most one surfaced connection, and the
   first datagram that connection ever sees is the one that caused it.
   */
  lemma AtMostOneSurfaced(s: Demux)
    requires Reachable(s)
    ensures s.accepted + s.waiting == Chans(s.surfaced) && |s.waiting| <= 10
    ensures forall i, j | 0 <= i < j < |s.surfaced| :: s.surfaced[i].1.remote != s.surfaced[j].1.remote
    ensures forall i | 0 <= i < |s.surfaced| ::
              var (c, d) := s.surfaced[i];
              && c in s.channels && s.channels[c].remote == d.remote
              && var seen := s.channels[c].taken + s.channels[c].queue;
                 seen != [] && seen[0] == d
  {
    ReachableInv(s);
    forall i | 0 <= i < |s.surfaced|
      ensures var (c, d) := s.surfaced[i];
              && c in s.channels && s.channels[c].remote == d.remote
              && var seen := s.channels[c].taken + s.channels[c].queue;
                 seen != [] && seen[0] == d
    {
      assert ChannelOk(s, s.surfaced[i].0);
    }
  }

  /** The reader has already decided to make a new connection for this remote. */
  predicate IsMaking(reader: Reader, remote: Addr) {
    match reader
    case Sending(d, _, isNew) => isNew && d.remote == remote
    case Sent(d, _, isNew) => isNew && d.remote == remote
    case Surfacing(d, _) => d.remote == remote
    case _ => false
  }

  function SurfacedFor(surfaced: seq<(Chan, Datagram)>, remote: Addr): nat {
    if surfaced == [] then 0
    else
      var last := |surfaced| - 1;
      SurfacedFor(surfaced[..last], remote) + (if surfaced[last].1.remote == remote then 1 else 0)
  }

  lemma KnownStep(s: Demux, remote: Addr, a: Action)
    requires remote in s.table && !IsMaking(s.reader, remote) && Next(s, a).Some?
    ensures var s' := Next(s, a).value;
            && remote in s'.table && !IsMaking(s'.reader, remote)
            && SurfacedFor(s'.surfaced, remote) == SurfacedFor(s.surfaced, remote)
  {
    assert a.Surface? ==> Next(s, a).value.surfaced[..|s.surfaced|] == s.surfaced;
  }

  /**
   Once a remote is known, by `connect` or otherwise, and the reader is not already making a
   connection for it, none is surfaced for it any more.
   */
  lemma {:induction false} KnownRemotesAreNotSurfaced(s: Demux, remote: Addr, actions: seq<Action>)
    requires remote in s.table && !IsMaking(s.reader, remote) && Run(s, actions).Some?
    ensures SurfacedFor(Run(s, actions).value.surfaced, remote) == SurfacedFor(s.surfaced, remote)
    decreases |actions|
  {
    hide Next;
    if actions != [] {
      KnownStep(s, remote, actions[0]);
      KnownRemotesAreNotSurfaced(Next(s, actions[0]).value, remote, actions[1..]);
    }
  }

  // ---------------------------------------------------------------- what the actions alone decide

  /** All that a channel has ever been given. */
  function Held(s: Demux, chan: Chan): seq<Datagram>
    requires chan in s.channels
  {
    s.channels[chan].taken + s.channels[chan].queue
  }

  function Received(actions: seq<Action>): seq<Datagram> {
    if actions == [] then []
    else
      var a := actions[|actions| - 1];
      Received(actions[..|actions| - 1]) + (if a.Receive? then [a.datagram] else [])
  }

  predicate Connects(a: Action, remote: Addr) {
    a.Connect? && a.remote == remote
  }

  ghost predicate WithoutConnect(actions: seq<Action>, remote: Addr) {
    forall a | a in actions :: !Connects(a, remote)
  }

  /** How many datagrams of a remote have been queued. */
  function QueuedFrom(log: seq<Entry>, remote: Addr): nat {
    if log == [] then 0
    else
      var last := log[|log| - 1];
      QueuedFrom(log[..|log| - 1], remote) + (if last.fate.Queued? && last.datagram.remote == remote then 1 else 0)
  }

  /** The reader has queued a datagram of this remote and is not done with it. */
  predicate IsFinishing(reader: Reader, remote: Addr) {
    match reader
    case Sent(d, _, _) => d.remote == remote
    case Surfacing(d, _) => d.remote == remote
    case _ => false
  }

  /** The reader is still busy with the only datagram of this remote that was queued so far. */
  predicate IsFirst(s: Demux, remote: Addr) {
    QueuedFrom(s.log, remote) == 1 && IsFinishing(s.reader, remote)
  }

  /** The state of a remote that was never named in `connect`. */
  ghost predicate Unconnected(s: Demux, remote: Addr) {
    var n := QueuedFrom(s.log, remote);
    && (!s.reader.Ended? ==> SurfacedFor(s.surfaced, remote) == if n == 0 || IsFirst(s, remote) then 0 else 1)
    && (remote in s.table <==> n > 0 && !(n == 1 && s.reader.Sent? && s.reader.datagram.remote == remote))
    && match s.reader
       case Sending(d, _, isNew) => d.remote == remote ==> (isNew <==> n == 0)
       case Sent(d, _, isNew) => d.remote == remote ==> n > 0 && (isNew <==> n == 1)
       case Surfacing(d, _) => d.remote == remote ==> n == 1
       case _ => true
  }

  lemma QueuedFromAppend(log: seq<Entry>, e: Entry, remote: Addr)
    ensures QueuedFrom(log + [e], remote)
            == QueuedFrom(log, remote) + (if e.fate.Queued? && e.datagram.remote == remote then 1 else 0)
  {
    assert (log + [e])[..|log|] == log;
  }

  lemma SurfacedForAppend(surfaced: seq<(Chan, Datagram)>, one: (Chan, Datagram), remote: Addr)
    ensures SurfacedFor(surfaced + [one], remote)
            == SurfacedFor(surfaced, remote) + (if one.1.remote == remote then 1 else 0)
  {
    assert (surfaced + [one])[..|surfaced|] == surfaced;
  }

  lemma SendStaysUnconnected(s: Demux, remote: Addr)
    requires Inv(s) && Unconnected(s, remote) && DoSend(s).Some?
    ensures Unconnected(DoSend(s).value, remote)
  {
    assert ReaderOk(s);
    hide Inv, ChannelsOk, LogOk, SurfacedOk, TableOk, QueuedFrom, SurfacedFor;
    var Sending(d, chan, isNew) := s.reader;
    QueuedFromAppend(s.log, Entry(d, Queued(chan)), remote);
    QueuedFromAppend(s.log, Entry(d, Dropped(chan)), remote);
  }

  lemma SurfaceStaysUnconnected(s: Demux, remote: Addr)
    requires Unconnected(s, remote) && Next(s, Surface).Some?
    ensures Unconnected(Next(s, Surface).value, remote)
  {
    hide QueuedFrom, SurfacedFor;
    SurfacedForAppend(s.surfaced, (s.reader.chan, s.reader.datagram), remote);
  }

  lemma LookupStaysUnconnected(s: Demux, remote: Addr, made: Chan)
    requires Unconnected(s, remote) && DoLookup(s, made).Some?
    ensures Unconnected(DoLookup(s, made).value, remote)
  {
    hide QueuedFrom, SurfacedFor;
  }

  lemma ReinsertStaysUnconnected(s: Demux, remote: Addr)
    requires Unconnected(s, remote) && DoReinsert(s).Some?
    ensures Unconnected(DoReinsert(s).value, remote)
  {
    hide QueuedFrom, SurfacedFor;
  }

  lemma OtherStaysUnconnected(s: Demux, remote: Addr, a: Action)
    requires Unconnected(s, remote) && Next(s, a).Some? && !Connects(a, remote)
    requires !a.Send? && !a.Lookup? && !a.Surface? && !a.Reinsert?
    ensures Unconnected(Next(s, a).value, remote)
  {
    hide QueuedFrom, SurfacedFor;
  }

  lemma StepStaysUnconnected(s: Demux, remote: Addr, a: Action)
    requires Inv(s) && Unconnected(s, remote) && Next(s, a).Some? && !Connects(a, remote)
    ensures Unconnected(Next(s, a).value, remote)
  {
    hide Inv, Unconnected, DoSend, DoLookup, DoReinsert;
    match a
    case Send => SendStaysUnconnected(s, remote);
    case Lookup(made) => LookupStaysUnconnected(s, remote, made);
    case Reinsert => ReinsertStaysUnconnected(s, remote);
    case Surface => SurfaceStaysUnconnected(s, remote);
    case _ => OtherStaysUnconnected(s, remote, a);
  }

  lemma {:induction false} RunStaysUnconnected(s: Demux, remote: Addr, actions: seq<Action>)
    requires Inv(s) && Unconnected(s, remote) && Run(s, actions).Some? && WithoutConnect(actions, remote)
    ensures Unconnected(Run(s, actions).value, remote)
    decreases |actions|
  {
    if actions != [] {
      assert actions[0] in actions && forall a | a in actions[1..] :: a in actions;
      hide Inv, Unconnected, Next;
      StepKeepsInv(s, actions[0]);
      StepStaysUnconnected(s, remote, actions[0]);
      RunStaysUnconnected(Next(s, actions[0]).value, remote, actions[1..]);
    }
  }

  /**
   Over the life of a socket whose reader has not ended, a remote that was never named in `connect`
   has had exactly one connection surfaced as soon as one of its datagrams was queued, but for the
   time in which the reader is still busy with the first of them.
   */
  lemma UnknownRemotesAreSurfaced(actions: seq<Action>, remote: Addr)
    requires Run(START, actions).Some? && WithoutConnect(actions, remote)
    ensures var s := Run(START, actions).value;
            !s.reader.Ended? ==>
              SurfacedFor(s.surfaced, remote)
              == if QueuedFrom(s.log, remote) == 0 || IsFirst(s, remote) then 0 else 1
  {
    RunStaysUnconnected(START, remote, actions);
  }

  /** What has arrived is what the actions say. */
  lemma {:induction false} ArrivalsAreReceived(s: Demux, before: seq<Action>, actions: seq<Action>)
    requires s.arrivals == Received(before) && Run(s, actions).Some?
    ensures Run(s, actions).value.arrivals == Received(before + actions)
    decreases |actions|
  {
    if actions == [] {
      assert before + actions == before;
    } else {
      var next := before + [actions[0]];
      assert next[..|before|] == before;
      OneOver(before, actions);
      assert Next(s, actions[0]).value.arrivals == Received(next);
      hide Next, Received;
      ArrivalsAreReceived(Next(s, actions[0]).value, next, actions[1..]);
    }
  }

  /**
   In every run the datagrams received are, in order, those queued or dropped and at most one in
   the reader's hand; one was dropped only if the channel found for it has been closed.
   */
  lemma ReceivedIsQueuedOrDropped(actions: seq<Action>)
    requires Run(START, actions).Some?
    ensures var s := Run(START, actions).value;
            && Received(actions) == Datagrams(s.log) + InHand(s.reader)
            && forall i | 0 <= i < |s.log| && s.log[i].fate.Dropped? :: CloseChannel(s.log[i].fate.chan) in actions
  {
    ArrivalsAreReceived(START, [], actions);
    assert [] + actions == actions;
    var s := Run(START, actions).value;
    NothingIsLostOrMixed(s);
    ClosedByAction(START, [], actions);
  }

  lemma {:induction false} ClosedByAction(s: Demux, before: seq<Action>, actions: seq<Action>)
    requires Run(s, actions).Some?
    requires forall c | c in s.channels && !s.channels[c].open :: CloseChannel(c) in before
    ensures var s' := Run(s, actions).value;
            forall c | c in s'.channels && !s'.channels[c].open :: CloseChannel(c) in before + actions
    decreases |actions|
  {
    if actions != [] {
      var next := before + [actions[0]];
      OneOver(before, actions);
      ClosedByAction(Next(s, actions[0]).value, next, actions[1..]);
    }
  }

  /** Once the socket is closed its reader has ended and receives nothing, whatever is done. */
  lemma {:induction false} EndedReceivesNothing(s: Demux, actions: seq<Action>)
    requires s.reader.Ended? && Run(s, actions).Some?
    ensures Run(s, actions).value.reader.Ended? && Run(s, actions).value.arrivals == s.arrivals
    ensures Run(s, actions).value.log == s.log && Run(s, actions).value.surfaced == s.surfaced
    decreases |actions|
  {
    if actions != [] {
      EndedReceivesNothing(Next(s, actions[0]).value, actions[1..]);
    }
  }

  lemma ClosingEndsTheReader(s: Demux, actions: seq<Action>)
    requires Run(s, [CloseSocket] + actions).Some?
    ensures Run(s, [CloseSocket] + actions).value.arrivals == s.arrivals
  {
    assert ([CloseSocket] + actions)[1..] == actions;
    EndedReceivesNothing(Next(s, CloseSocket).value, actions);
  }

  lemma ClosedStep(s: Demux, chan: Chan, a: Action)
    requires chan in s.channels && !s.channels[chan].open && Next(s, a).Some?
    ensures var s' := Next(s, a).value;
            chan in s'.channels && !s'.channels[chan].open && Held(s', chan) == Held(s, chan)
  {
  }

  lemma {:induction false} ClosedStays(s: Demux, chan: Chan, actions: seq<Action>)
    requires chan in s.channels && !s.channels[chan].open && Run(s, actions).Some?
    ensures var s' := Run(s, actions).value;
            chan in s'.channels && !s'.channels[chan].open && Held(s', chan) == Held(s, chan)
    decreases |actions|
  {
    hide Next, Held;
    if actions != [] {
      ClosedStep(s, chan, actions[0]);
      ClosedStays(Next(s, actions[0]).value, chan, actions[1..]);
    }
  }

  /** Once its receiver is gone a channel gets nothing any more, in any continuation. */
  lemma ClosedGetsNothing(s: Demux, chan: Chan, actions: seq<Action>)
    requires Run(s, [CloseChannel(chan)] + actions).Some? && chan in s.channels
    ensures var s' := Run(s, [CloseChannel(chan)] + actions).value;
            chan in s'.channels && Held(s', chan) == Held(s, chan)
  {
    assert ([CloseChannel(chan)] + actions)[1..] == actions;
    ClosedStays(Next(s, CloseChannel(chan)).value, chan, actions);
  }

  // ---------------------------------------------------------------- who wins the table entry

  /** The reader is about to write another channel back for this remote. */
  predicate WillOverwrite(s: Demux, remote: Addr, chan: Chan) {
    match s.reader
    case Sending(d, c, _) => d.remote == remote && c != chan && (c in s.channels ==> s.channels[c].open)
    case Sent(d, c, _) => d.remote == remote && c != chan
    case _ => false
  }

  lemma {:induction false} EntryStays(s: Demux, remote: Addr, actions: seq<Action>)
    requires remote in s.table && !WillOverwrite(s, remote, s.table[remote]) && Run(s, actions).Some?
    requires forall a | a in actions :: !Connects(a, remote)
    ensures var s' := Run(s, actions).value;
            remote in s'.table && s'.table[remote] == s.table[remote]
    decreases |actions|
  {
    if actions != [] {
      assert actions[0] in actions;
      EntryStays(Next(s, actions[0]).value, remote, actions[1..]);
    }
  }

  /** A run in which the reader writes its channel back. */
  function Overwrite(s: Demux): seq<Action> {
    match s.reader
    case Sending(_, c, _) =>
      if c in s.channels && |s.channels[c].queue| >= CAPACITY then [Take(c), Send, Reinsert] else [Send, Reinsert]
    case _ => [Reinsert]
  }

  lemma OverwriteHappens(s: Demux, remote: Addr, chan: Chan)
    requires Inv(s) && WillOverwrite(s, remote, chan)
    ensures var s' := Run(s, Overwrite(s));
            s'.Some? && remote in s'.value.table && s'.value.table[remote] != chan
  {
    match s.reader
    case Sending(d, c, _) =>
      assert ChannelOk(s, c) && ReaderOk(s);
      hide Inv, ChannelsOk, LogOk, SurfacedOk, Through;
      var ready := if |s.channels[c].queue| >= CAPACITY then Next(s, Take(c)).value else s;
      Unfold2(ready, Send, Reinsert);
      if |s.channels[c].queue| >= CAPACITY {
        assert [Take(c), Send, Reinsert][1..] == [Send, Reinsert];
      }
    case Sent(_, _, _) =>
      assert [Reinsert][1..] == [];
  }

  lemma Unfold2(s: Demux, a: Action, b: Action)
    requires Next(s, a).Some?
    ensures Run(s, [a, b]) == Next(Next(s, a).value, b)
  {
    hide Next;
    assert [a, b][1..] == [b] && [b][1..] == [];
    assert Run(Next(s, a).value, [b]) == Next(Next(s, a).value, b);
  }

  /** If these actions are a run, the remote's entry is the same after it. */
  ghost predicate KeepsEntry(s: Demux, remote: Addr, actions: seq<Action>)
    requires remote in s.table
  {
    var s' := Run(s, actions);
    s'.Some? ==> remote in s'.value.table && s'.value.table[remote] == s.table[remote]
  }

  /** No run without another `connect` for the remote ever changes its entry. */
  ghost predicate EntryIsSafe(s: Demux, remote: Addr)
    requires remote in s.table
  {
    forall actions | WithoutConnect(actions, remote) :: KeepsEntry(s, remote, actions)
  }

  /**
   The newest `connect` does not always win. Its entry is safe from everything but another
   `connect` for the same remote exactly when the reader is not past the lookup for that remote
   with a different channel that can still take the datagram.
   */
  lemma EntryIsSafeIff(s: Demux, remote: Addr)
    requires Reachable(s) && remote in s.table
    ensures EntryIsSafe(s, remote) <==> !WillOverwrite(s, remote, s.table[remote])
  {
    ReachableInv(s);
    if WillOverwrite(s, remote, s.table[remote]) {
      OverwriteHappens(s, remote, s.table[remote]);
      assert WithoutConnect(Overwrite(s), remote) && !KeepsEntry(s, remote, Overwrite(s));
    } else {
      forall actions | WithoutConnect(actions, remote)
        ensures KeepsEntry(s, remote, actions)
      {
        if Run(s, actions).Some? {
          EntryStays(s, remote, actions);
        }
      }
    }
  }

  /**
   The race does happen: a datagram arrives, its sender is looked up, and then `connect` is
   called for it. The entry `connect` has made is replaced by the reader's own channel.
   */
  lemma NewestConnectCanLose(d: Datagram) returns (s: Demux, s': Demux)
    ensures Reachable(s) && d.remote in s.table && s.table[d.remote] == 1 && WillOverwrite(s, d.remote, 1)
    ensures Run(s, [Send, Reinsert]) == Some(s') && d.remote in s'.table && s'.table[d.remote] == 0
    ensures !EntryIsSafe(s, d.remote) && Forgotten(s', 1)
  {
    var race := [Receive(d), Lookup(0), Connect(d.remote, 1)];
    var s1 := Next(START, Receive(d)).value;
    var s2 := Next(s1, Lookup(0)).value;
    s := Next(s2, Connect(d.remote, 1)).value;
    assert race[1..] == [Lookup(0), Connect(d.remote, 1)] && race[1..][1..] == [Connect(d.remote, 1)];
    Unfold2(s1, Lookup(0), Connect(d.remote, 1));
    assert Run(START, race) == Run(s1, race[1..]) == Some(s);
    var s3 := Next(s, Send).value;
    s' := Next(s3, Reinsert).value;
    Unfold2(s, Send, Reinsert);
    EntryIsSafeIff(s, d.remote);
  }

  /** No table entry names this channel, and the reader is not about to send to it or to write it back. */
  ghost predicate Forgotten(s: Demux, chan: Chan) {
    && chan in s.channels && (forall r | r in s.table :: s.table[r] != chan)
    && match s.reader
       case Sending(_, c, _) => c != chan
       case Sent(_, c, _) => c != chan
       case _ => true
  }

  lemma ForgottenStep(s: Demux, chan: Chan, a: Action)
    requires Forgotten(s, chan) && Next(s, a).Some?
    ensures Forgotten(Next(s, a).value, chan) && Held(Next(s, a).value, chan) == Held(s, chan)
  {
  }

  /** What becomes of the loser: a forgotten channel stays forgotten and never gets another datagram. */
  lemma {:induction false} ForgottenGetsNothing(s: Demux, chan: Chan, actions: seq<Action>)
    requires Forgotten(s, chan) && Run(s, actions).Some?
    ensures Forgotten(Run(s, actions).value, chan) && Held(Run(s, actions).value, chan) == Held(s, chan)
    decreases |actions|
  {
    hide Next, Forgotten, Held;
    if actions != [] {
      ForgottenStep(s, chan, actions[0]);
      ForgottenGetsNothing(Next(s, actions[0]).value, chan, actions[1..]);
    }
  }

  // ---------------------------------------------------------------- the socket itself

  /** The socket's mutable state. Each method is one step of the reader, or one call of `connect`. */
  class Socket {
    var connections: map<Addr, Chan>
    var channels: map<Chan, Channel>
    var nextChannel: Chan
    var reader: Reader
    var waiting: seq<Chan>
    ghost var arrivals: seq<Datagram>
    ghost var log: seq<Entry>
    ghost var surfaced: seq<(Chan, Datagram)>
    ghost var accepted: seq<Chan>

    ghost function View(): Demux
      reads this
    {
      Demux(connections, channels, reader, waiting, arrivals, log, surfaced, accepted)
    }

    ghost predicate Valid()
      reads this
    {
      Inv(View()) && forall c | c in channels :: c < nextChannel
    }

    constructor ()
      ensures Valid() && View() == START
    {
      connections, channels, nextChannel := map[], map[], 0;
      reader, waiting := Receiving, [];
      arrivals, log, surfaced, accepted := [], [], [], [];
    }

    method NewChannel(remote: Addr) returns (chan: Chan)
      requires forall c | c in channels :: c < nextChannel
      modifies this`channels, this`nextChannel
      ensures chan == old(nextChannel) && nextChannel == chan + 1
      ensures channels == old(channels)[chan := Channel(remote, [], [], true)]
    {
      chan := nextChannel;
      nextChannel := nextChannel + 1;
      channels := channels[chan := Channel(remote, [], [], true)];
    }

    method Connect(remote: Addr) returns (chan: Chan)
      requires Valid()
      modifies this
      ensures Valid() && Some(View()) == Next(old(View()), Action.Connect(remote, chan))
    {
      ConnectKeepsInv(View(), remote, nextChannel);
      chan := NewChannel(remote);
      connections := connections[remote := chan];
    }

    method Receive(datagram: Datagram)
      requires Valid() && reader.Receiving?
      modifies this
      ensures Valid() && Some(View()) == Next(old(View()), Action.Receive(datagram))
    {
      StepKeepsInv(View(), Action.Receive(datagram));
      reader := Arrived(datagram);
      arrivals := arrivals + [datagram];
    }

    /** Find the sender's channel, or make one whose receiving end the reader keeps for now. */
    method FindOrCreate()
      requires Valid() && reader.Arrived?
      modifies this
      ensures Valid() && Some(View()) == Next(old(View()), Lookup(old(nextChannel)))
    {
      LookupKeepsInv(View(), nextChannel);
      var d := reader.datagram;
      if d.remote in connections {
        reader := Sending(d, connections[d.remote], false);
      } else {
        var chan := NewChannel(d.remote);
        reader := Sending(d, chan, true);
      }
    }

    /** Push the datagram, unless the receiver is gone; `blocked` while there is no room. */
    method Forward() returns (blocked: bool)
      requires Valid() && reader.Sending?
      modifies this
      ensures Valid()
      ensures blocked <==>
                old(reader.chan in channels && channels[reader.chan].open && |channels[reader.chan].queue| >= 10)
      ensures if blocked then View() == old(View()) && Next(View(), Send).None?
              else Some(View()) == Next(old(View()), Send)
    {
      if DoSend(View()).Some? {
        SendKeepsInv(View());
      }
      var Sending(d, chan, isNew) := reader;
      var channel := channels[chan];
      if !channel.open {
        log := log + [Entry(d, Dropped(chan))];
        reader := Receiving;
        return false;
      }
      if |channel.queue| >= CAPACITY {
        return true;
      }
      channels := channels[chan := channel.(queue := channel.queue + [d])];
      log := log + [Entry(d, Queued(chan))];
      reader := Sent(d, chan, isNew);
      return false;
    }

    method WriteBack()
      requires Valid() && reader.Sent?
      modifies this
      ensures Valid() && Some(View()) == Next(old(View()), Reinsert)
    {
      StepKeepsInv(View(), Reinsert);
      var Sent(d, chan, isNew) := reader;
      connections := connections[d.remote := chan];
      reader := if isNew then Surfacing(d, chan) else Receiving;
    }

    /** Hand a new connection to whoever accepts them; `blocked` while that queue is full. */
    method Announce() returns (blocked: bool)
      requires Valid() && reader.Surfacing?
      modifies this
      ensures Valid()
      ensures blocked <==> |old(waiting)| >= 10
      ensures if blocked then View() == old(View()) && Next(View(), Surface).None?
              else Some(View()) == Next(old(View()), Surface)
    {
      if |waiting| >= CAPACITY {
        return true;
      }
      StepKeepsInv(View(), Surface);
      var Surfacing(d, chan) := reader;
      waiting := waiting + [chan];
      surfaced := surfaced + [(chan, d)];
      reader := Receiving;
      return false;
    }
  }
}
