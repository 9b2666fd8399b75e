/**
 Nothing on the way can block for good: from every reachable state there is a run that empties
 the whole way from a client to another, and then a packet gets through.
 */
module Draining {
  import opened Bytes
  import opened FrameCodec
  import opened FrameStream
  import opened Places
  import opened Pipeline
  import opened PipelineSafety
  import opened PipelineRuns
  import opened Passage

  /** All stages between client `c` and the lookup at the other end of `h` and after it, farthest first. */
  function Stretch(facts: Facts, c: Client, h: Half): (path: seq<Place>)
    requires c in facts.clients && h in facts.halves
    ensures |path| == 12
  {
    var from, n, s := facts.clients[c].host, facts.halves[h].target, SockOf(facts, h);
    [Chosen(n), NetHand(n), Upstream(n), SockHand(s), SockQueue(s), ReadHand(h),
     Wire(h), WriteHand(h), Sink(h), UnixHand(from), UnixQueue(from), ClientHand(c)]
  }

  /** No frame on the link, passed or still ahead of its reader, has a payload too long. */
  ghost predicate LinkFits(c: Content, h: Half) {
    forall p, t | (p == Passed(h) || p == Wire(h) || p == WriteHand(h) || p == Sink(h)) && t in At(c, p) ::
      t.Framed? ==> Fits(t.frame)
  }

  ghost predicate IdleUpTo(w: World, path: seq<Place>, k: nat) {
    forall i | 0 <= i < k && i < |path| :: Idle(w.content, path[i])
  }

  /** A run that takes the oldest token off the k-th stage, whatever it does farther on. */
  ghost predicate TakesOne(w: World, w': World, path: seq<Place>, k: nat)
    requires k < |path|
  {
    && Leads(w, w') && SameSetting(w, w')
    && At(w.content, path[k]) != [] && At(w'.content, path[k]) == At(w.content, path[k])[1..]
    && forall i | k < i < |path| :: At(w'.content, path[i]) == At(w.content, path[i])
  }

  // ---------------------------------------------------------------- steps of one kind

  lemma OneStepLeads(w: World, a: Action)
    requires Next(w, a).Some?
    ensures Leads(w, Next(w, a).value)
  {
    hide Next, Leads;
    Stay(w);
    ThenStep(w, w, a);
  }

  lemma LeadsOn(w: World, mid: World, w': World)
    requires Leads(w, mid) && Leads(mid, w')
    ensures Leads(w, w')
  {
    var first :| Run(w, first) == Some(mid);
    var second :| Run(mid, second) == Some(w');
    RunConcat(w, first, second);
  }

  lemma LeadsInv(w: World, w': World)
    requires Inv(w) && Leads(w, w')
    ensures Inv(w')
  {
    hide Inv;
    var actions :| Run(w, actions) == Some(w');
    RunKeepsInv(w, actions);
  }

  /** A step that moves the oldest token of the k-th stage to a place that is no earlier stage. */
  lemma ByShift(w: World, a: Action, path: seq<Place>, k: nat, b: Place, t: Token) returns (w': World)
    requires k < |path| && Distinct(path) && At(w.content, path[k]) != [] && (b !in path || (k > 0 && b == path[k - 1]))
    requires Next(w, a) == Some(w.(content := Shift(w.content, path[k], b, t)))
    ensures w' == w.(content := Shift(w.content, path[k], b, t)) && TakesOne(w, w', path, k)
  {
    OneStepLeads(w, a);
    hide Next, Leads, At, Shift;
    w' := w.(content := Shift(w.content, path[k], b, t));
    ShiftAt(w.content, path[k], b, t);
    ShiftElsewhere(w.content, path[k], b, t);
    assert forall i | k < i < |path| :: path[i] != b && path[i] != path[k];
  }

  /** What is moved within a link, or off it, leaves the link fitting. */
  lemma ShiftKeepsFits(c: Content, a: Place, b: Place, t: Token, h: Half)
    requires LinkFits(c, h) && At(c, a) != [] && a != b
    requires (b == Passed(h) || b == Wire(h) || b == WriteHand(h) || b == Sink(h)) ==>
               t == At(c, a)[0] && (a == Wire(h) || a == WriteHand(h) || a == Sink(h))
    ensures LinkFits(Shift(c, a, b, t), h)
  {
    var c' := Shift(c, a, b, t);
    ShiftAt(c, a, b, t);
    ShiftElsewhere(c, a, b, t);
    hide Shift, At, Fits;
    forall p, u | (p == Passed(h) || p == Wire(h) || p == WriteHand(h) || p == Sink(h)) && u in At(c', p)
      ensures u.Framed? ==> Fits(u.frame)
    {
      if p == a {
        assert u in At(c, a);
      } else if p == b {
        assert u in At(c, b) || u == At(c, a)[0];
      }
    }
  }

  /** A change elsewhere leaves the link fitting. */
  lemma ElsewhereKeepsFits(c: Content, c': Content, h: Half)
    requires LinkFits(c, h)
    requires At(c', Passed(h)) == At(c, Passed(h)) && At(c', Wire(h)) == At(c, Wire(h))
    requires At(c', WriteHand(h)) == At(c, WriteHand(h)) && At(c', Sink(h)) == At(c, Sink(h))
    ensures LinkFits(c', h)
  {
    hide At, Fits;
  }

  /** One token off the k-th stage, with the link still fitting. */
  ghost predicate Drained(w: World, w': World, c: Client, h: Half, k: nat)
    requires c in w.facts.clients && h in w.facts.halves && k < 12
  {
    TakesOne(w, w', Stretch(w.facts, c, h), k) && LinkFits(w'.content, h)
  }

  lemma StretchShape(facts: Facts, c: Client, h: Half)
    requires c in facts.clients && h in facts.halves
    ensures Distinct(Stretch(facts, c, h))
  {
  }

  /** The oldest token of the k-th stage can be moved on in one step. */
  lemma Moves(w: World, c: Client, h: Half, k: nat, a: Action, b: Place, t: Token) returns (w': World)
    requires c in w.facts.clients && h in w.facts.halves && k < 12 && LinkFits(w.content, h)
    requires var path := Stretch(w.facts, c, h);
             && At(w.content, path[k]) != [] && (b !in path || (k > 0 && b == path[k - 1]))
             && Next(w, a) == Some(w.(content := Shift(w.content, path[k], b, t)))
    requires OnLinkPlace(b) && b.half == h ==>
             t == At(w.content, Stretch(w.facts, c, h)[k])[0] && OnLinkPlace(Stretch(w.facts, c, h)[k])
    ensures Drained(w, w', c, h, k)
  {
    hide Next, Stretch, Shift, TakesOne, LinkFits, Distinct, At;
    var path := Stretch(w.facts, c, h);
    StretchShape(w.facts, c, h);
    LinkStages(w.facts, c, h, k);
    w' := ByShift(w, a, path, k, b, t);
    assert path[k] != b by { StretchApart(w.facts, c, h, k, b); }
    ShiftKeepsFits(w.content, path[k], b, t, h);
    SameStretch(w, w', c, h);
  }

  lemma LinkStages(facts: Facts, c: Client, h: Half, k: nat)
    requires c in facts.clients && h in facts.halves && k < 12
    ensures var p := Stretch(facts, c, h)[k]; OnLinkPlace(p) ==> p == Wire(h) || p == WriteHand(h) || p == Sink(h)
  {
  }

  lemma StretchApart(facts: Facts, c: Client, h: Half, k: nat, b: Place)
    requires c in facts.clients && h in facts.halves && k < 12
    requires b !in Stretch(facts, c, h) || (k > 0 && b == Stretch(facts, c, h)[k - 1])
    ensures Stretch(facts, c, h)[k] != b
  {
  }

  lemma SameStretch(w: World, w': World, c: Client, h: Half)
    requires c in w.facts.clients && h in w.facts.halves && SameSetting(w, w')
    ensures c in w'.facts.clients && h in w'.facts.halves && Stretch(w'.facts, c, h) == Stretch(w.facts, c, h)
  {
  }

  /** What a place holds has the form its stage gives it. */
  lemma OldestIsGood(w: World, p: Place)
    requires Inv(w) && At(w.content, p) != []
    ensures Good(w.facts, p, At(w.content, p)[0])
  {
    assert At(w.content, p)[0] in At(w.content, p);
  }

  // ---------------------------------------------------------------- one token off each stage

  lemma FromUnix(w: World, c: Client, h: Half, k: nat) returns (w': World)
    requires Inv(w) && c in w.facts.clients && h in w.facts.halves && LinkFits(w.content, h) && 9 <= k < 12
    requires IdleUpTo(w, Stretch(w.facts, c, h), k) && At(w.content, Stretch(w.facts, c, h)[k]) != []
    ensures Drained(w, w', c, h, k)
  {
    var path := Stretch(w.facts, c, h);
    var t, from := At(w.content, path[k])[0], w.facts.clients[c].host;
    assert path[9] == UnixHand(from) && path[10] == UnixQueue(from);
    assert path[11] == ClientHand(c) && Forwarded(from) !in path;
    assert Idle(w.content, path[k - 1]);
    hide Stretch, LinkFits, Drained, Shift, At;
    match k
    case 9 =>
      DropUnsentIsEnabled(w, from);
      w' := Moves(w, c, h, k, DropUnsent(from), Forwarded(from), Settled(t.client, t.packet, None));
    case 10 =>
      TakeUnixIsEnabled(w, from);
      w' := Moves(w, c, h, k, TakeUnix(from), UnixHand(from), t);
    case 11 =>
      SubmitIsEnabled(w, c);
      w' := Moves(w, c, h, k, Submit(c), UnixQueue(from), t);
  }

  lemma DropUnsentIsEnabled(w: World, n: Host)
    requires Inv(w) && At(w.content, UnixHand(n)) != []
    ensures var t := At(w.content, UnixHand(n))[0];
            && t.Outgoing?
            && Next(w, DropUnsent(n))
               == Some(w.(content := Shift(w.content, UnixHand(n), Forwarded(n), Settled(t.client, t.packet, None))))
  {
    OldestIsGood(w, UnixHand(n));
    hide Inv, SentFrom, Shift;
  }

  lemma TakeUnixIsEnabled(w: World, n: Host)
    requires At(w.content, UnixQueue(n)) != [] && Idle(w.content, UnixHand(n))
    ensures Next(w, TakeUnix(n))
            == Some(w.(content := Shift(w.content, UnixQueue(n), UnixHand(n), At(w.content, UnixQueue(n))[0])))
  {
    hide Shift;
  }

  lemma SubmitIsEnabled(w: World, c: Client)
    requires c in w.facts.clients && At(w.content, ClientHand(c)) != []
    requires Idle(w.content, UnixQueue(w.facts.clients[c].host))
    ensures var b := UnixQueue(w.facts.clients[c].host);
            Next(w, Submit(c)) == Some(
              w.(content := Shift(w.content, ClientHand(c), b, At(w.content, ClientHand(c))[0])))
  {
    hide Shift;
  }

  lemma FromSink(w: World, c: Client, h: Half) returns (w': World)
    requires Inv(w) && c in w.facts.clients && h in w.facts.halves && LinkFits(w.content, h)
    requires IdleUpTo(w, Stretch(w.facts, c, h), 8) && At(w.content, Sink(h)) != []
    ensures Drained(w, w', c, h, 8)
  {
    hide Inv, Drained, LinkFits, Shift, Next, Stretch, At, Idle;
    StretchKinds(w.facts, c, h);
    assert Idle(w.content, Stretch(w.facts, c, h)[7]);
    TakeSinkIsEnabled(w, h);
    w' := Moves(w, c, h, 8, TakeSink(h), WriteHand(h), At(w.content, Sink(h))[0]);
  }

  lemma TakeSinkIsEnabled(w: World, h: Half)
    requires At(w.content, Sink(h)) != [] && Idle(w.content, WriteHand(h))
    ensures Next(w, TakeSink(h))
            == Some(w.(content := Shift(w.content, Sink(h), WriteHand(h), At(w.content, Sink(h))[0])))
  {
    hide Shift;
  }

  lemma FromSocket(w: World, c: Client, h: Half) returns (w': World)
    requires Inv(w) && c in w.facts.clients && h in w.facts.halves && LinkFits(w.content, h)
    requires IdleUpTo(w, Stretch(w.facts, c, h), 4) && At(w.content, SockQueue(SockOf(w.facts, h))) != []
    ensures Drained(w, w', c, h, 4)
  {
    hide Inv, Drained, LinkFits, Shift, Next, Stretch, At, Idle;
    var s := SockOf(w.facts, h);
    StretchKinds(w.facts, c, h);
    assert Idle(w.content, Stretch(w.facts, c, h)[3]);
    TakeSockIsEnabled(w, s);
    w' := Moves(w, c, h, 4, TakeSock(s), SockHand(s), At(w.content, SockQueue(s))[0]);
  }

  lemma TakeSockIsEnabled(w: World, s: Sock)
    requires At(w.content, SockQueue(s)) != [] && Idle(w.content, SockHand(s))
    ensures Next(w, TakeSock(s))
            == Some(w.(content := Shift(w.content, SockQueue(s), SockHand(s), At(w.content, SockQueue(s))[0])))
  {
    hide Shift;
  }

  lemma FromUpstream(w: World, c: Client, h: Half) returns (w': World)
    requires Inv(w) && c in w.facts.clients && h in w.facts.halves && LinkFits(w.content, h)
    requires IdleUpTo(w, Stretch(w.facts, c, h), 2) && At(w.content, Upstream(w.facts.halves[h].target)) != []
    ensures Drained(w, w', c, h, 2)
  {
    hide Inv, Drained, LinkFits, Shift, Next, Stretch, At, Idle;
    var n := w.facts.halves[h].target;
    StretchKinds(w.facts, c, h);
    assert Idle(w.content, Stretch(w.facts, c, h)[0]) && Idle(w.content, Stretch(w.facts, c, h)[1]);
    TakeUpIsEnabled(w, n);
    w' := Moves(w, c, h, 2, TakeUp(n), NetHand(n), At(w.content, Upstream(n))[0]);
  }

  lemma TakeUpIsEnabled(w: World, n: Host)
    requires At(w.content, Upstream(n)) != [] && Idle(w.content, Chosen(n)) && Idle(w.content, NetHand(n))
    ensures Next(w, TakeUp(n))
            == Some(w.(content := Shift(w.content, Upstream(n), NetHand(n), At(w.content, Upstream(n))[0])))
  {
    hide Shift;
  }

  /** One token off a stage by a step that does more than move it. */
  lemma ByStep(w: World, a: Action, w': World, c: Client, h: Half, k: nat)
    requires c in w.facts.clients && h in w.facts.halves && k < 12 && LinkFits(w.content, h)
    requires Next(w, a) == Some(w') && SameSetting(w, w') && LinkFits(w'.content, h)
    requires var path := Stretch(w.facts, c, h);
             && At(w.content, path[k]) != [] && At(w'.content, path[k]) == At(w.content, path[k])[1..]
             && forall i | k < i < 12 :: At(w'.content, path[i]) == At(w.content, path[i])
    ensures Drained(w, w', c, h, k)
  {
    OneStepLeads(w, a);
  }

  /** Which stages come after which, by their kinds. */
  lemma StretchKinds(facts: Facts, c: Client, h: Half)
    requires c in facts.clients && h in facts.halves
    ensures var path, n, s := Stretch(facts, c, h), facts.halves[h].target, SockOf(facts, h);
            && path[0] == Chosen(n) && path[1] == NetHand(n) && path[2] == Upstream(n) && path[3] == SockHand(s)
            && path[4] == SockQueue(s) && path[8] == Sink(h) && path[5] == ReadHand(h) && path[6] == Wire(h)
            && path[7] == WriteHand(h)
            && (forall i | 0 < i < 12 :: !path[i].Chosen?) && (forall i | 1 < i < 12 :: !path[i].NetHand?)
            && (forall i | 3 < i < 12 :: !path[i].SockHand? && !path[i].Upstream?)
            && (forall i | 5 < i < 12 :: !path[i].ReadHand? && !path[i].SockQueue?)
            && (forall i | 6 < i < 12 :: !path[i].Wire?) && (forall i | 7 < i < 12 :: !path[i].WriteHand?)
    ensures forall p | p in Stretch(facts, c, h) ::
              !p.Tabled? && !p.Split? && !p.Handled? && !p.Passed? &&
              !p.ClientQueue? && !p.Received? && !p.Answered? && !p.Heard? &&
              !p.Entered? && (p.Sink? ==> p.half == h) && (p.WriteHand? ==> p.half == h) && (p.Wire? ==> p.half == h)
  {
  }

  lemma FromNetHand(w: World, c: Client, h: Half) returns (w': World)
    requires Inv(w) && c in w.facts.clients && h in w.facts.halves && LinkFits(w.content, h)
    requires Idle(w.content, Chosen(w.facts.halves[h].target)) && At(w.content, NetHand(w.facts.halves[h].target)) != []
    ensures Drained(w, w', c, h, 1)
  {
    hide Inv, LinkFits, DoLookup, Next, Drained, Stretch, Idle, At;
    var n := w.facts.halves[h].target;
    LookupIsEnabled(w, n);
    StretchKinds(w.facts, c, h);
    w' := DoLookup(w, n).value;
    AfterLookup(w, n);
    ElsewhereKeepsFits(w.content, w'.content, h);
    ByStep(w, Lookup(n), w', c, h, 1);
  }

  lemma LookupIsEnabled(w: World, n: Host)
    requires Inv(w) && Idle(w.content, Chosen(n)) && At(w.content, NetHand(n)) != []
    ensures DoLookup(w, n).Some? && Next(w, Lookup(n)) == DoLookup(w, n)
  {
    hide Inv, CameUp, Shift, Push;
    OldestIsGood(w, NetHand(n));
  }

  lemma AfterLookup(w: World, n: Host)
    requires DoLookup(w, n).Some?
    ensures var w' := DoLookup(w, n).value;
            && SameSetting(w, w') && At(w'.content, NetHand(n)) == At(w.content, NetHand(n))[1..]
            && forall p: Place :: !p.NetHand? && !p.Tabled? && !p.Chosen? ==> At(w'.content, p) == At(w.content, p)
  {
  }

  lemma FromSockHand(w: World, c: Client, h: Half) returns (w': World)
    requires Inv(w) && c in w.facts.clients && h in w.facts.halves && LinkFits(w.content, h)
    requires Idle(w.content, Upstream(w.facts.halves[h].target)) && At(w.content, SockHand(SockOf(w.facts, h))) != []
    ensures Drained(w, w', c, h, 3)
  {
    hide Inv, LinkFits, Next, Drained, Stretch, Idle, At, Part, IsControl;
    var s, t := SockOf(w.facts, h), At(w.content, SockHand(SockOf(w.facts, h)))[0];
    PartIsEnabled(w, s);
    StretchKinds(w.facts, c, h);
    var b := if IsControl(t) then Handled(s) else Upstream(s.host);
    w' := w.(content := Part(w.content, s, b, t));
    AfterPart(w.content, s, b, t);
    ElsewhereKeepsFits(w.content, w'.content, h);
    ByStep(w, if IsControl(t) then Process(s) else PassUp(s), w', c, h, 3);
  }

  lemma PartIsEnabled(w: World, s: Sock)
    requires Inv(w) && Idle(w.content, Upstream(s.host)) && At(w.content, SockHand(s)) != []
    ensures var t := At(w.content, SockHand(s))[0];
            && t.Incoming?
            && Next(w, if IsControl(t) then Process(s) else PassUp(s))
               == Some(w.(content := Part(w.content, s, if IsControl(t) then Handled(s) else Upstream(s.host), t)))
  {
    hide Inv, Came, IsControl, Shift, Push;
    OldestIsGood(w, SockHand(s));
  }

  lemma AfterPart(c: Content, s: Sock, b: Place, t: Token)
    requires At(c, SockHand(s)) != [] && (b.Handled? || b.Upstream?)
    ensures At(Part(c, s, b, t), SockHand(s)) == At(c, SockHand(s))[1..]
    ensures forall p: Place :: !p.SockHand? && !p.Split? && p != b ==> At(Part(c, s, b, t), p) == At(c, p)
  {
  }

  lemma FromWriteHand(w: World, c: Client, h: Half) returns (w': World)
    requires Inv(w) && c in w.facts.clients && h in w.facts.halves && LinkFits(w.content, h)
    requires At(w.content, WriteHand(h)) != []
    ensures Drained(w, w', c, h, 7)
  {
    hide Inv, LinkFits, Next, Drained, Stretch, At, Shift, DoWriteFrame;
    WriteIsEnabled(w, h);
    w' := DoWriteFrame(w, h).value;
    AfterWrite(w, w', c, h);
    ByStep(w, WriteFrame(h), w', c, h, 7);
  }

  lemma AfterWrite(w: World, w': World, c: Client, h: Half)
    requires c in w.facts.clients && h in w.facts.halves && LinkFits(w.content, h)
    requires At(w.content, WriteHand(h)) != []
    requires w'.content == Shift(w.content, WriteHand(h), Wire(h), At(w.content, WriteHand(h))[0])
    ensures Stretch(w.facts, c, h)[7] == WriteHand(h) && LinkFits(w'.content, h)
    ensures At(w'.content, WriteHand(h)) == At(w.content, WriteHand(h))[1..]
    ensures forall i | 7 < i < 12 ::
              At(w'.content, Stretch(w.facts, c, h)[i]) == At(w.content, Stretch(w.facts, c, h)[i])
  {
    hide LinkFits, Stretch, At, Shift;
    var t := At(w.content, WriteHand(h))[0];
    StretchKinds(w.facts, c, h);
    ShiftAt(w.content, WriteHand(h), Wire(h), t);
    ShiftElsewhere(w.content, WriteHand(h), Wire(h), t);
    ShiftKeepsFits(w.content, WriteHand(h), Wire(h), t, h);
  }

  lemma WriteIsEnabled(w: World, h: Half)
    requires Inv(w) && At(w.content, WriteHand(h)) != []
    ensures DoWriteFrame(w, h).Some? && Next(w, WriteFrame(h)) == DoWriteFrame(w, h)
    ensures var w', t := DoWriteFrame(w, h).value, At(w.content, WriteHand(h))[0];
            SameSetting(w, w') && w'.content == Shift(w.content, WriteHand(h), Wire(h), t)
  {
    OldestIsGood(w, WriteHand(h));
    hide Inv, Honest, Encoding;
  }

  // ---------------------------------------------------------------- a frame off the wire

  lemma FromWire(w: World, c: Client, h: Half) returns (w': World)
    requires Inv(w) && c in w.facts.clients && h in w.facts.halves && LinkFits(w.content, h)
    requires Idle(w.content, ReadHand(h)) && At(w.content, Wire(h)) != []
    ensures Drained(w, w', c, h, 6)
  {
    hide Inv, LinkFits, Next, Stretch, Idle, At, Parse, StreamOf, DoReadFrame, Leads;
    StretchKinds(w.facts, c, h);
    var w1 := CarryAll(w, h);
    ParsesOldest(w, h);
    ReadIsEnabled(w1, h);
    w' := DoReadFrame(w1, h).value;
    AfterRead(w1, h);
    OneStepLeads(w1, ReadFrame(h));
    LeadsOn(w, w1, w');
    ReadKeepsFits(w.content, w'.content, h);
  }

  lemma ReadIsEnabled(w: World, h: Half)
    requires h in w.facts.halves && Idle(w.content, ReadHand(h)) && Parse(StreamOf(w, h).buffer).Got?
    ensures DoReadFrame(w, h).Some? && Next(w, ReadFrame(h)) == DoReadFrame(w, h)
  {
    hide Parse, StreamOf;
  }

  lemma CarryAll(w: World, h: Half) returns (w': World)
    ensures Leads(w, w') && w' == w.(streams := w'.streams)
    ensures StreamOf(w', h) == Stream([], StreamOf(w, h).buffer + StreamOf(w, h).unread)
  {
    var Stream(unread, buffer) := StreamOf(w, h);
    assert unread[..|unread|] == unread && unread[|unread|..] == [];
    OneStepLeads(w, Carry(h, |unread|));
    w' := Next(w, Carry(h, |unread|)).value;
    hide Leads;
  }

  /** All the bytes ahead begin with the encoding of the oldest frame under way. */
  lemma ParsesOldest(w: World, h: Half)
    requires Inv(w) && LinkFits(w.content, h) && At(w.content, Wire(h)) != []
    ensures At(w.content, Wire(h))[0].Framed?
    ensures Parse(StreamOf(w, h).buffer + StreamOf(w, h).unread).Got?
  {
    var wire, bytes := At(w.content, Wire(h)), StreamOf(w, h).buffer + StreamOf(w, h).unread;
    OldestIsGood(w, Wire(h));
    assert InStep(w, h) && NoneCut(w.content, h);
    assert wire[0] in wire;
    hide Inv, Parse, Encoding, Good;
    StreamInStep(w, h);
    CarriedFirst(wire);
    assert ([wire[0].frame] + Carried(wire[1..]))[1..] == Carried(wire[1..]);
    ParseOfFitting(wire[0].frame, EncodeAll(Carried(wire[1..])));
  }

  lemma AfterRead(w: World, h: Half)
    requires DoReadFrame(w, h).Some? && At(w.content, Wire(h)) != []
    ensures var w', wire := DoReadFrame(w, h).value, At(w.content, Wire(h));
            && SameSetting(w, w') && At(w'.content, Wire(h)) == wire[1..]
            && At(w'.content, Passed(h)) == At(w.content, Passed(h)) + [wire[0]]
            && forall p: Place :: p != Wire(h) && p != Passed(h) && p != ReadHand(h) ==>
                At(w'.content, p) == At(w.content, p)
  {
    hide Parse;
  }

  lemma ReadKeepsFits(c: Content, c': Content, h: Half)
    requires LinkFits(c, h) && At(c, Wire(h)) != []
    requires At(c', Wire(h)) == At(c, Wire(h))[1..] && At(c', Passed(h)) == At(c, Passed(h)) + [At(c, Wire(h))[0]]
    requires At(c', WriteHand(h)) == At(c, WriteHand(h)) && At(c', Sink(h)) == At(c, Sink(h))
    ensures LinkFits(c', h)
  {
    hide At, Fits;
    assert At(c, Wire(h))[0] in At(c, Wire(h));
  }

  // ---------------------------------------------------------------- where room may have to be made

  /** A run that changes nothing on the stretch, and then one token off it. */
  lemma AfterAside(w: World, w1: World, w': World, c: Client, h: Half, k: nat)
    requires c in w.facts.clients && h in w.facts.halves && k < 12 && Leads(w, w1) && SameSetting(w, w1)
    requires forall p | p in Stretch(w.facts, c, h) :: At(w1.content, p) == At(w.content, p)
    requires c in w1.facts.clients && h in w1.facts.halves && Drained(w1, w', c, h, k)
    ensures Drained(w, w', c, h, k)
  {
    var path := Stretch(w.facts, c, h);
    SameStretch(w, w1, c, h);
    hide Stretch, Leads, LinkFits, At;
    LeadsOn(w, w1, w');
    assert forall i | 0 <= i < |path| :: path[i] in path;
  }

  lemma FromChosen(w: World, c: Client, h: Half) returns (w': World)
    requires Inv(w) && c in w.facts.clients && h in w.facts.halves && LinkFits(w.content, h)
    requires At(w.content, Chosen(w.facts.halves[h].target)) != []
    ensures Drained(w, w', c, h, 0)
  {
    hide Inv, LinkFits, Next, Drained, Stretch, Idle, At, CameUp, Shift, Bounded, Leads;
    var n := w.facts.halves[h].target;
    var t := At(w.content, Chosen(n))[0];
    ChosenIsResolved(w, n);
    if t.client in w.closed {
      w' := DropChosen(w, c, h);
    } else {
      var w1 := RoomAt(w, t.client);
      StretchKinds(w.facts, c, h);
      ElsewhereKeepsFits(w.content, w1.content, h);
      var w2 := DeliverChosen(w1, c, h);
      AfterAside(w, w1, w2, c, h, 0);
      w' := w2;
    }
  }

  lemma ChosenIsResolved(w: World, n: Host)
    requires Inv(w) && At(w.content, Chosen(n)) != []
    ensures At(w.content, Chosen(n))[0].Resolved? && Bounded(w.content)
  {
    OldestIsGood(w, Chosen(n));
    hide CameUp;
  }

  lemma DropChosen(w: World, c: Client, h: Half) returns (w': World)
    requires c in w.facts.clients && h in w.facts.halves && LinkFits(w.content, h)
    requires var n := w.facts.halves[h].target;
             At(w.content, Chosen(n)) != [] && At(w.content, Chosen(n))[0].Resolved? &&
             At(w.content, Chosen(n))[0].client in w.closed
    ensures Drained(w, w', c, h, 0)
  {
    hide Next, Pop, Stretch, LinkFits, Drained, At;
    var n := w.facts.halves[h].target;
    DropIsEnabled(w, n);
    w' := w.(content := Pop(w.content, Chosen(n)));
    StretchKinds(w.facts, c, h);
    ElsewhereKeepsFits(w.content, w'.content, h);
    ByStep(w, DropDelivery(n), w', c, h, 0);
  }

  lemma DropIsEnabled(w: World, n: Host)
    requires At(w.content, Chosen(n)) != [] && At(w.content, Chosen(n))[0].Resolved?
    requires At(w.content, Chosen(n))[0].client in w.closed
    ensures var c' := Pop(w.content, Chosen(n));
            && Next(w, DropDelivery(n)) == Some(w.(content := c')) && At(c', Chosen(n)) == At(w.content, Chosen(n))[1..]
            && forall p :: p != Chosen(n) ==> At(c', p) == At(w.content, p)
  {
  }

  /** If a client's queue is full, the client takes a frame first. */
  lemma RoomAt(w: World, e: Client) returns (w': World)
    requires Bounded(w.content)
    ensures Leads(w, w') && SameSetting(w, w') && w'.facts == w.facts && Room(w'.content, ClientQueue(e))
    ensures forall p :: p != ClientQueue(e) && p != Received(e) ==> At(w'.content, p) == At(w.content, p)
  {
    if Room(w.content, ClientQueue(e)) {
      Stay(w);
      w' := w;
    } else {
      assert At(w.content, ClientQueue(e)) != [];
      w' := AfterReceive(w, e);
    }
  }

  lemma AfterReceive(w: World, e: Client) returns (w': World)
    requires At(w.content, ClientQueue(e)) != []
    ensures Leads(w, w') && SameSetting(w, w') && w'.facts == w.facts && w'.streams == w.streams
    ensures |At(w.content, ClientQueue(e))| <= 10 ==> Room(w'.content, ClientQueue(e))
    ensures At(w'.content, ClientQueue(e)) == At(w.content, ClientQueue(e))[1..]
    ensures At(w'.content, Received(e)) == At(w.content, Received(e)) + [At(w.content, ClientQueue(e))[0]]
    ensures forall p :: p != ClientQueue(e) && p != Received(e) ==> At(w'.content, p) == At(w.content, p)
  {
    ReceiveIsEnabled(w, e);
    OneStepLeads(w, Receive(e));
    hide Leads, Next, At, Shift;
    w' := w.(content := Shift(w.content, ClientQueue(e), Received(e), At(w.content, ClientQueue(e))[0]));
    ShiftAt(w.content, ClientQueue(e), Received(e), At(w.content, ClientQueue(e))[0]);
    ShiftElsewhere(w.content, ClientQueue(e), Received(e), At(w.content, ClientQueue(e))[0]);
  }

  lemma ReceiveIsEnabled(w: World, e: Client)
    requires At(w.content, ClientQueue(e)) != []
    ensures Next(w, Receive(e))
            == Some(w.(content := Shift(w.content, ClientQueue(e), Received(e), At(w.content, ClientQueue(e))[0])))
  {
    hide Shift;
  }

  lemma DeliverChosen(w: World, c: Client, h: Half) returns (w': World)
    requires c in w.facts.clients && h in w.facts.halves && LinkFits(w.content, h)
    requires var hand := At(w.content, Chosen(w.facts.halves[h].target));
             && hand != [] && hand[0].Resolved? && hand[0].client !in w.closed
             && Room(w.content, ClientQueue(hand[0].client))
    ensures Drained(w, w', c, h, 0)
  {
    var n := w.facts.halves[h].target;
    var t := At(w.content, Chosen(n))[0];
    var got := Local(t.via, t.packet.host, t.packet.srcPort, t.packet.data);
    assert Next(w, Deliver(n)) == Some(w.(content := Shift(w.content, Chosen(n), ClientQueue(t.client), got)));
    StretchKinds(w.facts, c, h);
    assert Stretch(w.facts, c, h)[0] == Chosen(n);
    hide Next, Stretch, LinkFits, Drained, At, Shift, Room;
    w' := Moves(w, c, h, 0, Deliver(n), ClientQueue(t.client), got);
  }

  lemma FromReadHand(w: World, c: Client, h: Half) returns (w': World)
    requires Inv(w) && c in w.facts.clients && h in w.facts.halves && LinkFits(w.content, h)
    requires Idle(w.content, SockQueue(SockOf(w.facts, h))) && At(w.content, ReadHand(h)) != []
    ensures Drained(w, w', c, h, 5)
  {
    var t := At(w.content, ReadHand(h))[0];
    OldestIsGood(w, ReadHand(h));
    assert Linked(w.facts);
    hide Inv, LinkFits, Next, Drained, Stretch, Idle, At, Decoded, Shift, Linked;
    if t.frame.Ping? {
      w' := AnswerPing(w, c, h);
    } else if t.frame.Pong? {
      w' := HearPong(w, c, h);
    } else {
      w' := ForwardData(w, c, h);
    }
  }

  lemma HearPong(w: World, c: Client, h: Half) returns (w': World)
    requires c in w.facts.clients && h in w.facts.halves && LinkFits(w.content, h)
    requires At(w.content, ReadHand(h)) != [] && At(w.content, ReadHand(h))[0] == Framed(h, Pong)
    ensures Drained(w, w', c, h, 5)
  {
    hide Next, Stretch, LinkFits, Drained, At, Shift;
    HearIsEnabled(w, h);
    StretchKinds(w.facts, c, h);
    w' := Moves(w, c, h, 5, Hear(h), Heard(h), At(w.content, ReadHand(h))[0]);
  }

  lemma HearIsEnabled(w: World, h: Half)
    requires h in w.facts.halves && At(w.content, ReadHand(h)) != [] && At(w.content, ReadHand(h))[0] == Framed(h, Pong)
    ensures Next(w, Hear(h))
            == Some(w.(content := Shift(w.content, ReadHand(h), Heard(h), At(w.content, ReadHand(h))[0])))
  {
    hide Shift;
  }

  lemma ForwardData(w: World, c: Client, h: Half) returns (w': World)
    requires c in w.facts.clients && h in w.facts.halves && LinkFits(w.content, h)
    requires Idle(w.content, SockQueue(SockOf(w.facts, h))) && At(w.content, ReadHand(h)) != []
    requires At(w.content, ReadHand(h))[0].Framed? && At(w.content, ReadHand(h))[0].frame.Data?
    ensures Drained(w, w', c, h, 5)
  {
    hide Next, Stretch, LinkFits, Drained, At, Shift, Labelled, SockOf, Idle;
    var t, b := At(w.content, ReadHand(h))[0], SockQueue(SockOf(w.facts, h));
    ForwardIsEnabled(w, h);
    StretchKinds(w.facts, c, h);
    w' := Moves(w, c, h, 5, Forward(h), b, Labelled(w.facts, h, t.frame));
  }

  lemma ForwardIsEnabled(w: World, h: Half)
    requires h in w.facts.halves && Idle(w.content, SockQueue(SockOf(w.facts, h))) && At(w.content, ReadHand(h)) != []
    requires At(w.content, ReadHand(h))[0].Framed? && At(w.content, ReadHand(h))[0].frame.Data?
    ensures var t, b := At(w.content, ReadHand(h))[0], SockQueue(SockOf(w.facts, h));
            Next(w, Forward(h)) == Some(w.(content := Shift(w.content, ReadHand(h), b, Labelled(w.facts, h, t.frame))))
  {
    hide Shift, Labelled;
  }

  /** Answering needs room in the other direction's sink; its write task can always make it. */
  lemma AnswerPing(w: World, c: Client, h: Half) returns (w': World)
    requires Inv(w) && c in w.facts.clients && h in w.facts.halves && LinkFits(w.content, h)
    requires At(w.content, ReadHand(h)) != [] && At(w.content, ReadHand(h))[0] == Framed(h, Ping)
    ensures Drained(w, w', c, h, 5)
  {
    hide Inv, LinkFits, Next, Drained, Stretch, At, Room, Leads;
    var back := w.facts.halves[h].back;
    BackIsAnother(w, h);
    var w1 := SinkRoom(w, back);
    StretchKinds(w.facts, c, h);
    ElsewhereKeepsFits(w.content, w1.content, h);
    var w2 := AnswerNow(w1, c, h);
    AfterAside(w, w1, w2, c, h, 5);
    w' := w2;
  }

  lemma BackIsAnother(w: World, h: Half)
    requires Inv(w) && h in w.facts.halves
    ensures w.facts.halves[h].back in w.facts.halves && w.facts.halves[h].back != h
  {
    assert Linked(w.facts);
  }

  lemma AnswerNow(w: World, c: Client, h: Half) returns (w': World)
    requires c in w.facts.clients && h in w.facts.halves && LinkFits(w.content, h)
    requires At(w.content, ReadHand(h)) != [] && At(w.content, ReadHand(h))[0] == Framed(h, Ping)
    requires var back := w.facts.halves[h].back; back in w.facts.halves && back != h && Room(w.content, Sink(back))
    ensures Drained(w, w', c, h, 5)
  {
    hide Stretch, LinkFits, Drained, At, DoAnswer, Next, Room;
    AfterAnswer(w, h);
    StretchKinds(w.facts, c, h);
    w' := DoAnswer(w, h).value;
    ElsewhereKeepsFits(w.content, w'.content, h);
    ByStep(w, Answer(h), w', c, h, 5);
  }

  lemma AfterAnswer(w: World, h: Half)
    requires h in w.facts.halves && At(w.content, ReadHand(h)) != [] && At(w.content, ReadHand(h))[0] == Framed(h, Ping)
    requires var back := w.facts.halves[h].back; back in w.facts.halves && back != h && Room(w.content, Sink(back))
    ensures DoAnswer(w, h).Some? && Next(w, Answer(h)) == DoAnswer(w, h)
    ensures var w', back := DoAnswer(w, h).value, w.facts.halves[h].back;
            && w'.facts == w.facts && SameSetting(w, w')
            && At(w'.content, ReadHand(h)) == At(w.content, ReadHand(h))[1..]
            && forall p :: p != ReadHand(h) && p != Answered(h) && p != Sink(back) && p != Entered(back) ==>
                 At(w'.content, p) == At(w.content, p)
  {
  }

  /** The write task of a direction makes room in its sink. */
  lemma SinkRoom(w: World, g: Half) returns (w': World)
    requires Inv(w) && g in w.facts.halves
    ensures Leads(w, w') && SameSetting(w, w') && w'.facts == w.facts && Room(w'.content, Sink(g))
    ensures forall p :: p != Sink(g) && p != WriteHand(g) && p != Wire(g) ==> At(w'.content, p) == At(w.content, p)
  {
    assert Bounded(w.content);
    if Room(w.content, Sink(g)) {
      Stay(w);
      w' := w;
    } else {
      assert |At(w.content, Sink(g))| == 10;
      hide Inv, Next, Leads, At, Bounded;
      var w1 := FreeWriteHand(w, g);
      w' := TakeFromSink(w1, g);
      LeadsOn(w, w1, w');
    }
  }

  lemma FreeWriteHand(w: World, g: Half) returns (w': World)
    requires Inv(w)
    ensures Leads(w, w') && SameSetting(w, w') && w'.facts == w.facts && At(w'.content, WriteHand(g)) == []
    ensures forall p :: p != WriteHand(g) && p != Wire(g) ==> At(w'.content, p) == At(w.content, p)
  {
    assert Bounded(w.content) && |At(w.content, WriteHand(g))| <= 1;
    if At(w.content, WriteHand(g)) == [] {
      Stay(w);
      w' := w;
    } else {
      WriteIsEnabled(w, g);
      hide Inv, DoWriteFrame, Next, Leads, Bounded;
      OneStepLeads(w, WriteFrame(g));
      w' := DoWriteFrame(w, g).value;
    }
  }

  lemma TakeFromSink(w: World, g: Half) returns (w': World)
    requires |At(w.content, Sink(g))| == 10 && At(w.content, WriteHand(g)) == []
    ensures Leads(w, w') && SameSetting(w, w') && w'.facts == w.facts && Room(w'.content, Sink(g))
    ensures forall p :: p != Sink(g) && p != WriteHand(g) ==> At(w'.content, p) == At(w.content, p)
  {
    OneStepLeads(w, TakeSink(g));
    w' := Next(w, TakeSink(g)).value;
    hide Leads, Next;
  }

  // ---------------------------------------------------------------- emptying the stretch

  /** From any stage, when everything farther on is idle. */
  lemma TakeOne(w: World, c: Client, h: Half, k: nat) returns (w': World)
    requires Inv(w) && c in w.facts.clients && h in w.facts.halves && LinkFits(w.content, h) && k < 12
    requires IdleUpTo(w, Stretch(w.facts, c, h), k) && At(w.content, Stretch(w.facts, c, h)[k]) != []
    ensures Drained(w, w', c, h, k)
  {
    var path := Stretch(w.facts, c, h);
    assert k > 0 ==> Idle(w.content, path[k - 1]);
    hide Inv, LinkFits, Drained, At, Idle;
    match k
    case 0 => w' := FromChosen(w, c, h);
    case 1 => w' := FromNetHand(w, c, h);
    case 2 => w' := FromUpstream(w, c, h);
    case 3 => w' := FromSockHand(w, c, h);
    case 4 => w' := FromSocket(w, c, h);
    case 5 => w' := FromReadHand(w, c, h);
    case 6 => w' := FromWire(w, c, h);
    case 7 => w' := FromWriteHand(w, c, h);
    case 8 => w' := FromSink(w, c, h);
    case _ => w' := FromUnix(w, c, h, k);
  }

  /** All that a run on the stretch may be relied on to keep. */
  ghost predicate Cleared(w: World, w': World, c: Client, h: Half, k: nat)
    requires c in w.facts.clients && h in w.facts.halves
  {
    var path := Stretch(w.facts, c, h);
    && Leads(w, w') && SameSetting(w, w') && Inv(w') && LinkFits(w'.content, h)
    && IdleUpTo(w', path, k) && forall i | k <= i < 12 :: At(w'.content, path[i]) == At(w.content, path[i])
  }

  lemma {:induction false} Clear(w: World, c: Client, h: Half, k: nat) returns (w': World)
    requires Inv(w) && c in w.facts.clients && h in w.facts.halves && LinkFits(w.content, h) && k <= 12
    ensures Cleared(w, w', c, h, k)
    decreases k, if k == 0 then 0 else |At(w.content, Stretch(w.facts, c, h)[k - 1])|
  {
    hide Inv, LinkFits, Leads, At, Stretch;
    if k == 0 {
      Stay(w);
      w' := w;
    } else {
      var path := Stretch(w.facts, c, h);
      var w1 := Clear(w, c, h, k - 1);
      SameStretch(w, w1, c, h);
      if At(w1.content, path[k - 1]) == [] {
        StageIsIdle(w1.content, path[k - 1]);
        w' := w1;
      } else {
        var w2 := TakeOne(w1, c, h, k - 1);
        SameStretch(w1, w2, c, h);
        LeadsInv(w1, w2);
        w' := Clear(w2, c, h, k);
        LeadsOn(w, w1, w2);
        LeadsOn(w, w2, w');
      }
    }
  }

  lemma StageIsIdle(c: Content, p: Place)
    requires At(c, p) == []
    ensures Idle(c, p)
  {
  }

  /** A client that keeps taking empties its queue. */
  lemma {:induction false} EmptyQueue(w: World, d: Client) returns (w': World)
    ensures Leads(w, w') && SameSetting(w, w') && w'.facts == w.facts
    ensures w'.streams == w.streams && Idle(w'.content, ClientQueue(d))
    ensures forall p :: p != ClientQueue(d) && p != Received(d) ==> At(w'.content, p) == At(w.content, p)
    decreases |At(w.content, ClientQueue(d))|
  {
    if At(w.content, ClientQueue(d)) == [] {
      Stay(w);
      w' := w;
    } else {
      hide Leads, At;
      var w1 := AfterReceive(w, d);
      w' := EmptyQueue(w1, d);
      LeadsOn(w, w1, w');
    }
  }

  lemma NothingAhead(w: World, h: Half)
    requires Inv(w) && LinkFits(w.content, h) && Idle(w.content, Wire(h))
    ensures StreamOf(w, h) == Stream([], [])
  {
    assert InStep(w, h) && NoneCut(w.content, h);
    hide Inv;
    StreamInStep(w, h);
    assert StreamOf(w, h).buffer + StreamOf(w, h).unread == [];
  }

  /**
   Nobody can be shut out: from every reachable state in which no payload too long is on the
   connection or was read there, whatever fills the queues, there is a run after which the
   client bound to the addressed port has got this packet, under the sender's host and port.
   */
  lemma PacketCanAlwaysArrive(w: World, c: Client, h: Half, toPort: u16, data: seq<u8>, d: Client) returns (w': World)
    requires Reachable(w) && c in w.facts.clients && h in w.facts.halves
    requires w.facts.halves[h].origin == w.facts.clients[c].host && LinkFits(w.content, h)
    requires (w.facts.halves[h].target, toPort) in w.table && w.table[(w.facts.halves[h].target, toPort)] == d
    requires d !in w.closed && |data| < 0x1_0000 && !(w.facts.clients[c].port == 0 && toPort == 0)
    ensures Leads(w, w') && At(w'.content, Received(d)) != []
    ensures At(w'.content, Received(d))[|At(w'.content, Received(d))| - 1]
            == Local(h, w.facts.clients[c].host, w.facts.clients[c].port, data)
  {
    ReachableInv(w);
    hide Inv, Reachable, LinkFits, Leads, At, StreamOf;
    var w1 := Clear(w, c, h, 12);
    var w2 := EmptyQueue(w1, d);
    WayIsIdle(w, w1, w2, c, h, d);
    var w3 := PacketArrives(w2, c, h, toPort, data, d);
    LeadsOn(w, w1, w2);
    LeadsOn(w, w2, w3);
    w' := w3;
  }

  lemma WayIsIdle(w: World, w1: World, w2: World, c: Client, h: Half, d: Client)
    requires c in w.facts.clients && h in w.facts.halves && Cleared(w, w1, c, h, 12)
    requires SameSetting(w1, w2) && w2.facts == w1.facts && w2.streams == w1.streams && Idle(w2.content, ClientQueue(d))
    requires forall p :: p != ClientQueue(d) && p != Received(d) ==> At(w2.content, p) == At(w1.content, p)
    ensures c in w2.facts.clients && h in w2.facts.halves && IdlePath(w2, c, h, d)
  {
    hide Inv, LinkFits, Leads, At, StreamOf, Stretch, Idle, SameSetting;
    SameStretch(w, w1, c, h);
    SameStretch(w1, w2, c, h);
    StretchKinds(w1.facts, c, h);
    StaysIdleOn(w1, w2, Stretch(w1.facts, c, h), d);
    assert Idle(w1.content, Stretch(w1.facts, c, h)[6]);
    NothingAhead(w1, h);
    SameStream(w1, w2, h);
    IdleStretchIsIdlePath(w2, c, h, d);
  }

  lemma StaysIdleOn(w: World, w': World, path: seq<Place>, d: Client)
    requires forall i | 0 <= i < |path| :: Idle(w.content, path[i])
    requires ClientQueue(d) !in path && Received(d) !in path
    requires forall p :: p != ClientQueue(d) && p != Received(d) ==> At(w'.content, p) == At(w.content, p)
    ensures forall i | 0 <= i < |path| :: Idle(w'.content, path[i])
  {
    hide At;
    forall i | 0 <= i < |path|
      ensures Idle(w'.content, path[i])
    {
      assert path[i] in path && Idle(w.content, path[i]);
      StaysIdle(w.content, w'.content, path[i]);
    }
  }

  lemma SameStream(w: World, w': World, h: Half)
    requires w'.streams == w.streams
    ensures StreamOf(w', h) == StreamOf(w, h)
  {
  }

  lemma IdleStretchIsIdlePath(w: World, c: Client, h: Half, d: Client)
    requires c in w.facts.clients && h in w.facts.halves && StreamOf(w, h) == Stream([], [])
    requires (forall i | 0 <= i < 12 :: Idle(w.content, Stretch(w.facts, c, h)[i])) && Idle(w.content, ClientQueue(d))
    ensures IdlePath(w, c, h, d)
  {
    hide Idle, StreamOf;
    var path := Stretch(w.facts, c, h);
    assert Idle(w.content, path[0]) && Idle(w.content, path[1]) && Idle(w.content, path[2]) && Idle(w.content, path[3]);
    assert Idle(w.content, path[4]) && Idle(w.content, path[5]) && Idle(w.content, path[6]) && Idle(w.content, path[7]);
    assert Idle(w.content, path[8]) && Idle(w.content, path[9]);
    assert Idle(w.content, path[10]) && Idle(w.content, path[11]);
  }
}
