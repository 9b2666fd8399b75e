/**
 The read loop's timeout against the peer's pings. Each turn of the loop re-arms a timeout of
 20 s and waits for a frame; handling a frame may take any time. Times are in milliseconds.
 */
module Keepalive {
  type Time = int

  const TIMEOUT: Time := 20_000

  /** When the pings get to the reader: the k-th arrives at `schedule(k)`. */
  type Schedule = nat -> Time

  datatype Reader =
    | Waiting(armed: Time)
    | Busy
    | TimedOut(at: Time)

  /** The clock, the reader, how many frames wait for it, and how many pings have arrived. */
  datatype State = State(clock: Time, reader: Reader, inbox: nat, arrived: nat)

  function Start(now: Time): State {
    State(now, Waiting(now), 0, 0)
  }

  datatype Action =
    | Tick(to: Time)     // time passes
    | Ping               // the next ping arrives
    | Other              // any other frame arrives
    | Take               // the waiting reader gets a frame
    | Rearm              // the reader is done with it and starts the next turn
    | Expire             // the timeout branch

  /** A waiting reader with a frame, or past its timeout, is scheduled before time goes on. */
  predicate MayTick(schedule: Schedule, s: State, to: Time) {
    && s.clock <= to <= schedule(s.arrived)
    && match s.reader
       case Waiting(armed) => s.inbox == 0 && to <= armed + TIMEOUT
       case _ => true
  }

  predicate Enabled(schedule: Schedule, s: State, a: Action) {
    match a
    case Tick(to) => MayTick(schedule, s, to)
    case Ping => s.clock == schedule(s.arrived)
    case Other => true
    case Take => s.reader.Waiting? && s.inbox > 0
    case Rearm => s.reader.Busy?
    case Expire => s.reader.Waiting? && s.clock >= s.reader.armed + TIMEOUT
  }

  function Next(s: State, a: Action): State
    requires a.Take? ==> s.inbox > 0
  {
    match a
    case Tick(to) => s.(clock := to)
    case Ping => s.(inbox := s.inbox + 1, arrived := s.arrived + 1)
    case Other => s.(inbox := s.inbox + 1)
    case Take => s.(reader := Busy, inbox := s.inbox - 1)
    case Rearm => s.(reader := Waiting(s.clock))
    case Expire => s.(reader := TimedOut(s.clock))
  }

  ghost predicate Runs(schedule: Schedule, s: State, actions: seq<Action>, end: State)
    decreases |actions|
  {
    if actions == [] then s == end
    else Enabled(schedule, s, actions[0]) && Runs(schedule, Next(s, actions[0]), actions[1..], end)
  }

  /** Pings come one after another, the first not before the reader starts. */
  ghost predicate Ordered(schedule: Schedule, start: Time) {
    start <= schedule(0) && forall k: nat :: schedule(k) <= schedule(k + 1)
  }

  /** Time from the reader's start, or from the ping before, to the k-th ping. */
  function Gap(schedule: Schedule, start: Time, k: nat): Time {
    if k == 0 then schedule(0) - start else schedule(k) - schedule(k - 1)
  }

  ghost predicate GapsBelowTimeout(schedule: Schedule, start: Time) {
    forall k: nat :: Gap(schedule, start, k) < TIMEOUT
  }

  // ---------------------------------------------------------------- frames

  function Count(actions: seq<Action>, a: Action): nat {
    if actions == [] then 0 else (if actions[0] == a then 1 else 0) + Count(actions[1..], a)
  }

  /** Every frame that arrived has been taken, one at a time, or waits; the pings are those that arrived. */
  lemma {:induction false} FramesAreTaken(schedule: Schedule, s: State, actions: seq<Action>, end: State)
    requires Runs(schedule, s, actions, end)
    ensures end.inbox + Count(actions, Take) == s.inbox + Count(actions, Ping) + Count(actions, Other)
    ensures end.arrived == s.arrived + Count(actions, Ping)
    decreases |actions|
  {
    if actions != [] {
      FramesAreTaken(schedule, Next(s, actions[0]), actions[1..], end);
    }
  }

  // ---------------------------------------------------------------- no timeout

  function Previous(schedule: Schedule, start: Time, k: nat): Time {
    if k == 0 then start else schedule(k - 1)
  }

  ghost predicate Inv(schedule: Schedule, start: Time, s: State) {
    && Previous(schedule, start, s.arrived) <= s.clock <= schedule(s.arrived)
    && match s.reader
       case Waiting(armed) =>
         armed <= s.clock && if s.inbox == 0 then schedule(s.arrived) < armed + TIMEOUT else s.clock < armed + TIMEOUT
       case Busy => true
       case TimedOut(_) => false
  }

  lemma StepKeepsInv(schedule: Schedule, start: Time, s: State, a: Action)
    requires Ordered(schedule, start) && GapsBelowTimeout(schedule, start)
    requires Inv(schedule, start, s) && Enabled(schedule, s, a)
    ensures Inv(schedule, start, Next(s, a))
  {
    assert Gap(schedule, start, s.arrived) < TIMEOUT;
    assert schedule(s.arrived) <= schedule(s.arrived + 1);
  }

  lemma {:induction false} NoTimeout(schedule: Schedule, start: Time, s: State, actions: seq<Action>, end: State)
    requires Ordered(schedule, start) && GapsBelowTimeout(schedule, start)
    requires Inv(schedule, start, s) && Runs(schedule, s, actions, end)
    ensures !end.reader.TimedOut?
    decreases |actions|
  {
    if actions != [] {
      StepKeepsInv(schedule, start, s, actions[0]);
      hide Inv, Enabled, Next, GapsBelowTimeout, Ordered;
      NoTimeout(schedule, start, Next(s, actions[0]), actions[1..], end);
    }
  }

  // ---------------------------------------------------------------- a timeout, if a gap is too long

  lemma {:induction false} RunsConcat(schedule: Schedule, s: State,
                                      first: seq<Action>, mid: State, second: seq<Action>, end: State)
    requires Runs(schedule, s, first, mid) && Runs(schedule, mid, second, end)
    ensures Runs(schedule, s, first + second, end)
    decreases |first|
  {
    if first == [] {
      assert first + second == second;
    } else {
      assert (first + second)[1..] == first[1..] + second;
      RunsConcat(schedule, Next(s, first[0]), first[1..], mid, second, end);
    }
  }

  lemma OneStep(schedule: Schedule, s: State, a: Action)
    requires Enabled(schedule, s, a)
    ensures Runs(schedule, s, [a], Next(s, a))
  {
    assert [a][1..] == [];
    assert Runs(schedule, Next(s, a), [], Next(s, a));
  }

  lemma OnceMore(schedule: Schedule, s: State, actions: seq<Action>, mid: State, a: Action) returns (more: seq<Action>)
    requires Runs(schedule, s, actions, mid) && Enabled(schedule, mid, a)
    ensures Runs(schedule, s, more, Next(mid, a))
  {
    OneStep(schedule, mid, a);
    more := actions + [a];
    RunsConcat(schedule, s, actions, mid, [a], Next(mid, a));
  }

  /**
   While the gaps stay short, a reader that handles every ping at once is waiting, freshly armed,
   after each of them.
   */
  lemma {:induction false} Prompt(schedule: Schedule, start: Time, k: nat) returns (actions: seq<Action>)
    requires Ordered(schedule, start) && forall j: nat | j < k :: Gap(schedule, start, j) < TIMEOUT
    ensures var now := Previous(schedule, start, k);
            Runs(schedule, Start(start), actions, State(now, Waiting(now), 0, k))
    decreases k
  {
    if k == 0 {
      actions := [];
    } else {
      actions := Prompt(schedule, start, k - 1);
      var before, now := Previous(schedule, start, k - 1), schedule(k - 1);
      assert Gap(schedule, start, k - 1) < TIMEOUT && before <= now by {
        assert k > 1 ==> schedule(k - 2) <= schedule(k - 2 + 1);
      }
      assert schedule(k - 1) <= schedule(k - 1 + 1);
      actions := OnceMore(schedule, Start(start), actions, State(before, Waiting(before), 0, k - 1), Tick(now));
      actions := OnceMore(schedule, Start(start), actions, State(now, Waiting(before), 0, k - 1), Ping);
      actions := OnceMore(schedule, Start(start), actions, State(now, Waiting(before), 1, k), Take);
      actions := OnceMore(schedule, Start(start), actions, State(now, Busy, 0, k), Rearm);
    }
  }

  /** The first gap of 20 s or more lets the reader time out, 20 s after it was last armed. */
  lemma LongGapTimesOut(schedule: Schedule, start: Time, k: nat) returns (actions: seq<Action>)
    requires Ordered(schedule, start) && (forall j: nat | j < k :: Gap(schedule, start, j) < TIMEOUT)
    requires Gap(schedule, start, k) >= TIMEOUT
    ensures var at := Previous(schedule, start, k) + TIMEOUT;
            Runs(schedule, Start(start), actions, State(at, TimedOut(at), 0, k))
  {
    actions := Prompt(schedule, start, k);
    var armed := Previous(schedule, start, k);
    actions := OnceMore(schedule, Start(start), actions, State(armed, Waiting(armed), 0, k), Tick(armed + TIMEOUT));
    actions := OnceMore(schedule, Start(start), actions, State(armed + TIMEOUT, Waiting(armed), 0, k), Expire);
  }

  lemma {:induction false} FirstLongGap(schedule: Schedule, start: Time, k: nat) returns (first: nat)
    requires Gap(schedule, start, k) >= TIMEOUT
    ensures first <= k && Gap(schedule, start, first) >= TIMEOUT
    ensures forall j: nat | j < first :: Gap(schedule, start, j) < TIMEOUT
  {
    first := 0;
    while Gap(schedule, start, first) < TIMEOUT
      invariant first <= k && forall j: nat | j < first :: Gap(schedule, start, j) < TIMEOUT
      decreases k - first
    {
      first := first + 1;
    }
  }

  ghost predicate CanTimeOut(schedule: Schedule, start: Time) {
    exists actions, end :: Runs(schedule, Start(start), actions, end) && end.reader.TimedOut?
  }

  /**
   Whatever other frames arrive and however long handling takes, the read loop can time out
   exactly when some gap between pings, or before the first, is 20 s or more.
   */
  lemma TimesOutIffLongGap(schedule: Schedule, start: Time)
    requires Ordered(schedule, start)
    ensures CanTimeOut(schedule, start) <==> exists k: nat :: Gap(schedule, start, k) >= 20_000
  {
    if GapsBelowTimeout(schedule, start) {
      forall actions, end | Runs(schedule, Start(start), actions, end)
        ensures !end.reader.TimedOut?
      {
        assert Gap(schedule, start, 0) < TIMEOUT;
        NoTimeout(schedule, start, Start(start), actions, end);
      }
    } else {
      var k: nat :| Gap(schedule, start, k) >= TIMEOUT;
      var first := FirstLongGap(schedule, start, k);
      var actions := LongGapTimesOut(schedule, start, first);
    }
  }

  // ---------------------------------------------------------------- the peer's ping task

  /** Pings leave every 15 s from `begin`, and each takes less than 5 s to arrive. */
  ghost predicate Delivered(schedule: Schedule, begin: Time) {
    forall k: nat :: begin + k * 15_000 <= schedule(k) < begin + k * 15_000 + 5_000
  }

  /**
   A ping task whose pings all arrive within 5 s, the first within 20 s of the reader's start,
   keeps the connection alive for ever.
   */
  lemma TimelyPingsKeepAlive(schedule: Schedule, start: Time, begin: Time)
    requires Delivered(schedule, begin) && start <= schedule(0) < start + 20_000
    ensures Ordered(schedule, start) && !CanTimeOut(schedule, start)
  {
    forall k: nat
      ensures schedule(k) <= schedule(k + 1) < schedule(k) + TIMEOUT
    {
      assert (k + 1) * 15_000 == k * 15_000 + 15_000;
    }
    forall k: nat
      ensures Gap(schedule, start, k) < TIMEOUT
    {
      assert k > 0 ==> schedule(k - 1) <= schedule(k - 1 + 1) < schedule(k - 1) + TIMEOUT;
    }
    TimesOutIffLongGap(schedule, start);
  }

  /** Five seconds is the limit: pings that each take up to exactly 5 s can let the connection time out. */
  lemma FiveSecondsAreTooMany(begin: Time) returns (schedule: Schedule)
    ensures forall k: nat :: begin + k * 15_000 <= schedule(k) <= begin + k * 15_000 + 5_000
    ensures Ordered(schedule, begin) && CanTimeOut(schedule, begin)
  {
    schedule := k => if k == 0 then begin else begin + k * 15_000 + 5_000;
    assert Gap(schedule, begin, 1) == TIMEOUT;
    forall k: nat
      ensures schedule(k) <= schedule(k + 1)
    {
      assert (k + 1) * 15_000 == k * 15_000 + 15_000;
    }
    TimesOutIffLongGap(schedule, begin);
  }

  /** Neither can time go on nor can the reader give up. */
  ghost predicate Stuck(schedule: Schedule, s: State) {
    !Enabled(schedule, s, Expire) && forall to | to > s.clock :: !Enabled(schedule, s, Tick(to))
  }

  /** Nothing arrives before the timeout of a waiting reader. */
  ghost predicate Silent(schedule: Schedule, s: State, armed: Time) {
    s.reader == Waiting(armed) && s.inbox == 0 && s.clock <= armed + TIMEOUT <= schedule(s.arrived)
  }

  ghost predicate CanEndAt(schedule: Schedule, s: State, at: Time) {
    exists actions :: Runs(schedule, s, actions, s.(clock := at, reader := TimedOut(at)))
  }

  /** In silence a waiting reader ends exactly 20 s after it was last armed, and not otherwise. */
  lemma {:induction false} SilenceEndsNoOtherWay(schedule: Schedule,
                                                 s: State, armed: Time, actions: seq<Action>, end: State)
    requires Silent(schedule, s, armed) && Runs(schedule, s, actions, end)
    requires forall a | a in actions :: !a.Ping? && !a.Other?
    ensures Silent(schedule, end, armed) || end.reader == TimedOut(armed + TIMEOUT)
    decreases |actions|
  {
    if actions != [] {
      assert actions[0] in actions && forall a | a in actions[1..] :: a in actions;
      var next := Next(s, actions[0]);
      if next.reader.TimedOut? {
        EndedStaysEnded(schedule, next, actions[1..], end);
      } else {
        SilenceEndsNoOtherWay(schedule, next, armed, actions[1..], end);
      }
    }
  }

  /** As long as it has not ended, it can: let the time pass and take the timeout branch. */
  lemma SilenceCanEnd(schedule: Schedule, s: State, armed: Time) returns (actions: seq<Action>)
    requires Silent(schedule, s, armed)
    ensures Runs(schedule, s, actions, s.(clock := armed + TIMEOUT, reader := TimedOut(armed + TIMEOUT)))
  {
    var late := s.(clock := armed + TIMEOUT);
    OneStep(schedule, s, Tick(armed + TIMEOUT));
    actions := OnceMore(schedule, s, [Tick(armed + TIMEOUT)], late, Expire);
  }

  /**
   Once nothing arrives any more, the loop ends, and exactly 20 s after it was last armed: from
   wherever a run has got to it can still time out then, no run ends it in any other way, and
   a run that can go no further has timed out.
   */
  lemma SilenceEndsTheLoop(schedule: Schedule, s: State, armed: Time, actions: seq<Action>, end: State)
    requires Silent(schedule, s, armed) && Runs(schedule, s, actions, end)
    requires forall a | a in actions :: !a.Ping? && !a.Other?
    ensures Stuck(schedule, end) ==> end.reader == TimedOut(armed + 20_000)
    ensures end.reader == TimedOut(armed + 20_000) || CanEndAt(schedule, end, armed + 20_000)
  {
    SilenceEndsNoOtherWay(schedule, s, armed, actions, end);
    if Silent(schedule, end, armed) {
      var more := SilenceCanEnd(schedule, end, armed);
      assert Enabled(schedule, end, if end.clock < armed + TIMEOUT then Tick(armed + TIMEOUT) else Expire);
      assert !Stuck(schedule, end);
    }
  }

  lemma {:induction false} EndedStaysEnded(schedule: Schedule, s: State, actions: seq<Action>, end: State)
    requires s.reader.TimedOut? && Runs(schedule, s, actions, end)
    ensures end.reader == s.reader
    decreases |actions|
  {
    if actions != [] {
      EndedStaysEnded(schedule, Next(s, actions[0]), actions[1..], end);
    }
  }
}
