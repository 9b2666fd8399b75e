/**
 The rate limiter in front of network-change events. A poll outside the window restarts the
 window and passes on one event if one is ready; a poll inside it throws away all that are.
 Times are clock readings of one monotone clock; a poll reads it twice.
 */
module Debounce {
  import opened Bytes

  type Item = nat
  type Time = int

  /** The answer of one poll. */
  datatype Polled = Ready(item: Item) | Finished | Pending

  /** The events waiting in the inner stream, and whether it will say it is finished after them. */
  datatype Inner = Inner(ready: seq<Item>, ended: bool)

  function PollInner(inner: Inner): (Polled, Inner) {
    if inner.ready != [] then (Ready(inner.ready[0]), inner.(ready := inner.ready[1..]))
    else (if inner.ended then Finished else Pending, inner)
  }

  datatype Emission = Emission(item: Item, started: Time, stamped: Time)

  /** One event taken from the inner stream: passed on or thrown away. */
  datatype Taken = Taken(item: Item, passedOn: bool)

  datatype State = State(
    window: nat,
    created: Time,
    last: Time,
    inner: Inner,
    clock: Time,
    arrived: seq<Item>,
    taken: seq<Taken>,
    emissions: seq<Emission>)

  function Start(window: nat, now: Time): State {
    State(window, now, now, Inner([], false), now, [], [], [])
  }

  datatype Event =
    | Arrive(item: Item)
    | Finish
    | Poll(first: Time, second: Time)

  function ThrownAway(items: seq<Item>): seq<Taken> {
    seq(|items|, i requires 0 <= i < |items| => Taken(items[i], false))
  }

  /**
   What a poll answers and leaves, when it returns at all: inside the window it never does once the
   inner stream has ended.
   */
  function DoPoll(s: State, first: Time, second: Time): Option<(Polled, State)> {
    var now := s.(clock := second);
    if first - s.last > s.window then
      var (polled, inner) := PollInner(s.inner);
      var next := now.(last := second, inner := inner);
      if polled.Ready? then
        Some((polled, next.(taken := s.taken + [Taken(polled.item, true)],
                            emissions := s.emissions + [Emission(polled.item, first, second)])))
      else Some((polled, next))
    else if s.inner.ended then None
    else Some((Pending, now.(inner := s.inner.(ready := []), taken := s.taken + ThrownAway(s.inner.ready))))
  }

  function Next(s: State, e: Event): Option<State> {
    match e
    case Arrive(item) =>
      if s.inner.ended then None
      else Some(s.(inner := s.inner.(ready := s.inner.ready + [item]), arrived := s.arrived + [item]))
    case Finish => Some(s.(inner := s.inner.(ended := true)))
    case Poll(first, second) =>
      if !(s.clock <= first <= second) then None
      else
        var r := DoPoll(s, first, second);
        if r.Some? then Some(r.value.1) else None
  }

  function Run(s: State, events: seq<Event>): Option<State>
    decreases |events|
  {
    if events == [] then Some(s)
    else
      var next := Next(s, events[0]);
      if next.None? then None else Run(next.value, events[1..])
  }

  // ---------------------------------------------------------------- rate

  ghost predicate SpacedOut(s: State) {
    && s.created <= s.last <= s.clock
    && (forall i | 0 <= i < |s.emissions| :: s.emissions[i].started <= s.emissions[i].stamped <= s.last)
    && (forall i | 0 <= i < |s.emissions| :: s.emissions[i].started - s.created > s.window)
    && (forall i, j | 0 <= i < j < |s.emissions| :: s.emissions[j].started - s.emissions[i].stamped > s.window)
  }

  /** Emissions do not outrun the clock. */
  ghost predicate Slow(s: State) {
    s.emissions != [] ==> s.created + |s.emissions| * s.window < s.emissions[|s.emissions| - 1].stamped
  }

  lemma Distribute(n: nat, w: nat)
    ensures (n + 1) * w == n * w + w
  {
  }

  lemma StepKeepsRate(s: State, e: Event)
    requires SpacedOut(s) && Slow(s) && Next(s, e).Some?
    ensures SpacedOut(Next(s, e).value) && Slow(Next(s, e).value)
    ensures Next(s, e).value.window == s.window && Next(s, e).value.created == s.created
  {
    if e.Poll? && e.first - s.last > s.window && s.inner.ready != [] {
      EmissionKeepsRate(s, e.first, e.second);
    }
  }

  /** One more emission, a window after the last poll that reset it. */
  lemma EmissionKeepsRate(s: State, first: Time, second: Time)
    requires SpacedOut(s) && Slow(s) && s.clock <= first <= second && first - s.last > s.window
    ensures forall item, inner, taken ::
              var s' := s.(clock := second, last := second, inner := inner, taken := taken,
                           emissions := s.emissions + [Emission(item, first, second)]);
              SpacedOut(s') && Slow(s')
  {
    Distribute(|s.emissions|, s.window);
  }

  lemma {:induction false} RunKeepsRate(s: State, events: seq<Event>)
    requires SpacedOut(s) && Slow(s) && Run(s, events).Some?
    ensures var s' := Run(s, events).value;
            SpacedOut(s') && Slow(s') && s'.window == s.window && s'.created == s.created
    decreases |events|
  {
    hide Next, SpacedOut, Slow;
    if events != [] {
      StepKeepsRate(s, events[0]);
      RunKeepsRate(Next(s, events[0]).value, events[1..]);
    }
  }

  /**
   Over any run, N >= 1 emissions take more than N windows since the stream was made, and
   between the end of one emission's poll and the start of any later one's more than a window passes.
   */
  lemma EmissionsAreRateLimited(window: nat, now: Time, events: seq<Event>)
    requires Run(Start(window, now), events).Some?
    ensures var s := Run(Start(window, now), events).value;
            && (s.emissions != [] ==> |s.emissions| * window < s.clock - now)
            && forall i, j | 0 <= i < j < |s.emissions| :: s.emissions[j].started - s.emissions[i].stamped > window
  {
    RunKeepsRate(Start(window, now), events);
  }

  // ---------------------------------------------------------------- conservation

  function Items(taken: seq<Taken>): seq<Item> {
    seq(|taken|, i requires 0 <= i < |taken| => taken[i].item)
  }

  function PassedOn(taken: seq<Taken>): seq<Item> {
    if taken == [] then []
    else
      var last := taken[|taken| - 1];
      PassedOn(taken[..|taken| - 1]) + (if last.passedOn then [last.item] else [])
  }

  function Emitted(emissions: seq<Emission>): seq<Item> {
    seq(|emissions|, i requires 0 <= i < |emissions| => emissions[i].item)
  }

  /** Everything that arrived was taken, in order, or is still waiting; the output is what was passed on. */
  ghost predicate Conserved(s: State) {
    s.arrived == Items(s.taken) + s.inner.ready && Emitted(s.emissions) == PassedOn(s.taken)
  }

  lemma {:induction false} ThrowingAwayPassesNothing(taken: seq<Taken>, items: seq<Item>)
    ensures PassedOn(taken + ThrownAway(items)) == PassedOn(taken)
    ensures Items(taken + ThrownAway(items)) == Items(taken) + items
    decreases |items|
  {
    if items == [] {
      assert taken + ThrownAway(items) == taken;
    } else {
      var all, most := taken + ThrownAway(items), items[..|items| - 1];
      assert all[..|all| - 1] == taken + ThrownAway(most);
      ThrowingAwayPassesNothing(taken, most);
    }
  }

  lemma PassingOn(taken: seq<Taken>, item: Item)
    ensures PassedOn(taken + [Taken(item, true)]) == PassedOn(taken) + [item]
    ensures Items(taken + [Taken(item, true)]) == Items(taken) + [item]
  {
    assert (taken + [Taken(item, true)])[..|taken|] == taken;
  }

  lemma EmittedAppend(emissions: seq<Emission>, e: Emission)
    ensures Emitted(emissions + [e]) == Emitted(emissions) + [e.item]
  {
  }

  /** A poll passes on the oldest waiting event, or throws all of them away. */
  lemma PollConserves(s: State, first: Time, second: Time)
    requires Conserved(s) && DoPoll(s, first, second).Some?
    ensures Conserved(DoPoll(s, first, second).value.1)
  {
    var ready := s.inner.ready;
    hide PassedOn, Items, ThrownAway;
    if first - s.last > s.window {
      if ready != [] {
        PassingOn(s.taken, ready[0]);
        EmittedAppend(s.emissions, Emission(ready[0], first, second));
        hide Emitted;
        assert ready == [ready[0]] + ready[1..];
        Associate(Items(s.taken), [ready[0]], ready[1..]);
      }
    } else {
      ThrowingAwayPassesNothing(s.taken, ready);
      hide Emitted;
    }
  }

  lemma StepConserves(s: State, e: Event)
    requires Conserved(s) && Next(s, e).Some?
    ensures Conserved(Next(s, e).value)
  {
    hide PassedOn, Items, Emitted, DoPoll;
    match e
    case Arrive(item) => Associate(Items(s.taken), s.inner.ready, [item]);
    case Finish =>
    case Poll(first, second) => PollConserves(s, first, second);
  }

  lemma {:induction false} RunConserves(s: State, events: seq<Event>)
    requires Conserved(s) && Run(s, events).Some?
    ensures Conserved(Run(s, events).value)
    decreases |events|
  {
    hide Next, Conserved;
    if events != [] {
      StepConserves(s, events[0]);
      RunConserves(Next(s, events[0]).value, events[1..]);
    }
  }

  /**
   Over any run of a new stream, what arrived is what was taken from the inner stream, in order,
   and what still waits there; and of what was taken exactly what was passed on came out.
   */
  lemma NothingIsInvented(window: nat, now: Time, events: seq<Event>)
    requires Run(Start(window, now), events).Some?
    ensures var s := Run(Start(window, now), events).value;
            && s.arrived == Items(s.taken) + s.inner.ready
            && Emitted(s.emissions) == PassedOn(s.taken)
  {
    RunConserves(Start(window, now), events);
  }

  // ---------------------------------------------------------------- what the events alone decide

  /** What has arrived, going by the events. */
  function Arrivals(events: seq<Event>): seq<Item> {
    if events == [] then []
    else
      var e := events[|events| - 1];
      Arrivals(events[..|events| - 1]) + (if e.Arrive? then [e.item] else [])
  }

  /**
   When the window was last restarted: when the stream was made, and then at the second reading of
   each poll whose first one came more than a window after that, whether or not something was ready.
   */
  function RestartedAt(window: nat, now: Time, events: seq<Event>): Time {
    if events == [] then now
    else
      var before, e := RestartedAt(window, now, events[..|events| - 1]), events[|events| - 1];
      if e.Poll? && e.first > before + window then e.second else before
  }

  /** A stream that has ended yields nothing more. */
  ghost predicate NothingAfterTheEnd(events: seq<Event>) {
    forall i, j | 0 <= i < j < |events| && events[i] == Finish :: !events[j].Arrive?
  }

  /** What the state has in common with the events. */
  ghost predicate Follows(s: State, window: nat, now: Time, events: seq<Event>) {
    && s.window == window && s.last == RestartedAt(window, now, events)
    && s.arrived == Arrivals(events) && (s.inner.ended <==> Finish in events) && NothingAfterTheEnd(events)
  }

  lemma OneMoreEvent(window: nat, now: Time, events: seq<Event>, e: Event)
    ensures Arrivals(events + [e]) == Arrivals(events) + (if e.Arrive? then [e.item] else [])
    ensures var before := RestartedAt(window, now, events);
            RestartedAt(window, now, events + [e]) == if e.Poll? && e.first > before + window then e.second else before
    ensures Finish in events + [e] <==> Finish in events || e == Finish
  {
    assert (events + [e])[..|events|] == events;
  }

  lemma StepFollows(s: State, window: nat, now: Time, events: seq<Event>, e: Event)
    requires Follows(s, window, now, events) && Next(s, e).Some?
    ensures Follows(Next(s, e).value, window, now, events + [e])
  {
    hide Arrivals, RestartedAt, ThrownAway;
    OneMoreEvent(window, now, events, e);
  }

  lemma {:induction false} RunFollows(s: State, window: nat, now: Time, before: seq<Event>, events: seq<Event>)
    requires Follows(s, window, now, before) && Run(s, events).Some?
    ensures Follows(Run(s, events).value, window, now, before + events)
    decreases |events|
  {
    if events == [] {
      assert before + events == before;
    } else {
      hide Next, Follows, Arrivals, RestartedAt;
      OneOver(before, events);
      StepFollows(s, window, now, before, events[0]);
      RunFollows(Next(s, events[0]).value, window, now, before + [events[0]], events[1..]);
    }
  }

  /** The answer of a poll after these events, if it ever returns. */
  function AnswerOf(s: State, first: Time, second: Time): Option<Polled> {
    var r := DoPoll(s, first, second);
    if r.Some? then Some(r.value.0) else None
  }

  /**
   After any events, going by these alone: a poll more than a window after the last restart answers
   the oldest event that waits, if any, leaves the others waiting and restarts the window in any
   case. Any other poll never returns if the inner stream has ended; else it answers "pending",
   emits nothing and leaves nothing waiting. What waits is what arrived and was not taken.
   */
  lemma PollsByTheWindow(window: nat, now: Time, events: seq<Event>, first: Time, second: Time)
    requires Run(Start(window, now), events).Some?
    requires var s := Run(Start(window, now), events).value; s.clock <= first <= second
    ensures var s := Run(Start(window, now), events).value;
            var answer, next, ended := AnswerOf(s, first, second), Next(s, Poll(first, second)), Finish in events;
            var waiting := s.inner.ready;
            && NothingAfterTheEnd(events)
            && Arrivals(events) == Items(s.taken) + waiting
            && if first - RestartedAt(window, now, events) > window then
                 && next.Some? && next.value.last == second
                 && answer == Some(if waiting != [] then Ready(waiting[0]) else if ended then Finished else Pending)
                 && next.value.inner.ready == (if waiting == [] then [] else waiting[1..])
                 && Emitted(next.value.emissions)
                    == Emitted(s.emissions) + (if waiting == [] then [] else [waiting[0]])
               else if ended then answer == None && next == None
               else
                 && next.Some? && next.value.last == RestartedAt(window, now, events)
                 && answer == Some(Pending) && next.value.inner.ready == []
                 && next.value.emissions == s.emissions
  {
    NothingIsInvented(window, now, events);
    FollowsFromStart(window, now, events);
    hide Arrivals, RestartedAt, NothingAfterTheEnd, Items, PassedOn, Run;
    var s := Run(Start(window, now), events).value;
    PollAnswers(s, first, second);
    hide Emitted, DoPoll, Next;
  }

  lemma FollowsFromStart(window: nat, now: Time, events: seq<Event>)
    requires Run(Start(window, now), events).Some?
    ensures Follows(Run(Start(window, now), events).value, window, now, events)
  {
    assert Follows(Start(window, now), window, now, []);
    RunFollows(Start(window, now), window, now, [], events);
    assert [] + events == events;
  }

  /** One poll, in each of its cases. */
  lemma PollAnswers(s: State, first: Time, second: Time)
    requires s.clock <= first <= second
    ensures var answer, next, waiting := AnswerOf(s, first, second), Next(s, Poll(first, second)), s.inner.ready;
            if first - s.last > s.window then
              && next.Some? && next.value.last == second
              && answer == Some(if waiting != [] then Ready(waiting[0])
                                else if s.inner.ended then Finished else Pending)
              && next.value.inner.ready == (if waiting == [] then [] else waiting[1..])
              && Emitted(next.value.emissions) == Emitted(s.emissions) + (if waiting == [] then [] else [waiting[0]])
            else if s.inner.ended then answer == None && next == None
            else
              && next.Some? && next.value.last == s.last
              && answer == Some(Pending) && next.value.inner.ready == []
              && next.value.emissions == s.emissions
  {
    hide ThrownAway;
    if s.inner.ready != [] {
      EmittedAppend(s.emissions, Emission(s.inner.ready[0], first, second));
      hide Emitted;
    }
  }

  // ---------------------------------------------------------------- the draining loop

  /** The inner stream after some polls. */
  function AfterPolls(inner: Inner, polls: nat): Inner
    decreases polls
  {
    if polls == 0 then inner else AfterPolls(PollInner(inner).1, polls - 1)
  }

  lemma {:induction false} EndedNeverPends(inner: Inner, polls: nat)
    requires inner.ended
    ensures !PollInner(AfterPolls(inner, polls)).0.Pending?
    decreases polls
  {
    if polls > 0 {
      EndedNeverPends(PollInner(inner).1, polls - 1);
    }
  }

  lemma {:induction false} OpenPendsAfterAll(inner: Inner)
    requires !inner.ended
    ensures PollInner(AfterPolls(inner, |inner.ready|)).0.Pending?
    decreases |inner.ready|
  {
    if inner.ready != [] {
      OpenPendsAfterAll(PollInner(inner).1);
    }
  }

  /** The loop that polls until "pending" comes to an end exactly when the inner stream has not ended. */
  lemma DrainEndsIffOpen(inner: Inner)
    ensures (exists polls :: PollInner(AfterPolls(inner, polls)).0.Pending?) <==> !inner.ended
  {
    if inner.ended {
      forall polls
        ensures !PollInner(AfterPolls(inner, polls)).0.Pending?
      {
        EndedNeverPends(inner, polls);
      }
    } else {
      OpenPendsAfterAll(inner);
    }
  }

  // ---------------------------------------------------------------- the stream in place

  class Debouncer {
    const window: nat
    ghost const created: Time
    var last: Time
    var inner: Inner
    ghost var clock: Time
    ghost var arrived: seq<Item>
    ghost var taken: seq<Taken>
    ghost var emissions: seq<Emission>

    ghost function View(): State
      reads this
    {
      State(window, created, last, inner, clock, arrived, taken, emissions)
    }

    constructor (duration: nat, now: Time)
      ensures View() == Start(duration, now)
    {
      window, last, inner := duration, now, Inner([], false);
      created, clock := now, now;
      arrived, taken, emissions := [], [], [];
    }

    method TakeInner() returns (polled: Polled)
      modifies this`inner
      ensures (polled, inner) == PollInner(old(inner))
    {
      if inner.ready != [] {
        polled := Ready(inner.ready[0]);
        inner := inner.(ready := inner.ready[1..]);
      } else {
        polled := if inner.ended then Finished else Pending;
      }
    }

    /**
     `first` and `second` are the two readings of the clock. Inside the window the inner stream must
     not have ended, else the loop never stops.
     */
    method PollNext(first: Time, second: Time) returns (polled: Polled)
      requires clock <= first <= second
      requires first - last > window || !inner.ended
      modifies this
      ensures DoPoll(old(View()), first, second) == Some((polled, View()))
    {
      clock := second;
      if first - last > window {
        last := second;
        polled := TakeInner();
        if polled.Ready? {
          taken := taken + [Taken(polled.item, true)];
          emissions := emissions + [Emission(polled.item, first, second)];
        }
      } else {
        ghost var before := inner.ready;
        ghost var gone := [];
        while true
          invariant !inner.ended && before == gone + inner.ready
          invariant taken == old(taken) + ThrownAway(gone)
          invariant last == old(last) && clock == second && arrived == old(arrived) && emissions == old(emissions)
          decreases |inner.ready|
        {
          polled := TakeInner();
          if polled.Pending? {
            break;
          }
          taken := taken + [Taken(polled.item, false)];
          gone := gone + [polled.item];
        }
        assert gone == before;
      }
    }
  }
}
