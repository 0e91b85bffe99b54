/**
 * The talking synchroniser of the avatar: the effect that runs whenever the
 * raw `isTalking` signal changes keeps a smoothed `continuousTalking` flag,
 * with a hold timer after the signal rises and a delayed release after it
 * falls; the mouth animation runs while either the signal or the flag is
 * up.  Time is an integer number of milliseconds; timers are modelled
 * explicitly as a list of scheduled callbacks plus the one handle the
 * component keeps, so that "at most one pending timer" is a theorem and not
 * an assumption.
 */
module Talking {
  import opened Text

  /** How long the flag is held after the signal rises. */
  const RiseHold: int := 5000
  /** How long after the signal falls the release check runs. */
  const FallDelay: int := 3000
  /** How long the last burst must have lasted for the release to happen. */
  const QuietGap: int := 3000

  /** What a timer does when it fires: the hold timer clears the flag; the
      release timer clears it only if the burst that ended at `edgeTime` was
      long enough. */
  datatype Kind = Rise | Fall(edgeTime: int)

  datatype Timer = Timer(id: nat, kind: Kind, deadline: int)

  /** `continuousTalking`, `lastTalkingTimeRef`, `talkingTimeoutRef` (the
      handle of the last timer armed, which is not reset when the timer
      fires), the timers still scheduled, and the next timer id. */
  datatype State = State(continuous: bool, lastTalking: int, handle: Option<nat>, timers: seq<Timer>, nextId: nat)

  /** A run of the effect with the current signal, or the clock reaching
      `now` so that a due timer fires. */
  datatype Event = Edge(isTalking: bool, now: int) | Fire(now: int)

  const Initial: State := State(false, 0, None, [], 1)

  /** The timers with another id, in their original order. */
  function Without(timers: seq<Timer>, id: nat): (r: seq<Timer>)
    ensures |r| <= |timers|
    ensures forall t :: t in r <==> t in timers && t.id != id
    ensures (forall i :: 0 <= i < |timers| ==> timers[i].id == id) ==> r == []
    decreases |timers|
  {
    if |timers| == 0 then []
    else if timers[0].id == id then Without(timers[1..], id)
    else [timers[0]] + Without(timers[1..], id)
  }

  /** `clearTimeout` on the handle: a handle of a timer that already fired
      or was cleared changes nothing. */
  function Cancel(s: State): State {
    match s.handle
    case None => s
    case Some(id) => s.(timers := Without(s.timers, id))
  }

  /** `setTimeout`: schedules a timer and keeps its handle. */
  function Arm(s: State, kind: Kind, deadline: int): State {
    s.(handle := Some(s.nextId), timers := s.timers + [Timer(s.nextId, kind, deadline)], nextId := s.nextId + 1)
  }

  /** The effect body.  The cleanup of the previous run and the body both
      clear the same handle; clearing it twice is the same as once. */
  function OnEdge(s: State, isTalking: bool, now: int): State {
    if isTalking then
      Arm(Cancel(s.(continuous := true, lastTalking := now)), Rise, now + RiseHold)
    else
      Arm(Cancel(s), Fall(now), now + FallDelay)
  }

  /** What a firing timer does, as written: the release compares the time
      of the falling edge, captured when the timer was armed, with the time
      of the last rising edge. */
  function Callback(s: State, kind: Kind): State {
    match kind
    case Rise => s.(continuous := false)
    case Fall(edgeTime) => if edgeTime - s.lastTalking > QuietGap then s.(continuous := false) else s
  }

  /** The first scheduled timer fires once the clock reaches its deadline. */
  function OnFire(s: State, now: int): State {
    if |s.timers| > 0 && s.timers[0].deadline <= now then
      Callback(s.(timers := s.timers[1..]), s.timers[0].kind)
    else s
  }

  function Step(s: State, e: Event): State {
    match e
    case Edge(isTalking, now) => OnEdge(s, isTalking, now)
    case Fire(now) => OnFire(s, now)
  }

  function Run(s: State, events: seq<Event>): State
    decreases |events|
  {
    if |events| == 0 then s
    else Step(Run(s, events[..|events| - 1]), events[|events| - 1])
  }

  lemma RunOne(s: State, a: Event)
    ensures Run(s, [a]) == Step(s, a)
  {
    assert [a][..0] == [];
  }

  lemma RunTwo(s: State, a: Event, b: Event)
    ensures Run(s, [a, b]) == Step(Step(s, a), b)
  {
    var events := [a, b];
    assert events[..1] == [a];
    assert Run(s, events) == Step(Run(s, events[..1]), b);
    RunOne(s, a);
  }

  lemma RunThree(s: State, a: Event, b: Event, c: Event)
    ensures Run(s, [a, b, c]) == Step(Step(Step(s, a), b), c)
  {
    var events := [a, b, c];
    assert events[..2] == [a, b];
    assert Run(s, events) == Step(Run(s, events[..2]), c);
    RunTwo(s, a, b);
  }

  /** At most one timer is scheduled, and if one is, the handle names it;
      every id used is below the next one. */
  predicate Wf(s: State) {
    && |s.timers| <= 1
    && (forall i :: 0 <= i < |s.timers| ==> s.timers[i].id < s.nextId)
    && (|s.timers| == 1 ==> s.handle == Some(s.timers[0].id))
  }

  /** Clearing the handle before arming leaves no other timer scheduled. */
  lemma CancelEmpties(s: State)
    requires Wf(s)
    ensures Cancel(s).timers == []
    ensures Cancel(s).nextId == s.nextId
  {
  }

  /** A rising edge raises the flag, records the time, and leaves exactly
      the new hold timer scheduled. */
  lemma RisingEdge(s: State, now: int)
    requires Wf(s)
    ensures var r := Step(s, Edge(true, now));
      && r.continuous
      && r.lastTalking == now
      && r.timers == [Timer(s.nextId, Rise, now + RiseHold)]
      && r.handle == Some(s.nextId)
  {
    CancelEmpties(s.(continuous := true, lastTalking := now));
  }

  /** A falling edge leaves the flag and the time alone and leaves exactly
      the new release timer scheduled, remembering the edge time. */
  lemma FallingEdge(s: State, now: int)
    requires Wf(s)
    ensures var r := Step(s, Edge(false, now));
      && r.continuous == s.continuous
      && r.lastTalking == s.lastTalking
      && r.timers == [Timer(s.nextId, Fall(now), now + FallDelay)]
      && r.handle == Some(s.nextId)
  {
    CancelEmpties(s);
  }

  lemma StepKeepsWf(s: State, e: Event)
    requires Wf(s)
    ensures Wf(Step(s, e))
  {
    match e
    case Edge(isTalking, now) =>
      if isTalking {
        RisingEdge(s, now);
      } else {
        FallingEdge(s, now);
      }
    case Fire(now) =>
  }

  /** Whatever happens, at most one timer is ever pending. */
  lemma {:induction false} AtMostOneTimer(events: seq<Event>)
    ensures Wf(Run(Initial, events))
    ensures |Run(Initial, events).timers| <= 1
    decreases |events|
  {
    if |events| > 0 {
      AtMostOneTimer(events[..|events| - 1]);
      StepKeepsWf(Run(Initial, events[..|events| - 1]), events[|events| - 1]);
    }
  }

  predicate AllFires(events: seq<Event>) {
    forall i :: 0 <= i < |events| ==> events[i].Fire?
  }

  lemma RunAppend(s: State, events: seq<Event>, more: seq<Event>)
    ensures Run(s, events + more) == Run(Run(s, events), more)
    decreases |more|
  {
    if |more| > 0 {
      var init := more[..|more| - 1];
      assert (events + more)[..|events + more| - 1] == events + init;
      assert (events + more)[|events + more| - 1] == more[|more| - 1];
      RunAppend(s, events, init);
    } else {
      assert events + more == events;
    }
  }

  /** The state just after a burst that began at `t0` and ended at `t1`. */
  predicate AfterShortBurst(s: State, t0: int, t1: int) {
    && s.continuous
    && s.lastTalking == t0
    && t1 - t0 <= QuietGap
    && forall i :: 0 <= i < |s.timers| ==> s.timers[i].kind == Fall(t1)
  }

  /** After a burst of at most three seconds, no sequence of timer firings
      ever clears the flag: the release timer checks the burst length, not
      the quiet time. */
  lemma {:induction false} ShortBurstSticks(s: State, t0: int, t1: int, fires: seq<Event>)
    requires Wf(s)
    requires t1 - t0 <= QuietGap
    requires AllFires(fires)
    ensures Run(s, [Edge(true, t0), Edge(false, t1)] + fires).continuous
  {
    var burst := [Edge(true, t0), Edge(false, t1)];
    var s1 := Step(s, Edge(true, t0));
    RisingEdge(s, t0);
    StepKeepsWf(s, Edge(true, t0));
    FallingEdge(s1, t1);
    RunTwo(s, Edge(true, t0), Edge(false, t1));
    FiresKeepShortBurst(Run(s, burst), t0, t1, fires);
    RunAppend(s, burst, fires);
  }

  lemma {:induction false} FiresKeepShortBurst(s: State, t0: int, t1: int, fires: seq<Event>)
    requires AfterShortBurst(s, t0, t1)
    requires AllFires(fires)
    ensures AfterShortBurst(Run(s, fires), t0, t1)
    decreases |fires|
  {
    if |fires| > 0 {
      var init := fires[..|fires| - 1];
      assert AllFires(init) by {
        forall i | 0 <= i < |init|
          ensures init[i].Fire?
        {
          assert init[i] == fires[i];
        }
      }
      FiresKeepShortBurst(s, t0, t1, init);
      var before := Run(s, init);
      var now := fires[|fires| - 1].now;
      if |before.timers| > 0 && before.timers[0].deadline <= now {
        assert before.timers[0].kind == Fall(t1);
        assert forall i :: 0 <= i < |before.timers[1..]| ==> before.timers[1..][i] == before.timers[i + 1];
      }
    }
  }

  /** After a burst longer than three seconds, the release timer clears the
      flag once the clock reaches its deadline. */
  lemma LongBurstReleases(s: State, t0: int, t1: int, t: int)
    requires Wf(s)
    requires t1 - t0 > QuietGap && t >= t1 + FallDelay
    ensures !Run(s, [Edge(true, t0), Edge(false, t1), Fire(t)]).continuous
  {
    var s1 := Step(s, Edge(true, t0));
    RisingEdge(s, t0);
    StepKeepsWf(s, Edge(true, t0));
    FallingEdge(s1, t1);
    RunThree(s, Edge(true, t0), Edge(false, t1), Fire(t));
  }

  /** A short burst from the start state leaves the flag up with nothing
      left to clear it: rise at 0 ms, fall at 1000 ms, release timer fires at
      4000 ms. */
  lemma StuckAfterShortBurst()
    ensures var r := Run(Initial, [Edge(true, 0), Edge(false, 1000), Fire(4000)]);
      r.continuous && r.timers == []
  {
    ShortBurstSticks(Initial, 0, 1000, [Fire(4000)]);
    assert [Edge(true, 0), Edge(false, 1000)] + [Fire(4000)] == [Edge(true, 0), Edge(false, 1000), Fire(4000)];
    RisingEdge(Initial, 0);
    FallingEdge(Step(Initial, Edge(true, 0)), 1000);
    RunThree(Initial, Edge(true, 0), Edge(false, 1000), Fire(4000));
  }

  /** The gate of the mouth animation: the raw signal or the smoothed flag. */
  function ShouldTalk(isTalking: bool, s: State): bool {
    isTalking || s.continuous
  }

  /** The mouth moves whenever the signal is up, whatever the state. */
  lemma SignalOpensGate(s: State)
    ensures ShouldTalk(true, s)
  {
  }

  /** While the signal stays up after a rise, the mouth keeps moving, but
      the flag itself drops as soon as the five-second hold timer fires,
      even though no falling edge has happened. */
  lemma HoldAfterRise(s: State, t0: int, t: int)
    requires Wf(s)
    ensures var r := Run(s, [Edge(true, t0), Fire(t)]);
      && ShouldTalk(true, r)
      && r.continuous == (t < t0 + RiseHold)
  {
    RisingEdge(s, t0);
    RunTwo(s, Edge(true, t0), Fire(t));
  }

  /** The release as the comment above it describes: clear the flag once
      the timer fires, since any later rising edge would have cleared the
      timer first. */
  function CallbackIntended(s: State, kind: Kind): State {
    s.(continuous := false)
  }

  function StepIntended(s: State, e: Event): State {
    match e
    case Edge(isTalking, now) => OnEdge(s, isTalking, now)
    case Fire(now) =>
      if |s.timers| > 0 && s.timers[0].deadline <= now then
        CallbackIntended(s.(timers := s.timers[1..]), s.timers[0].kind)
      else s
  }

  function RunIntended(s: State, events: seq<Event>): State
    decreases |events|
  {
    if |events| == 0 then s
    else StepIntended(RunIntended(s, events[..|events| - 1]), events[|events| - 1])
  }

  /** Never stuck: while the flag is up, a timer is pending that will clear
      it. */
  predicate Releasable(s: State) {
    Wf(s) && (s.continuous ==> |s.timers| == 1)
  }

  lemma StepIntendedKeepsReleasable(s: State, e: Event)
    requires Releasable(s)
    ensures Releasable(StepIntended(s, e))
  {
    match e
    case Edge(isTalking, now) =>
      if isTalking {
        RisingEdge(s, now);
      } else {
        FallingEdge(s, now);
      }
    case Fire(now) =>
  }

  lemma {:induction false} IntendedNeverStuck(events: seq<Event>)
    ensures Releasable(RunIntended(Initial, events))
    decreases |events|
  {
    if |events| > 0 {
      IntendedNeverStuck(events[..|events| - 1]);
      StepIntendedKeepsReleasable(RunIntended(Initial, events[..|events| - 1]), events[|events| - 1]);
    }
  }

  /** With the intended release, the burst that sticks above ends with the
      flag down. */
  lemma IntendedReleasesShortBurst()
    ensures !RunIntended(Initial, [Edge(true, 0), Edge(false, 1000), Fire(4000)]).continuous
  {
    var events := [Edge(true, 0), Edge(false, 1000), Fire(4000)];
    RisingEdge(Initial, 0);
    FallingEdge(Step(Initial, Edge(true, 0)), 1000);
    assert events[..2][..1] == [Edge(true, 0)];
    assert events[..2] == [Edge(true, 0), Edge(false, 1000)];
    assert [Edge(true, 0)][..0] == [];
  }
}
