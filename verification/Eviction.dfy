/** What becomes of a held metatx that an arrival evicts: it depends on where its request stands at that moment. */
module Eviction {
  import opened Base
  import opened HeldModel
  import opened Waiting

  /** A gate evicted that metatx in step `i`. */
  ghost predicate EvictedIn(states: seq<State>, i: nat, id: Id) {
    i + 1 < |states| && id in states[i].requests
    && !IsEvicted(states[i].registry, id) && IsEvicted(states[i + 1].registry, id)
  }

  /** The metatx goes on to be sent. */
  predicate Proceeds(result: Result) { result.InTurn? || result.WindowExpired? }

  lemma {:induction false} CaughtStays(max: nat, states: seq<State>, steps: seq<Step>, i: nat, j: nat, id: Id)
    requires Run(max, states, steps) && i <= j < |states| && id in states[i].caught
    ensures id in states[j].caught
    decreases j - i
  {
    if i < j { CaughtStays(max, states, steps, i, j - 1, id); }
  }

  /** Only the gate evicts: it evicts the highest one listed for the user of the arriving metatx. */
  lemma EvictedByArrival(max: nat, s: State, step: Step, id: Id)
    requires Inv(s, max) && Enabled(s, step) && id in s.requests
    requires !IsEvicted(s.registry, id) && IsEvicted(Do(max, s, step).registry, id)
    ensures step.Arrive? && id in ListOf(s.registry, step.key)
  {
    hide InvComplete, InvCaught, InvCounts, Highest, Surplus, HighestAt;
    if step.Arrive? {
      var pending, list := SentOf(s, step.key), ListOf(s.registry, step.key);
      assert Distinct(list);
      if Inflight(s.registry, step.key, pending) >= max {
        hide MakeRoom;
        EvictionSparesTheChain(s.registry, step.key, step.nonce, pending, max);
      }
    }
  }

  /** And it records whom it caught. */
  lemma EvictingCatches(max: nat, s: State, step: Step, id: Id)
    requires Inv(s, max) && Enabled(s, step)
    requires id in s.requests && Bound(s.requests[id].pc)
    requires !IsEvicted(s.registry, id) && IsEvicted(Do(max, s, step).registry, id)
    ensures id in Do(max, s, step).caught
  {
    hide Inv, MakeRoom, IsEvicted;
    EvictedByArrival(max, s, step, id);
  }

  /** A metatx evicted while its request is about to look at the quota or to sleep, or sleeps, is never sent: when its
      request leaves the wait, it leaves with the rejection for the quota, which reports at least the quota, or because
      its client went away. Whether its wake channel was still open makes no difference. */
  lemma EvictedWhenBoundIsNeverSent(max: nat, states: seq<State>, steps: seq<Step>, i: nat, j: nat, id: Id)
    requires Run(max, states, steps) && i < j < |states| && EvictedIn(states, i, id) && Bound(states[i].requests[id].pc)
    ensures id in states[j].requests
    ensures var pc := states[j].requests[id].pc;
      pc.Done? ==> pc.result.ClientGone? || (pc.result.TooMany? && pc.result.count >= max)
  {
    RunKeeps(max, states, steps, i);
    RunKeeps(max, states, steps, j);
    EvictingCatches(max, states[i], steps[i], id);
    CaughtStays(max, states, steps, i + 1, j, id);
  }

  /** The request decided to leave like that, and perhaps left. */
  predicate Decided(s: State, id: Id, result: Result) {
    id in s.requests && (s.requests[id].pc == Leaving(result) || s.requests[id].pc == Done(result))
  }

  lemma DecidedStep(max: nat, s: State, step: Step, id: Id, result: Result)
    requires Enabled(s, step) && Decided(s, id, result)
    ensures Decided(Do(max, s, step), id, result)
  {
    hide MakeRoom, Surplus, Notify, Unhold, Hold, Arm, Wake;
  }

  /** A request that decided how it leaves keeps its decision. */
  lemma {:induction false} DecisionStays(max: nat, states: seq<State>, steps: seq<Step>, i: nat, j: nat, id: Id, result: Result)
    requires Run(max, states, steps) && i <= j < |states| && Decided(states[i], id, result)
    ensures Decided(states[j], id, result)
    decreases j - i
  {
    hide Do, Enabled, Decided;
    if i < j {
      DecisionStays(max, states, steps, i, j - 1, id, result);
      DecidedStep(max, states[j - 1], steps[j - 1], id, result);
    }
  }

  /** The metatx left the wait to be sent. */
  predicate WasSent(s: State, id: Id) { id in s.requests && s.requests[id].pc.Done? && Proceeds(s.requests[id].pc.result) }

  /** A run that begins like this one up to step `n` ends with that metatx on its way to be sent. */
  ghost predicate EndsSent(max: nat, states: seq<State>, steps: seq<Step>, n: nat, id: Id, states': seq<State>, steps': seq<Step>)
    requires n < |states| && n <= |steps|
  {
    && Run(max, states', steps') && states[..n + 1] <= states' && steps[..n] <= steps'
    && WasSent(states'[|states'| - 1], id)
  }

  /** Some continuation of the run sends it. */
  ghost predicate MayBeSent(max: nat, states: seq<State>, steps: seq<Step>, n: nat, id: Id)
    requires n < |states| && n <= |steps|
  {
    exists states', steps' :: EndsSent(max, states, steps, n, id, states', steps')
  }

  lemma RunThen(max: nat, states: seq<State>, steps: seq<Step>, step: Step)
    requires Run(max, states, steps) && Enabled(states[|states| - 1], step)
    ensures Run(max, states + [Do(max, states[|states| - 1], step)], steps + [step])
  {
  }

  /** What such a request does to leave at once. */
  lemma SendIt(max: nat, states: seq<State>, steps: seq<Step>, id: Id) returns (states': seq<State>, steps': seq<Step>)
    requires Run(max, states, steps)
    requires var s := states[|states| - 1]; id in s.requests && s.requests[id].held
    requires var pc := states[|states| - 1].requests[id].pc;
      pc.Evaluating? || pc.Timing? || (pc.Leaving? && Proceeds(pc.result))
    ensures EndsSent(max, states, steps, |steps|, id, states', steps')
  {
    states', steps' := states, steps;
    var s := states[|states| - 1];
    if s.requests[id].pc.Evaluating? {
      var step := Evaluate(id, Some(s.requests[id].nonce));
      RunThen(max, states', steps', step);
      states', steps' := states' + [Do(max, s, step)], steps' + [step];
    } else if s.requests[id].pc.Timing? {
      var step := LookAtDeadline(id, true);
      RunThen(max, states', steps', step);
      states', steps' := states' + [Do(max, s, step)], steps' + [step];
    }
    var t := states'[|states'| - 1];
    RunThen(max, states', steps', Depart(id));
    states', steps' := states' + [Do(max, t, Depart(id))], steps' + [Depart(id)];
  }

  /** Exactly when an evicted metatx may still be sent: its request is between two rounds, before it looks at the
      expected nonce or at its deadline, or it has already decided to go on. */
  lemma EvictedMayBeSentIff(max: nat, states: seq<State>, steps: seq<Step>, i: nat, id: Id)
    requires Run(max, states, steps) && EvictedIn(states, i, id)
    ensures var pc := states[i].requests[id].pc;
      MayBeSent(max, states, steps, i + 1, id)
      <==> pc.Evaluating? || pc.Timing? || (pc.Leaving? && Proceeds(pc.result))
  {
    RunKeeps(max, states, steps, i);
    var pc := states[i].requests[id].pc;
    EvictedIsInside(max, states[i], steps[i], id);
    if pc.Evaluating? || pc.Timing? || (pc.Leaving? && Proceeds(pc.result)) {
      hide Inv, Do;
      var states', steps' := SendIt(max, states[..i + 2], steps[..i + 1], id);
      assert EndsSent(max, states, steps, i + 1, id, states', steps');
    } else {
      var n := i + 1;
      forall states', steps' ensures !EndsSent(max, states, steps, n, id, states', steps') {
        NotSent(max, states, steps, i, id, states', steps');
      }
    }
  }

  lemma SamePrefix(max: nat, states: seq<State>, steps: seq<Step>, i: nat, id: Id, states': seq<State>, steps': seq<Step>)
    requires i + 1 < |states| && i + 1 <= |steps| && EvictedIn(states, i, id) && EndsSent(max, states, steps, i + 1, id, states', steps')
    ensures Run(max, states', steps') && EvictedIn(states', i, id) && states'[i] == states[i] && i < |states'| - 1
    ensures WasSent(states'[|states'| - 1], id)
  {
    assert states[..i + 2][i] == states[i] && states[..i + 2][i + 1] == states[i + 1];
  }

  lemma StillNotSent(max: nat, states: seq<State>, steps: seq<Step>, i: nat, j: nat, id: Id)
    requires Run(max, states, steps) && EvictedIn(states, i, id) && i < j < |states|
    requires var pc := states[i].requests[id].pc; Bound(pc) || (pc.Leaving? && !Proceeds(pc.result))
    ensures !WasSent(states[j], id)
  {
    if Bound(states[i].requests[id].pc) {
      EvictedWhenBoundIsNeverSent(max, states, steps, i, j, id);
    } else {
      hide Run;
      DecisionStays(max, states, steps, i, j, id, states[i].requests[id].pc.result);
    }
  }

  lemma NotSent(max: nat, states: seq<State>, steps: seq<Step>, i: nat, id: Id, states': seq<State>, steps': seq<Step>)
    requires EvictedIn(states, i, id) && i + 1 < |states| && i + 1 <= |steps|
    requires var pc := states[i].requests[id].pc; Bound(pc) || (pc.Leaving? && !Proceeds(pc.result))
    ensures !EndsSent(max, states, steps, i + 1, id, states', steps')
  {
    hide *;
    if EndsSent(max, states, steps, i + 1, id, states', steps') {
      SamePrefix(max, states, steps, i, id, states', steps');
      StillNotSent(max, states', steps', i, |states'| - 1, id);
    }
  }

  /** The run leads from the start of the service to that state. */
  ghost predicate LeadsTo(max: nat, states: seq<State>, steps: seq<Step>, s: State) {
    Run(max, states, steps) && states[|states| - 1] == s
  }

  lemma Then(max: nat, states: seq<State>, steps: seq<Step>, s: State, step: Step) returns (states': seq<State>, steps': seq<Step>)
    requires LeadsTo(max, states, steps, s) && Enabled(s, step)
    ensures LeadsTo(max, states', steps', Do(max, s, step)) && states <= states' && |states'| == |states| + 1
  {
    RunThen(max, states, steps, step);
    states', steps' := states + [Do(max, s, step)], steps + [step];
  }

  /** One user, a quota of one: metatx 0, with nonce 5, is held and has slept once when metatx 1, with nonce 4, comes. */
  function Burst(pc: Pc, evicted: bool, asleep: bool): State {
    State(Held(if evicted then map[] else map["user" := [0]], map[0 := Waiter(5, asleep, evicted, if evicted then 1 else 0)]),
          if evicted then map[0 := Request("user", 5, pc, true), 1 := Request("user", 4, Evaluating, false)]
          else map[0 := Request("user", 5, pc, true)],
          map[], map[], {})
  }

  /** Before metatx 0 is held. */
  function Early(pc: Pc): State { State(Held(map[], map[]), map[0 := Request("user", 5, pc, false)], map[], map[], {}) }

  lemma HeldFirst() returns (states: seq<State>, steps: seq<Step>)
    ensures LeadsTo(1, states, steps, Burst(Timing, false, false))
  {
    states, steps := [Init(map[])], [];
    assert LeadsTo(1, states, steps, Init(map[]));
    hide LeadsTo;
    states, steps := Then(1, states, steps, Init(map[]), Arrive(0, "user", 5));
    assert Do(1, Init(map[]), Arrive(0, "user", 5)) == Early(Evaluating);
    states, steps := Then(1, states, steps, Early(Evaluating), Evaluate(0, Some(0)));
    assert Do(1, Early(Evaluating), Evaluate(0, Some(0))) == Early(Registering);
    states, steps := Then(1, states, steps, Early(Registering), Register(0));
    assert ListOf(Early(Registering).registry, "user") + [0] == [0];
    assert Do(1, Early(Registering), Register(0)) == Burst(Timing, false, false);
  }

  lemma FirstRound() returns (states: seq<State>, steps: seq<Step>)
    ensures LeadsTo(1, states, steps, Burst(Arming, false, false))
  {
    states, steps := HeldFirst();
    hide LeadsTo;
    states, steps := Then(1, states, steps, Burst(Timing, false, false), LookAtDeadline(0, false));
    assert Do(1, Burst(Timing, false, false), LookAtDeadline(0, false)) == Burst(Checking, false, false);
    states, steps := Then(1, states, steps, Burst(Checking, false, false), CheckQuota(0));
    assert Do(1, Burst(Checking, false, false), CheckQuota(0)) == Burst(Arming, false, false);
  }

  lemma WokenUp() returns (states: seq<State>, steps: seq<Step>)
    ensures LeadsTo(1, states, steps, Burst(Evaluating, false, false))
  {
    states, steps := FirstRound();
    hide LeadsTo;
    states, steps := Then(1, states, steps, Burst(Arming, false, false), FallAsleep(0));
    assert Do(1, Burst(Arming, false, false), FallAsleep(0)) == Burst(Asleep, false, true);
    states, steps := Then(1, states, steps, Burst(Asleep, false, true), WakeUp(0, TimedOut));
    assert Do(1, Burst(Asleep, false, true), WakeUp(0, TimedOut)) == Burst(Evaluating, false, false);
  }

  lemma ArrivalEvicts()
    ensures Enabled(Burst(Evaluating, false, false), Arrive(1, "user", 4))
    ensures Do(1, Burst(Evaluating, false, false), Arrive(1, "user", 4)) == Burst(Evaluating, true, false)
  {
    var s := Burst(Evaluating, false, false);
    assert ListOf(s.registry, "user") == [0];
    assert HighestAt([0], s.registry.waiters) == 0;
    assert Without([0], 0) == [];
  }

  /** Such a run: metatx 0 is evicted between two rounds of its wait, and comes in turn all the same. */
  lemma EvictedBetweenRoundsComesInTurn() returns (states: seq<State>, steps: seq<Step>, i: nat)
    ensures Run(1, states, steps) && EvictedIn(states, i, 0) && states[i].requests[0].pc.Evaluating?
    ensures 0 in states[|states| - 1].requests && states[|states| - 1].requests[0].pc == Done(InTurn)
  {
    states, steps := WokenUp();
    i := |states| - 1;
    var s := Burst(Evaluating, false, false);
    ArrivalEvicts();
    assert states[i] == s;
    ghost var before := states;
    states, steps := Then(1, states, steps, s, Arrive(1, "user", 4));
    s := Burst(Evaluating, true, false);
    assert states[i + 1] == s;
    ghost var evicted := states;
    states, steps := Then(1, states, steps, s, Evaluate(0, Some(5)));
    s := Do(1, s, Evaluate(0, Some(5)));
    states, steps := Then(1, states, steps, s, Depart(0));
    assert states[i] == before[i] && states[i + 1] == evicted[i + 1];
  }

  /** Only a registered metatx is evicted, by somebody else's arrival. */
  lemma EvictedIsInside(max: nat, s: State, step: Step, id: Id)
    requires Inv(s, max) && Enabled(s, step) && id in s.requests
    requires !IsEvicted(s.registry, id) && IsEvicted(Do(max, s, step).registry, id)
    ensures var s' := Do(max, s, step);
      && id in s'.requests && s'.requests[id] == s.requests[id] && s.requests[id].held
      && (var pc := s.requests[id].pc; pc.Evaluating? || pc.Timing? || pc.Leaving? || Bound(pc))
  {
    hide InvComplete, InvAsleep, InvCaught, InvCounts, MakeRoom, IsEvicted;
    EvictedByArrival(max, s, step, id);
    ListedIsInside(max, s, step.key, id);
  }

  lemma ListedIsInside(max: nat, s: State, key: Key, id: Id)
    requires Inv(s, max) && id in ListOf(s.registry, key)
    ensures id in s.requests && s.requests[id].held && !s.requests[id].pc.Done? && !s.requests[id].pc.Registering?
  {
    hide InvComplete, InvAsleep, InvCaught, InvCounts;
  }
}
