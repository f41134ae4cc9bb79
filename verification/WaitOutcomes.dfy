/** Why a request leaves the wait: for each way out, the critical section in which it was decided and what that section
    saw. */
module WaitOutcomes {
  import opened Base
  import opened HeldModel
  import opened Waiting
  import opened Eviction

  /** The request has not decided how it leaves. */
  predicate Undecided(s: State, id: Id) { id in s.requests ==> !s.requests[id].pc.Leaving? && !s.requests[id].pc.Done? }

  // ---------------------------------------------------------------- one critical section

  /** In turn, if and only if what it observed has reached its nonce; without an answer of the node, if and only if it
      observed nothing; and otherwise it goes on. */
  lemma EvaluatingMeans(max: nat, s: State, step: Step, id: Id)
    requires Inv(s, max) && Enabled(s, step) && Undecided(s, id)
    ensures At(Do(max, s, step), id, Leaving(InTurn))
            <==> step.Evaluate? && step.id == id && step.observed.Some? && s.requests[id].nonce <= step.observed.value
    ensures At(Do(max, s, step), id, Leaving(NodeFailed)) <==> step == Evaluate(id, None)
  {
    hide Inv, MakeRoom, Surplus, Notify, Unhold, Hold, Arm, Wake;
  }

  /** Its window expired, if and only if it found its deadline past; its client is gone, if and only if that is what
      ended its sleep. */
  lemma DeadlineAndClientMean(max: nat, s: State, step: Step, id: Id)
    requires Inv(s, max) && Enabled(s, step) && Undecided(s, id)
    ensures At(Do(max, s, step), id, Leaving(WindowExpired)) <==> step == LookAtDeadline(id, true)
    ensures At(Do(max, s, step), id, Leaving(ClientGone)) <==> step == WakeUp(id, ContextDone)
  {
    hide Inv, MakeRoom, Surplus, Notify, Unhold, Hold, Arm, Wake;
  }

  /** Turned away at the gate, if and only if it found the quota full and nobody held with a higher nonce; what is
      reported is the number of the held and of those in flight. */
  lemma GateTurnsAway(max: nat, s: State, step: Step, id: Id, count: nat)
    requires Inv(s, max) && Enabled(s, step) && Undecided(s, id) && step.Arrive?
    ensures At(Do(max, s, step), id, Leaving(TooMany(count))) <==>
      step.id == id && count == |ListOf(s.registry, step.key)| + SentOf(s, step.key) && count >= max
      && forall h <- ListOf(s.registry, step.key) :: s.registry.waiters[h].nonce <= step.nonce
  {
    GateMeans(s.registry, step.key, step.nonce, SentOf(s, step.key), max);
    hide Inv, MakeRoom, Highest, HighestAt, ListOf;
  }

  /** Turned away at the check, if and only if there are more than the quota and it is the highest, the last of a tie. */
  lemma CheckTurnsAway(max: nat, s: State, other: Id, id: Id, count: nat)
    requires Inv(s, max) && Enabled(s, CheckQuota(other)) && Undecided(s, id)
    ensures At(Do(max, s, CheckQuota(other)), id, Leaving(TooMany(count))) <==>
      id == other && var list, waiters := ListOf(s.registry, s.requests[id].key), s.registry.waiters;
      && count == |list| + SentOf(s, s.requests[id].key) && count > max
      && exists i | 0 <= i < |list| :: list[i] == id && forall j | 0 <= j < |list| ::
           waiters[list[j]].nonce <= waiters[id].nonce && (i < j ==> waiters[list[j]].nonce < waiters[id].nonce)
  {
    SurplusMeans(s.registry, s.requests[other].key, other, SentOf(s, s.requests[other].key), max);
    hide Inv, Surplus, HighestAt, ListOf;
  }

  /** Turned away when it woke, if and only if it was evicted and its client is still there; what is reported is what its
      eviction found. */
  lemma WakingTurnsAway(max: nat, s: State, other: Id, why: Wakeup, id: Id, count: nat)
    requires Inv(s, max) && Enabled(s, WakeUp(other, why)) && Undecided(s, id)
    ensures At(Do(max, s, WakeUp(other, why)), id, Leaving(TooMany(count))) <==>
      id == other && why != ContextDone && id in s.registry.waiters
      && s.registry.waiters[id].evicted && count == s.registry.waiters[id].evictedInflight
  {
    hide Inv;
  }

  lemma NothingElseTurnsAway(max: nat, s: State, step: Step, id: Id, count: nat)
    requires Enabled(s, step) && Undecided(s, id) && !step.Arrive? && !step.CheckQuota? && !step.WakeUp?
    ensures !At(Do(max, s, step), id, Leaving(TooMany(count)))
  {
    hide Notify, Unhold, Hold, Arm;
  }

  /** A request that is neither evicted nor left by its client is back at the comparison when it wakes, however it woke. */
  lemma WakingMeans(max: nat, s: State, id: Id, why: Wakeup)
    requires Enabled(s, WakeUp(id, why)) && why != ContextDone && !IsEvicted(s.registry, id)
    ensures At(Do(max, s, WakeUp(id, why)), id, Evaluating) && !IsAsleep(Do(max, s, WakeUp(id, why)).registry, id)
  {
  }

  /** An eviction reports the number of the held and of those in flight that filled the quota, and takes the highest. */
  lemma EvictingReports(max: nat, s: State, step: Step, id: Id)
    requires Inv(s, max) && Enabled(s, step) && id in s.requests
    requires !IsEvicted(s.registry, id) && IsEvicted(Do(max, s, step).registry, id)
    ensures step.Arrive? && id in ListOf(s.registry, step.key)
    ensures Do(max, s, step).registry.waiters[id].evictedInflight == |ListOf(s.registry, step.key)| + SentOf(s, step.key) >= max
    ensures step.nonce < s.registry.waiters[id].nonce
    ensures forall h <- ListOf(s.registry, step.key) :: s.registry.waiters[h].nonce <= s.registry.waiters[id].nonce
  {
    hide InvComplete, InvCaught, InvCounts, Highest, Surplus, HighestAt;
    EvictedByArrival(max, s, step, id);
    var pending, list := SentOf(s, step.key), ListOf(s.registry, step.key);
    assert Distinct(list);
    if Inflight(s.registry, step.key, pending) >= max {
      hide MakeRoom;
      EvictionSparesTheChain(s.registry, step.key, step.nonce, pending, max);
    }
  }

  // ---------------------------------------------------------------- over whole runs

  lemma LastStepOf(max: nat, states: seq<State>, steps: seq<Step>, j: nat)
    requires Run(max, states, steps) && 0 < j < |states|
    ensures |states| == |steps| + 1 && Inv(states[j - 1], max)
    ensures Enabled(states[j - 1], steps[j - 1]) && states[j] == Do(max, states[j - 1], steps[j - 1])
  {
    hide Inv, Do, Enabled;
    RunKeeps(max, states, steps, j - 1);
  }

  lemma StepDecides(max: nat, s: State, step: Step, id: Id, result: Result)
    requires Enabled(s, step) && Decided(Do(max, s, step), id, result)
    ensures Decided(s, id, result) || (Undecided(s, id) && At(Do(max, s, step), id, Leaving(result)))
  {
    hide MakeRoom, Surplus, Notify, Unhold, Hold, Arm, Wake;
  }

  /** Whoever left the wait, or is leaving it, decided so in one critical section of the run. */
  lemma {:induction false} DecidedOnce(max: nat, states: seq<State>, steps: seq<Step>, j: nat, id: Id, result: Result) returns (i: nat)
    requires Run(max, states, steps) && j < |states| && Decided(states[j], id, result)
    ensures i < j && Undecided(states[i], id) && At(states[i + 1], id, Leaving(result))
    ensures Inv(states[i], max) && Enabled(states[i], steps[i]) && states[i + 1] == Do(max, states[i], steps[i])
    decreases j
  {
    NobodyAtFirst(max, states, steps, id, result);
    hide Run, Do, Enabled, Decided, Undecided, At, Inv;
    LastStepOf(max, states, steps, j);
    StepDecides(max, states[j - 1], steps[j - 1], id, result);
    if Decided(states[j - 1], id, result) { i := DecidedOnce(max, states, steps, j - 1, id, result); }
    else { i := j - 1; }
  }

  lemma NobodyAtFirst(max: nat, states: seq<State>, steps: seq<Step>, id: Id, result: Result)
    requires Run(max, states, steps)
    ensures !Decided(states[0], id, result)
  {
  }

  /** Over every run, whoever left in turn compared its nonce with an expected one that had reached it. */
  lemma LeftInTurn(max: nat, states: seq<State>, steps: seq<Step>, j: nat, id: Id) returns (i: nat, observed: nat)
    requires Run(max, states, steps) && j < |states| && Decided(states[j], id, InTurn)
    ensures i < j && steps[i] == Evaluate(id, Some(observed)) && id in states[i].requests && states[i].requests[id].nonce <= observed
  {
    i := DecidedOnce(max, states, steps, j, id, InTurn);
    EvaluatingMeans(max, states[i], steps[i], id);
    observed := steps[i].observed.value;
  }

  /** Over every run, whoever was turned away for the quota was so at the gate, by itself or by an eviction before, and was
      told how many were held and in flight when that was found: at least the maximum, and more than it if it found so
      itself. */
  lemma TurnedAwayForTheQuota(max: nat, states: seq<State>, steps: seq<Step>, j: nat, id: Id, count: nat) returns (i: nat)
    requires Run(max, states, steps) && j < |states| && Decided(states[j], id, TooMany(count))
    ensures i < j && i < |steps|
    ensures var s := states[i]; var step := steps[i];
      || (step.Arrive? && step.id == id && count == |ListOf(s.registry, step.key)| + SentOf(s, step.key) >= max)
      || (step == CheckQuota(id) && id in s.requests
          && count == |ListOf(s.registry, s.requests[id].key)| + SentOf(s, s.requests[id].key) > max)
      || (step.Arrive? && step.id != id && id in ListOf(s.registry, step.key)
          && count == |ListOf(s.registry, step.key)| + SentOf(s, step.key) >= max)
  {
    i := DecidedOnce(max, states, steps, j, id, TooMany(count));
    hide Run, Do, Inv, Enabled, Undecided, Decided;
    match steps[i]
    case Arrive(_, _, _) => GateTurnsAway(max, states[i], steps[i], id, count);
    case CheckQuota(other) =>
      CheckTurnsAway(max, states[i], other, id, count);
      CheckerExists(states[i], other);
    case WakeUp(other, why) =>
      WakingTurnsAway(max, states[i], other, why, id, count);
      i := EvictedOnce(max, states, steps, i, id, count);
    case _ => NothingElseTurnsAway(max, states[i], steps[i], id, count);
  }

  lemma CheckerExists(s: State, id: Id)
    requires Enabled(s, CheckQuota(id))
    ensures id in s.requests
  {
  }

  lemma EvictionStays(max: nat, s: State, step: Step, id: Id)
    requires Inv(s, max) && Enabled(s, step) && IsEvicted(s.registry, id)
    ensures var r := Do(max, s, step).registry;
      id in r.waiters && r.waiters[id].evicted && r.waiters[id].evictedInflight == s.registry.waiters[id].evictedInflight
  {
    hide InvComplete, InvAsleep, InvCaught, InvCounts, Highest, HighestAt, Surplus;
    if step.Arrive? {
      var pending, list := SentOf(s, step.key), ListOf(s.registry, step.key);
      assert Distinct(list);
      if Inflight(s.registry, step.key, pending) >= max {
        hide MakeRoom;
        EvictionSparesTheChain(s.registry, step.key, step.nonce, pending, max);
      }
    }
  }

  lemma EvictedIsKnown(max: nat, s: State, step: Step, id: Id)
    requires Inv(s, max) && Enabled(s, step) && IsEvicted(Do(max, s, step).registry, id)
    ensures id in s.requests
  {
    hide InvComplete, InvAsleep, InvCaught, InvCounts, HighestAt, Without;
  }

  predicate EvictedWith(s: State, id: Id, count: nat) {
    id in s.registry.waiters && s.registry.waiters[id].evicted && s.registry.waiters[id].evictedInflight == count
  }

  lemma EvictedSome(max: nat, s: State, step: Step, id: Id, count: nat)
    requires Inv(s, max) && Enabled(s, step) && EvictedWith(Do(max, s, step), id, count)
    ensures EvictedWith(s, id, count)
            || (step.Arrive? && step.id != id && id in ListOf(s.registry, step.key)
                && count == |ListOf(s.registry, step.key)| + SentOf(s, step.key) >= max)
  {
    hide Inv, Do, Enabled;
    EvictedIsKnown(max, s, step, id);
    if IsEvicted(s.registry, id) {
      EvictionStays(max, s, step, id);
    } else {
      EvictingReports(max, s, step, id);
      NewcomerIsAnother(max, s, step, id);
    }
  }

  /** Whoever is evicted was evicted by the arrival of another, which found what it reports. */
  lemma {:induction false} EvictedOnce(max: nat, states: seq<State>, steps: seq<Step>, j: nat, id: Id, count: nat) returns (i: nat)
    requires Run(max, states, steps) && j < |states| && EvictedWith(states[j], id, count)
    ensures i < j && i < |steps| && i < |states| && steps[i].Arrive? && steps[i].id != id
    ensures id in ListOf(states[i].registry, steps[i].key)
    ensures count == |ListOf(states[i].registry, steps[i].key)| + SentOf(states[i], steps[i].key) >= max
    decreases j
  {
    hide Run, Do, Enabled, EvictedWith, Inv, ListOf, SentOf;
    NobodyEvictedAtFirst(max, states, steps, id, count);
    LastStepOf(max, states, steps, j);
    EvictedSome(max, states[j - 1], steps[j - 1], id, count);
    if EvictedWith(states[j - 1], id, count) { i := EvictedOnce(max, states, steps, j - 1, id, count); }
    else { i := j - 1; }
  }

  lemma NewcomerIsAnother(max: nat, s: State, step: Step, id: Id)
    requires Enabled(s, step) && step.Arrive? && id in s.requests
    ensures step.id != id
  {
  }

  lemma NobodyEvictedAtFirst(max: nat, states: seq<State>, steps: seq<Step>, id: Id, count: nat)
    requires Run(max, states, steps)
    ensures !EvictedWith(states[0], id, count)
  {
  }
}
