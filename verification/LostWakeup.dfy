/** Whether a request can sleep through its turn: the comparison with the expected nonce and the wake channel for that
    round belong to different critical sections, so a notification between them reaches nobody. */
module LostWakeup {
  import opened Base
  import opened HeldModel
  import opened Waiting
  import opened Eviction

  /** The step changes what would be answered for that user. */
  predicate Moves(step: Step, key: Key) {
    (step.ChainMoved? || step.ChainExpired? || step.HubMoved?) && step.key == key
  }

  /** The step wakes everyone held for that user. */
  predicate Announces(step: Step, key: Key) { step.ChainMoved? && step.key == key }

  /** Step `m` was the last before state `j` to move what is expected of that user, and moved it up to that nonce. */
  ghost predicate Brings(steps: seq<Step>, m: nat, j: nat, key: Key, nonce: nat) {
    m < j <= |steps| && Moves(steps[m], key) && nonce <= steps[m].expected && forall k | m < k < j :: !Moves(steps[k], key)
  }

  /** Of the steps from `e` on, the last that moved it before state `j` did that. */
  ghost predicate Brought(steps: seq<Step>, e: nat, j: nat, key: Key, nonce: nat) {
    exists m :: e <= m && Brings(steps, m, j, key, nonce)
  }

  /** It is the turn of that metatx, or it is too late for it. */
  predicate TurnCame(s: State, id: Id) { id in s.requests && s.requests[id].nonce <= ExpectedOf(s, s.requests[id].key) }

  lemma MovingSets(max: nat, s: State, step: Step, key: Key)
    requires Enabled(s, step)
    ensures ExpectedOf(Do(max, s, step), key) == if Moves(step, key) then step.expected else ExpectedOf(s, key)
    ensures SentOf(Do(max, s, step), key)
         == if step.ChainMoved? && step.key == key then step.pending else if step.ChainExpired? && step.key == key then 0 else SentOf(s, key)
  {
    hide MakeRoom, Surplus, Notify, Unhold, Hold, Arm, Wake;
  }

  /** What is expected comes from the last step that moved it. */
  lemma {:induction false} TheLastOneBrings(max: nat, states: seq<State>, steps: seq<Step>, e: nat, j: nat, key: Key, nonce: nat)
    requires Run(max, states, steps) && e <= j < |states| && ExpectedOf(states[e], key) < nonce
    ensures nonce <= ExpectedOf(states[j], key) <==> Brought(steps, e, j, key, nonce)
    decreases j
  {
    if e < j {
      hide Enabled, Do, Moves, ExpectedOf, Brought, Brings;
      TheLastOneBrings(max, states, steps, e, j - 1, key, nonce);
      MovingSets(max, states[j - 1], steps[j - 1], key);
      OneStepMore(steps, e, j, key, nonce);
    }
  }

  lemma OneStepMore(steps: seq<Step>, e: nat, j: nat, key: Key, nonce: nat)
    requires e < j <= |steps|
    ensures Brought(steps, e, j, key, nonce)
            <==> if Moves(steps[j - 1], key) then nonce <= steps[j - 1].expected else Brought(steps, e, j - 1, key, nonce)
  {
    if Moves(steps[j - 1], key) {
      if nonce <= steps[j - 1].expected { assert Brings(steps, j - 1, j, key, nonce); }
    } else {
      if Brought(steps, e, j, key, nonce) {
        var m :| e <= m && Brings(steps, m, j, key, nonce);
        assert Brings(steps, m, j - 1, key, nonce);
      }
      if Brought(steps, e, j - 1, key, nonce) {
        var m :| e <= m && Brings(steps, m, j - 1, key, nonce);
        assert Brings(steps, m, j, key, nonce);
      }
    }
  }

  // ---------------------------------------------------------------- the open channel

  /** A request keeps its user and its nonce. */
  lemma {:induction false} SameMetaTx(max: nat, states: seq<State>, steps: seq<Step>, i: nat, j: nat, id: Id)
    requires Run(max, states, steps) && i <= j < |states| && id in states[i].requests
    ensures id in states[j].requests
    ensures states[j].requests[id].key == states[i].requests[id].key && states[j].requests[id].nonce == states[i].requests[id].nonce
    decreases j
  {
    hide Enabled, Do;
    if i < j {
      SameMetaTx(max, states, steps, i, j - 1, id);
      StepIsOfTheSame(max, states[j - 1], steps[j - 1], id);
    }
  }

  lemma StepIsOfTheSame(max: nat, s: State, step: Step, id: Id)
    requires Enabled(s, step) && id in s.requests
    ensures var s' := Do(max, s, step);
      id in s'.requests && s'.requests[id].key == s.requests[id].key && s'.requests[id].nonce == s.requests[id].nonce
  {
    hide MakeRoom, Surplus, Notify, Unhold, Hold, Arm, Wake;
  }

  lemma OpenBeforeArrival(max: nat, s: State, step: Step, id: Id)
    requires Inv(s, max) && Enabled(s, step) && step.Arrive? && IsAsleep(Do(max, s, step).registry, id)
    ensures IsAsleep(s.registry, id) && IsEvicted(Do(max, s, step).registry, id) == IsEvicted(s.registry, id)
  {
    hide InvHeld, InvPcs, InvComplete, InvAsleep, InvCaught, InvCounts, Highest, HighestAt, Surplus;
    var pending, list := SentOf(s, step.key), ListOf(s.registry, step.key);
    assert Distinct(list);
    if Inflight(s.registry, step.key, pending) >= max {
      hide MakeRoom;
      EvictionSparesTheChain(s.registry, step.key, step.nonce, pending, max);
    }
  }

  /** An open channel is that of a request in the registry, unless it is evicted. */
  lemma OpenIsListed(max: nat, s: State, id: Id)
    requires Inv(s, max) && id in s.requests && IsAsleep(s.registry, id) && !IsEvicted(s.registry, id)
    ensures id in ListOf(s.registry, s.requests[id].key)
  {
    hide InvListed, InvCaught, InvCounts;
  }

  /** Only falling asleep opens a channel; an eviction or a notification in that step would have closed it. */
  lemma OpenBefore(max: nat, s: State, step: Step, id: Id)
    requires Inv(s, max) && Enabled(s, step) && id in s.requests && step != FallAsleep(id)
    requires IsAsleep(Do(max, s, step).registry, id)
    ensures IsAsleep(s.registry, id) && IsEvicted(Do(max, s, step).registry, id) == IsEvicted(s.registry, id)
    ensures !IsEvicted(s.registry, id) ==> !Announces(step, s.requests[id].key)
  {
    hide Inv, MakeRoom, Surplus, Without;
    if step.Arrive? {
      OpenBeforeArrival(max, s, step, id);
    } else if Announces(step, s.requests[id].key) && IsAsleep(s.registry, id) && !IsEvicted(s.registry, id) {
      OpenIsListed(max, s, id);
    }
  }

  /** The request fell asleep in step `f`, and in state `j` its channel is still open. */
  ghost predicate AsleepSince(states: seq<State>, steps: seq<Step>, f: nat, j: nat, id: Id) {
    f < j < |states| && j <= |steps| && steps[f] == FallAsleep(id) && IsAsleep(states[j].registry, id)
    && forall k | f < k < j :: steps[k] != FallAsleep(id)
  }

  /** Nobody held for that user was woken by a notification in those steps. */
  ghost predicate Unheard(steps: seq<Step>, a: nat, b: nat, key: Key) { b <= |steps| && forall k | a <= k < b :: !Announces(steps[k], key) }

  lemma JustAsleep(states: seq<State>, steps: seq<Step>, f: nat, j: nat, id: Id)
    requires AsleepSince(states, steps, f, j, id)
    ensures f < j < |states| && j <= |steps| && forall key :: Unheard(steps, j, j, key)
  {
  }

  lemma LastStep(max: nat, states: seq<State>, steps: seq<Step>, j: nat)
    requires Run(max, states, steps) && 0 < j < |states|
    ensures |states| == |steps| + 1 && Inv(states[j - 1], max)
    ensures Enabled(states[j - 1], steps[j - 1]) && states[j] == Do(max, states[j - 1], steps[j - 1])
  {
    hide Inv, Do, Enabled;
    RunKeeps(max, states, steps, j - 1);
  }

  lemma StillAsleep(max: nat, states: seq<State>, steps: seq<Step>, f: nat, j: nat, id: Id)
    requires Run(max, states, steps) && AsleepSince(states, steps, f, j, id) && id in states[f].requests && f + 1 < j < |states|
    ensures AsleepSince(states, steps, f, j - 1, id)
    ensures IsEvicted(states[j].registry, id) == IsEvicted(states[j - 1].registry, id)
    ensures !IsEvicted(states[j].registry, id) && Unheard(steps, f + 1, j - 1, states[f].requests[id].key) ==>
              Unheard(steps, f + 1, j, states[f].requests[id].key)
  {
    hide Run, Inv, Do, Enabled, IsAsleep, IsEvicted, Announces;
    LastStep(max, states, steps, j);
    SameMetaTx(max, states, steps, f, j - 1, id);
    OpenBefore(max, states[j - 1], steps[j - 1], id);
  }

  /** While it sleeps on an open channel it is neither evicted nor, if it is in the registry, notified. */
  lemma {:induction false} NothingHeard(max: nat, states: seq<State>, steps: seq<Step>, f: nat, j: nat, id: Id)
    requires Run(max, states, steps) && AsleepSince(states, steps, f, j, id) && id in states[f].requests
    ensures IsEvicted(states[j].registry, id) == IsEvicted(states[f + 1].registry, id)
    ensures !IsEvicted(states[j].registry, id) ==> Unheard(steps, f + 1, j, states[f].requests[id].key)
    decreases j
  {
    hide *;
    JustAsleep(states, steps, f, j, id);
    if f + 1 < j {
      StillAsleep(max, states, steps, f, j, id);
      NothingHeard(max, states, steps, f, j - 1, id);
    }
  }

  // ---------------------------------------------------------------- what it sleeps through

  /** In step `g` the request compared its nonce with what was expected in state `e`, and in step `f` it fell asleep. */
  ghost predicate Compared(states: seq<State>, steps: seq<Step>, e: nat, g: nat, f: nat, id: Id) {
    && e <= g < f < |steps| && |states| == |steps| + 1 && id in states[e].requests
    && steps[g] == Evaluate(id, Some(ExpectedOf(states[e], states[e].requests[id].key))) && steps[f] == FallAsleep(id)
  }

  lemma WasEarly(max: nat, states: seq<State>, steps: seq<Step>, e: nat, g: nat, f: nat, id: Id)
    requires Run(max, states, steps) && Compared(states, steps, e, g, f, id)
    ensures !TurnCame(states[e], id)
  {
    SameMetaTx(max, states, steps, e, g, id);
    assert Enabled(states[g], steps[g]) && Enabled(states[f], steps[f]);
    if TurnCame(states[e], id) {
      assert Decided(states[g + 1], id, InTurn);
      hide Run;
      DecisionStays(max, states, steps, g + 1, f, id, InTurn);
    }
  }

  /** Exactly when a held metatx sleeps on an open channel although its turn came: the last step that moved what is
      expected of its user brought it to its nonce, and that step either woke nobody, or woke everyone between the
      comparison and the moment at which this request got its channel. Where every move is announced, only the latter. */
  lemma SleepsThroughItsTurnIff(max: nat, states: seq<State>, steps: seq<Step>, e: nat, g: nat, f: nat, j: nat, id: Id)
    requires Run(max, states, steps) && Compared(states, steps, e, g, f, id) && AsleepSince(states, steps, f, j, id)
    requires !IsEvicted(states[j].registry, id)
    ensures var key, nonce := states[e].requests[id].key, states[e].requests[id].nonce;
      && (TurnCame(states[j], id)
          <==> exists m :: e <= m && Brings(steps, m, j, key, nonce) && (m < f || !Announces(steps[m], key)))
      && ((forall k | f < k < j && Moves(steps[k], key) :: Announces(steps[k], key)) ==>
            (TurnCame(states[j], id) <==> Brought(steps, e, f, key, nonce)))
  {
    var key, nonce := states[e].requests[id].key, states[e].requests[id].nonce;
    WasEarly(max, states, steps, e, g, f, id);
    SameMetaTx(max, states, steps, e, f, id);
    SameMetaTx(max, states, steps, e, j, id);
    TheLastOneBrings(max, states, steps, e, f, key, nonce);
    TheLastOneBrings(max, states, steps, e, j, key, nonce);
    NothingHeard(max, states, steps, f, j, id);
    hide Run, Compared, IsEvicted, ExpectedOf;
    OnlyBefore(steps, e, f, j, key, nonce);
  }

  lemma OnlyBefore(steps: seq<Step>, e: nat, f: nat, j: nat, key: Key, nonce: nat)
    requires e <= f < j <= |steps| && steps[f].FallAsleep? && Unheard(steps, f + 1, j, key)
    ensures Brought(steps, e, j, key, nonce)
            <==> exists m :: e <= m && Brings(steps, m, j, key, nonce) && (m < f || !Announces(steps[m], key))
    ensures (forall k | f < k < j && Moves(steps[k], key) :: Announces(steps[k], key)) ==>
              (Brought(steps, e, j, key, nonce) <==> Brought(steps, e, f, key, nonce))
  {
    if forall k | f < k < j && Moves(steps[k], key) :: Announces(steps[k], key) {
      forall m: nat ensures Brings(steps, m, j, key, nonce) <==> Brings(steps, m, f, key, nonce) { }
    }
  }

  /** Likewise for its eviction: it sleeps on an open channel though evicted exactly when it was evicted before it got
      that channel. */
  lemma SleepsThroughItsEvictionIff(max: nat, states: seq<State>, steps: seq<Step>, f: nat, j: nat, id: Id)
    requires Run(max, states, steps) && AsleepSince(states, steps, f, j, id)
    ensures IsEvicted(states[j].registry, id) <==> IsEvicted(states[f].registry, id)
  {
    assert Enabled(states[f], steps[f]);
    NothingHeard(max, states, steps, f, j, id);
  }

  /** Such a run: the chain moves between the comparison and the channel, everyone is woken, and metatx 0 falls asleep
      although its turn has come. */
  lemma TurnMissed() returns (states: seq<State>, steps: seq<Step>, s: State)
    ensures LeadsTo(1, states, steps, s)
    ensures TurnCame(s, 0) && IsAsleep(s.registry, 0) && !IsEvicted(s.registry, 0)
  {
    states, steps := FirstRound();
    s := Burst(Arming, false, false);
    hide LeadsTo;
    states, steps := Then(1, states, steps, s, ChainMoved("user", 0, 5));
    s := Do(1, s, ChainMoved("user", 0, 5));
    assert s.requests == map[0 := Request("user", 5, Arming, true)];
    states, steps := Then(1, states, steps, s, FallAsleep(0));
    s := Do(1, s, FallAsleep(0));
  }
}
