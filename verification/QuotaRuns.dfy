/** The convergence to the quota, over runs of the waiting requests: while nobody new arrives for a user and what he has
    sent stays the same, his held metatx come back to the quota whatever the interleaving, and the ones left over do
    not depend on it. */
module QuotaRuns {
  import opened Base
  import opened HeldModel
  import opened Quota
  import opened Waiting

  predicate LeavesForQuota(s: State, id: Id) { id in s.requests && s.requests[id].pc.Leaving? && s.requests[id].pc.result.TooMany? }

  /** The requests of that user that found themselves in excess and are on their way out. */
  ghost function Leavers(s: State, key: Key): set<Id> {
    set id | id in ListOf(s.registry, key) && LeavesForQuota(s, id)
  }

  /** The held metatx of that user, as the quota sees them. */
  ghost function CrowdOf(s: State, key: Key): Crowd<Id> { Crowd(ListOf(s.registry, key), Leavers(s, key)) }

  /** No arrival, registration or change of the chain of that user, and nobody of his who is registered leaves for
      another reason than the quota. Anything may happen to the others. */
  predicate Calm(s: State, step: Step, key: Key) {
    match step
    case Arrive(_, k, _) => k != key
    case Register(id) => id in s.requests && s.requests[id].key != key
    case Depart(id) => id in ListOf(s.registry, key) && id in s.requests && s.requests[id].pc.Leaving? ==> s.requests[id].pc.result.TooMany?
    case ChainMoved(k, pending, _) => k == key ==> pending == SentOf(s, key)
    case ChainExpired(k, _) => k == key ==> SentOf(s, key) == 0
    case _ => true
  }

  /** The metatx of a list have the same nonces in both registries. */
  ghost predicate SameNonces(list: seq<Id>, waiters: map<Id, Waiter>, waiters': map<Id, Waiter>) {
    forall h <- list :: h in waiters && h in waiters' && waiters'[h].nonce == waiters[h].nonce
  }

  lemma SameHighest(list: seq<Id>, waiters: map<Id, Waiter>, waiters': map<Id, Waiter>)
    requires list != [] && SameNonces(list, waiters, waiters')
    ensures HighestAt(list, waiters') == HighestAt(list, waiters)
  {
    var at, at' := HighestAt(list, waiters), HighestAt(list, waiters');
    assert list[at] in list && list[at'] in list;
  }

  // ---------------------------------------------------------------- one step

  /** The list and the leavers of a user change only by his own requests. */
  lemma CheckIsAMove(s: State, max: nat, id: Id, key: Key) returns (move: Option<Move<Id>>)
    requires Inv(s, max) && At(s, id, Checking)
    ensures var c, c' := CrowdOf(s, key), CrowdOf(DoCheckQuota(s, max, id), key);
      c' == if move.Some? then Quota.Step(c, s.registry.waiters, SentOf(s, key), max, move.value) else c
  {
    hide InvComplete, InvAsleep, InvCaught, InvCounts, HighestAt;
    var s' := DoCheckQuota(s, max, id);
    var list := ListOf(s.registry, key);
    if s.requests[id].key == key && InExcess(list, s.registry.waiters, id, SentOf(s, key), max) {
      move := Some(Check(id));
      assert id in list;
      assert Leavers(s', key) == Leavers(s, key) + {id};
    } else {
      move := None;
      assert Leavers(s', key) == Leavers(s, key);
    }
  }

  lemma DepartureIsAMove(s: State, max: nat, id: Id, key: Key) returns (move: Option<Move<Id>>)
    requires Inv(s, max) && Enabled(s, Depart(id)) && Calm(s, Depart(id), key)
    ensures var c, c' := CrowdOf(s, key), CrowdOf(DoDepart(s, id), key);
      c' == if move.Some? then Quota.Step(c, s.registry.waiters, SentOf(s, key), max, move.value) else c
  {
    hide InvComplete, InvAsleep, InvCaught, InvCounts, HighestAt;
    var s' := DoDepart(s, id);
    var list := ListOf(s.registry, key);
    if id in list {
      move := Some(Leave(id));
      assert s.requests[id].key == key && id in s.registry.waiters && s.requests[id].held;
      assert id in Leavers(s, key);
      assert ListOf(s'.registry, key) == Without(list, id);
      UnholdingCuts(s.registry, key, id);
      assert Leavers(s', key) == Leavers(s, key) - {id};
    } else {
      move := None;
      assert ListOf(s'.registry, key) == list;
      assert Leavers(s', key) == Leavers(s, key);
    }
  }

  /** A request that moves on, without having found itself in excess, does not change the crowd. */
  lemma MovingOnIsNoMove(s: State, max: nat, id: Id, pc: Pc, key: Key)
    requires Inv(s, max) && id in s.requests
    requires id in ListOf(s.registry, key) ==> !(pc.Leaving? && pc.result.TooMany?)
    requires !s.requests[id].pc.Leaving?
    ensures CrowdOf(Goto(s, id, pc), key) == CrowdOf(s, key)
  {
    assert Leavers(Goto(s, id, pc), key) == Leavers(s, key);
  }

  lemma RegistryOfOthers(s: State, s': State, key: Key)
    requires ListOf(s'.registry, key) == ListOf(s.registry, key)
    requires forall id <- ListOf(s.registry, key) :: LeavesForQuota(s', id) <==> LeavesForQuota(s, id)
    ensures CrowdOf(s', key) == CrowdOf(s, key)
  {
  }

  lemma ArrivalElsewhere(s: State, max: nat, step: Step, key: Key)
    requires Inv(s, max) && Enabled(s, step) && step.Arrive? && step.key != key
    ensures CrowdOf(Do(max, s, step), key) == CrowdOf(s, key)
    ensures SameNonces(ListOf(s.registry, key), s.registry.waiters, Do(max, s, step).registry.waiters)
  {
    hide InvComplete, InvAsleep, InvCaught, InvCounts, HighestAt;
    var s' := Do(max, s, step);
    var pending := SentOf(s, step.key);
    assert Distinct(ListOf(s.registry, step.key));
    if Inflight(s.registry, step.key, pending) >= max {
      EvictionSparesTheChain(s.registry, step.key, step.nonce, pending, max);
    }
    RegistryOfOthers(s, s', key);
  }

  lemma RegistrationElsewhere(s: State, max: nat, id: Id, key: Key)
    requires Inv(s, max) && At(s, id, Registering) && s.requests[id].key != key
    ensures CrowdOf(DoRegister(s, id), key) == CrowdOf(s, key)
    ensures SameNonces(ListOf(s.registry, key), s.registry.waiters, DoRegister(s, id).registry.waiters)
  {
    hide InvComplete, InvAsleep, InvCaught, InvCounts;
    assert id !in s.registry.waiters;
    RegistryOfOthers(s, DoRegister(s, id), key);
  }

  lemma FallingAsleepIsNoMove(s: State, max: nat, id: Id, key: Key)
    requires Inv(s, max) && At(s, id, Arming)
    ensures var s' := Goto(s.(registry := Arm(s.registry, id)), id, Asleep);
      CrowdOf(s', key) == CrowdOf(s, key) && SameNonces(ListOf(s.registry, key), s.registry.waiters, s'.registry.waiters)
  {
    hide InvComplete, InvAsleep, InvCaught, InvCounts;
    RegistryOfOthers(s, Goto(s.(registry := Arm(s.registry, id)), id, Asleep), key);
  }

  lemma WakingUpIsNoMove(s: State, max: nat, id: Id, why: Wakeup, key: Key)
    requires Inv(s, max) && At(s, id, Asleep)
    ensures var s' := DoWakeUp(s, id, why);
      CrowdOf(s', key) == CrowdOf(s, key) && SameNonces(ListOf(s.registry, key), s.registry.waiters, s'.registry.waiters)
  {
    hide InvComplete, InvAsleep, InvCaught, InvCounts;
    RegistryOfOthers(s, DoWakeUp(s, id, why), key);
  }

  lemma NotifyingIsNoMove(s: State, pending: map<Key, nat>, expected: map<Key, nat>, moved: Key, key: Key)
    ensures var s' := s.(registry := Notify(s.registry, moved), pending := pending, expected := expected);
      CrowdOf(s', key) == CrowdOf(s, key) && SameNonces(ListOf(s.registry, key), s.registry.waiters, s'.registry.waiters)
  {
    RegistryOfOthers(s, s.(registry := Notify(s.registry, moved), pending := pending, expected := expected), key);
  }

  lemma UnnoticedIsNoMove(s: State, pending: map<Key, nat>, expected: map<Key, nat>, key: Key)
    ensures CrowdOf(s.(pending := pending, expected := expected), key) == CrowdOf(s, key)
  {
    RegistryOfOthers(s, s.(pending := pending, expected := expected), key);
  }

  /** Nobody's nonce changes while he is held. */
  lemma NoncesStay(s: State, max: nat, key: Key)
    requires Inv(s, max)
    ensures SameNonces(ListOf(s.registry, key), s.registry.waiters, s.registry.waiters)
  {
  }

  lemma CalmIsAMove(max: nat, s: State, step: Step, key: Key) returns (move: Option<Move<Id>>)
    requires Inv(s, max) && Enabled(s, step) && Calm(s, step, key)
    ensures var c, c' := CrowdOf(s, key), CrowdOf(Do(max, s, step), key);
      c' == if move.Some? then Quota.Step(c, s.registry.waiters, SentOf(s, key), max, move.value) else c
    ensures SentOf(Do(max, s, step), key) == SentOf(s, key)
    ensures SameNonces(ListOf(s.registry, key), s.registry.waiters, Do(max, s, step).registry.waiters)
  {
    move := None;
    NoncesStay(s, max, key);
    hide Inv, CrowdOf, SameNonces, DoArrive, DoRegister, DoWakeUp, Hold, Arm, Notify, Quota.Step;
    match step
    case Arrive(_, _, _) => ArrivalElsewhere(s, max, step, key);
    case CheckQuota(id) => move := CheckIsAMove(s, max, id, key);
    case Depart(id) => move := DepartureIsAMove(s, max, id, key);
    case Evaluate(id, observed) => MovingOnIsNoMove(s, max, id, DoEvaluate(s, id, observed).requests[id].pc, key);
    case LookAtDeadline(id, passed) => MovingOnIsNoMove(s, max, id, if passed then Leaving(WindowExpired) else Checking, key);
    case Register(id) => RegistrationElsewhere(s, max, id, key);
    case FallAsleep(id) => FallingAsleepIsNoMove(s, max, id, key);
    case WakeUp(id, why) => WakingUpIsNoMove(s, max, id, why, key);
    case ChainMoved(k, pending, expected) => NotifyingIsNoMove(s, s.pending[k := pending], s.expected[k := expected], k, key);
    case ChainExpired(k, expected) => UnnoticedIsNoMove(s, s.pending - {k}, s.expected[k := expected], key);
    case HubMoved(k, expected) => UnnoticedIsNoMove(s, s.pending, s.expected[k := expected], key);
  }

  // ---------------------------------------------------------------- over runs

  lemma SameStep(c: Crowd<Id>, waiters: map<Id, Waiter>, waiters': map<Id, Waiter>, pending: nat, max: nat, move: Move<Id>)
    requires SameNonces(c.list, waiters, waiters')
    ensures Quota.Step(c, waiters', pending, max, move) == Quota.Step(c, waiters, pending, max, move)
  {
    if c.list != [] { SameHighest(c.list, waiters, waiters'); }
  }

  /** Between two states of a run with only calm steps in between, for one user. */
  ghost predicate CalmBetween(max: nat, states: seq<State>, steps: seq<Step>, i: nat, j: nat, key: Key) {
    && Run(max, states, steps) && i <= j < |states|
    && (forall k | i <= k < j :: Calm(states[k], steps[k], key))
    && Leavers(states[i], key) == {}
  }

  /** What such a stretch keeps: only the highest have left, at most the next one is on its way, and nonces and what
      was sent are as they were. */
  ghost predicate Trimming(s: State, s': State, key: Key, max: nat, n: nat) {
    && SentOf(s', key) == SentOf(s, key)
    && (forall h <- ListOf(s'.registry, key) :: h in ListOf(s.registry, key))
    && SameNonces(ListOf(s'.registry, key), s.registry.waiters, s'.registry.waiters)
    && Trimmed(ListOf(s.registry, key), CrowdOf(s', key), s.registry.waiters, SentOf(s, key), max, n)
  }

  lemma TrimmingGoesOn(s: State, t: State, t': State, key: Key, max: nat, n: nat, move: Option<Move<Id>>) returns (n': nat)
    requires Trimming(s, t, key, max, n) && Distinct(ListOf(s.registry, key))
    requires SentOf(t', key) == SentOf(t, key) && SameNonces(ListOf(t.registry, key), t.registry.waiters, t'.registry.waiters)
    requires CrowdOf(t', key)
          == if move.Some? then Quota.Step(CrowdOf(t, key), t.registry.waiters, SentOf(t, key), max, move.value) else CrowdOf(t, key)
    ensures Trimming(s, t', key, max, n')
  {
    hide Distinct, Leavers, Trimmed;
    n' := n;
    if move.Some? {
      SameStep(CrowdOf(t, key), s.registry.waiters, t.registry.waiters, SentOf(s, key), max, move.value);
      n' := StepTrims(ListOf(s.registry, key), CrowdOf(t, key), s.registry.waiters, SentOf(s, key), max, n, move.value);
    }
    assert CrowdOf(t', key).list == ListOf(t'.registry, key);
  }

  lemma {:induction false} StretchTrims(max: nat, states: seq<State>, steps: seq<Step>, i: nat, j: nat, key: Key) returns (n: nat)
    requires CalmBetween(max, states, steps, i, j, key)
    ensures Trimming(states[i], states[j], key, max, n)
    decreases j - i
  {
    RunKeeps(max, states, steps, i);
    if i == j {
      NoncesStay(states[i], max, key);
      n := 0;
    } else {
      n := StretchTrims(max, states, steps, i, j - 1, key);
      RunKeeps(max, states, steps, j - 1);
      assert Calm(states[j - 1], steps[j - 1], key);
      ListIsDistinct(states[i], max, key);
      hide Trimming, CrowdOf, Inv;
      var move := CalmIsAMove(max, states[j - 1], steps[j - 1], key);
      n := TrimmingGoesOn(states[i], states[j - 1], states[j], key, max, n, move);
    }
  }

  lemma ListIsDistinct(s: State, max: nat, key: Key)
    requires Inv(s, max)
    ensures Distinct(ListOf(s.registry, key))
  {
  }

  /** Whatever the interleaving of a burst that went over the quota: once nobody of that user is in excess or on his way
      out, exactly the highest min(excess, held) have left, by nonce and arrival, and the others kept their places. */
  lemma BurstConverges(max: nat, states: seq<State>, steps: seq<Step>, i: nat, j: nat, key: Key)
    requires CalmBetween(max, states, steps, i, j, key)
    requires Leavers(states[j], key) == {}
    requires var rest := ListOf(states[j].registry, key); |rest| + SentOf(states[j], key) <= max || rest == []
    ensures var list, rest := ListOf(states[i].registry, key), ListOf(states[j].registry, key);
      && rest == Trim(list, states[i].registry.waiters, Min(Excess(list, SentOf(states[i], key), max), |list|))
      && TopRemoved(list, states[i].registry.waiters, rest)
  {
    var n := StretchTrims(max, states, steps, i, j, key);
    RunKeeps(max, states, steps, i);
    ListIsDistinct(states[i], max, key);
    hide Inv, CalmBetween, Distinct, TopRemoved, Trim, HighestAt;
    var list := ListOf(states[i].registry, key);
    RestIsFull(list, CrowdOf(states[j], key), states[i].registry.waiters, SentOf(states[i], key), max, n);
    TrimRemovesTheHighest(list, states[i].registry.waiters, n);
  }

  /** And until then only the highest ever leave. */
  lemma OnlyTheHighestLeave(max: nat, states: seq<State>, steps: seq<Step>, i: nat, j: nat, key: Key) returns (n: nat)
    requires CalmBetween(max, states, steps, i, j, key)
    ensures var list, rest := ListOf(states[i].registry, key), ListOf(states[j].registry, key);
      && n <= Min(Excess(list, SentOf(states[i], key), max), |list|)
      && rest == Trim(list, states[i].registry.waiters, n) && TopRemoved(list, states[i].registry.waiters, rest)
  {
    n := StretchTrims(max, states, steps, i, j, key);
    RunKeeps(max, states, steps, i);
    ListIsDistinct(states[i], max, key);
    hide Inv, CalmBetween, Distinct, TopRemoved, Trim, HighestAt;
    TrimRemovesTheHighest(ListOf(states[i].registry, key), states[i].registry.waiters, n);
  }
}
