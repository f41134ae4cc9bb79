/** The requests waiting for their turn and the registry they share, as a state machine: one step is one critical
    section of one request, so every interleaving of arrivals, wake-ups, evictions and departures is a run.
    A request registers at most once, so its identity is also that of its held metatx. */
module Waiting {
  import opened Base
  import opened HeldModel

  type Id = nat

  /** How a request leaves the wait. With the first two the metatx goes on to be sent. */
  datatype Result = InTurn | WindowExpired | TooMany(count: nat) | ClientGone | NodeFailed

  /** Where a request stands: before the comparison with the expected nonce, about to register, about to look at
      its deadline, about to compare itself with the quota, about to get its wake channel, asleep on it, with its
      outcome decided but still registered, or gone. */
  datatype Pc = Evaluating | Registering | Timing | Checking | Arming | Asleep | Leaving(result: Result) | Done(result: Result)

  /** `held` says that the metatx was registered. */
  datatype Request = Request(key: Key, nonce: nat, pc: Pc, held: bool)

  type Registry = r: Held<Id> | r.Known() witness Held(map[], map[])

  type Requests = map<Id, Request>

  /** `pending` and `expected` are what the chain of each user has in flight and what would be answered if his expected
      nonce were asked for now; `caught` only records which metatx were evicted once they could not turn back to be sent. */
  datatype State = State(registry: Registry, requests: Requests, pending: map<Key, nat>, expected: map<Key, nat>, caught: set<Id>)

  datatype Wakeup = Signalled | TimedOut | ContextDone

  datatype Step =
    | Arrive(id: Id, key: Key, nonce: nat)
    | Evaluate(id: Id, observed: Option<nat>)
    | Register(id: Id)
    | LookAtDeadline(id: Id, passed: bool)
    | CheckQuota(id: Id)
    | FallAsleep(id: Id)
    | WakeUp(id: Id, why: Wakeup)
    | Depart(id: Id)
    // the chain of a user moved: it is whatever it is now, and his held metatx are woken
    | ChainMoved(key: Key, pending: nat, expected: nat)
    // the chain of a user is dropped, past its TTL or by grace, and nobody is woken: the hub is asked from now on
    | ChainExpired(key: Key, expected: nat)
    // the hub moved under a user without a chain, and nobody is woken
    | HubMoved(key: Key, expected: nat)

  /** The service starts with nothing in memory; users may have any history at the hub. */
  function Init(expected: map<Key, nat>): State { State(Held(map[], map[]), map[], map[], expected, {}) }

  function ExpectedOf(s: State, key: Key): nat { if key in s.expected then s.expected[key] else 0 }

  /** What the chain of that user has in flight. */
  function SentOf(s: State, key: Key): nat { if key in s.pending then s.pending[key] else 0 }

  predicate At(s: State, id: Id, pc: Pc) { id in s.requests && s.requests[id].pc == pc }

  function Goto(s: State, id: Id, pc: Pc): State
    requires id in s.requests
  {
    s.(requests := s.requests[id := s.requests[id].(pc := pc)])
  }

  /** The metatx has an open wake channel. */
  predicate IsAsleep(r: Registry, id: Id) { id in r.waiters && r.waiters[id].asleep }

  predicate IsEvicted(r: Registry, id: Id) { id in r.waiters && r.waiters[id].evicted }

  /** The request looks at the quota, or sleeps, before it looks at the expected nonce again. */
  predicate Bound(pc: Pc) { pc.Checking? || pc.Arming? || pc.Asleep? }

  predicate Enabled(s: State, step: Step) {
    match step
    case Arrive(id, _, _) => id !in s.requests
    case Evaluate(id, _) => At(s, id, Evaluating)
    case Register(id) => At(s, id, Registering)
    case LookAtDeadline(id, _) => At(s, id, Timing)
    case CheckQuota(id) => At(s, id, Checking)
    case FallAsleep(id) => At(s, id, Arming)
    case WakeUp(id, why) => At(s, id, Asleep) && (why.Signalled? ==> !IsAsleep(s.registry, id))
    case Depart(id) => id in s.requests && s.requests[id].pc.Leaving?
    case _ => true
  }

  /** The gate: the arriving metatx is rejected, admitted, or admitted in the place of a held one. */
  function DoArrive(s: State, max: nat, id: Id, key: Key, nonce: nat): State {
    var (registry, count, admitted) := MakeRoom(s.registry, key, nonce, SentOf(s, key), max);
    s.(registry := registry,
       requests := s.requests[id := Request(key, nonce, if admitted then Evaluating else Leaving(TooMany(count)), false)],
       caught := s.caught + set h | h in ListOf(s.registry, key) && IsEvicted(registry, h) && h in s.requests && Bound(s.requests[h].pc))
  }

  function DoEvaluate(s: State, id: Id, observed: Option<nat>): State
    requires id in s.requests
  {
    var req := s.requests[id];
    Goto(s, id, if observed.None? then Leaving(NodeFailed)
                else if req.nonce <= observed.value then Leaving(InTurn)
                else if req.held then Timing
                else Registering)
  }

  function DoRegister(s: State, id: Id): State
    requires id in s.requests
  {
    var req := s.requests[id];
    s.(registry := Hold(s.registry, req.key, id, req.nonce), requests := s.requests[id := req.(pc := Timing, held := true)])
  }

  function DoCheckQuota(s: State, max: nat, id: Id): State
    requires id in s.requests
  {
    var key := s.requests[id].key;
    var (count, surplus) := Surplus(s.registry, key, id, SentOf(s, key), max);
    Goto(s, id, if surplus then Leaving(TooMany(count)) else Arming)
  }

  /** The request stops being asleep, and learns in the same critical section whether it was evicted; a client
      that went away is not asked. */
  function DoWakeUp(s: State, id: Id, why: Wakeup): State
    requires id in s.requests
  {
    var t := s.(registry := Wake(s.registry, id));
    if why.ContextDone? then Goto(t, id, Leaving(ClientGone))
    else if IsEvicted(s.registry, id) then Goto(t, id, Leaving(TooMany(s.registry.waiters[id].evictedInflight)))
    else Goto(t, id, Evaluating)
  }

  /** release: a metatx that was never held leaves no trace. */
  function DoDepart(s: State, id: Id): State
    requires id in s.requests && s.requests[id].pc.Leaving?
  {
    var req := s.requests[id];
    var t := Goto(s, id, Done(req.pc.result));
    if req.held then t.(registry := Unhold(s.registry, req.key, id)) else t
  }

  function Do(max: nat, s: State, step: Step): State
    requires Enabled(s, step)
  {
    match step
    case Arrive(id, key, nonce) => DoArrive(s, max, id, key, nonce)
    case Evaluate(id, observed) => DoEvaluate(s, id, observed)
    case Register(id) => DoRegister(s, id)
    case LookAtDeadline(id, passed) => Goto(s, id, if passed then Leaving(WindowExpired) else Checking)
    case CheckQuota(id) => DoCheckQuota(s, max, id)
    case FallAsleep(id) => Goto(s.(registry := Arm(s.registry, id)), id, Asleep)
    case WakeUp(id, why) => DoWakeUp(s, id, why)
    case Depart(id) => DoDepart(s, id)
    case ChainMoved(key, pending, expected) =>
      s.(registry := Notify(s.registry, key), pending := s.pending[key := pending], expected := s.expected[key := expected])
    case ChainExpired(key, expected) => s.(pending := s.pending - {key}, expected := s.expected[key := expected])
    case HubMoved(key, expected) => s.(expected := s.expected[key := expected])
  }

  // ---------------------------------------------------------------- invariants

  /** Every held metatx is that of a request, which is inside the wait or has left it. */
  ghost predicate InvHeld(r: Registry, requests: Requests) {
    forall id :: id in r.waiters <==> id in requests && requests[id].held
  }

  /** A request knows whether it was registered from where it stands. */
  ghost predicate InvPcs(requests: Requests) {
    forall id <- requests ::
      var pc := requests[id].pc;
      && (pc.Registering? ==> !requests[id].held)
      && (pc.Timing? || pc.Checking? || pc.Arming? || pc.Asleep? ==> requests[id].held)
  }

  /** The registry holds, once each, the requests of that user inside the wait that were not evicted. */
  ghost predicate InvListed(r: Registry, requests: Requests) {
    forall k <- r.lists ::
      && r.lists[k] != [] && Distinct(r.lists[k])
      && (forall id <- r.lists[k] :: !IsEvicted(r, id) && id in requests && requests[id].key == k && !requests[id].pc.Done?)
  }

  ghost predicate InvComplete(r: Registry, requests: Requests) {
    forall id <- requests | requests[id].held && !requests[id].pc.Done? ::
      IsEvicted(r, id) || id in ListOf(r, requests[id].key)
  }

  /** Only a request that sleeps has a wake channel. */
  ghost predicate InvAsleep(r: Registry, requests: Requests) {
    forall id <- requests | IsAsleep(r, id) :: requests[id].pc.Asleep?
  }

  predicate TurnedAway(pc: Pc) {
    (pc.Leaving? || pc.Done?) && (pc.result.TooMany? || pc.result.ClientGone?)
  }

  /** A metatx evicted at such a point is still on its way to learn it, or its request has been turned away. */
  ghost predicate InvCaught(r: Registry, requests: Requests, caught: set<Id>) {
    forall id <- caught :: IsEvicted(r, id) && id in requests && (Bound(requests[id].pc) || TurnedAway(requests[id].pc))
  }

  /** A rejection for the quota reports at least the quota. */
  ghost predicate InvCounts(r: Registry, requests: Requests, max: nat) {
    && (forall id <- requests ::
          var pc := requests[id].pc;
          (pc.Leaving? || pc.Done?) && pc.result.TooMany? ==> pc.result.count >= max)
    && (forall id <- r.waiters | r.waiters[id].evicted :: r.waiters[id].evictedInflight >= max)
  }

  ghost predicate Inv(s: State, max: nat) {
    && InvHeld(s.registry, s.requests) && InvPcs(s.requests)
    && InvListed(s.registry, s.requests) && InvComplete(s.registry, s.requests) && InvAsleep(s.registry, s.requests)
    && InvCaught(s.registry, s.requests, s.caught) && InvCounts(s.registry, s.requests, max)
  }

  // ---------------------------------------------------------------- preservation

  /** A request moves on without touching the registry. */
  lemma GotoKeeps(s: State, max: nat, id: Id, pc: Pc)
    requires Inv(s, max) && id in s.requests && !s.requests[id].pc.Asleep? && !s.requests[id].pc.Done? && !pc.Done?
    requires pc.Timing? || pc.Checking? || pc.Arming? || pc.Asleep? ==> s.requests[id].held
    requires pc.Registering? ==> !s.requests[id].held
    requires pc.Leaving? && pc.result.TooMany? ==> pc.result.count >= max
    requires TurnedAway(s.requests[id].pc) ==> TurnedAway(pc)
    requires Bound(s.requests[id].pc) ==> Bound(pc) || TurnedAway(pc)
    ensures Inv(Goto(s, id, pc), max)
  {
  }

  lemma EvictionKeeps(r: Registry, r': Registry, requests: Requests, key: Key, at: nat, count: nat)
    requires InvHeld(r, requests) && InvListed(r, requests) && InvComplete(r, requests) && InvAsleep(r, requests)
    requires at < |ListOf(r, key)|
    requires ListOf(r', key) == ListOf(r, key)[..at] + ListOf(r, key)[at + 1..]
    requires r'.waiters == r.waiters[ListOf(r, key)[at] := Waiter(r.waiters[ListOf(r, key)[at]].nonce, false, true, count)]
    requires forall k | k != key :: ListOf(r', k) == ListOf(r, k)
    requires forall k <- r'.lists :: r'.lists[k] != []
    ensures InvHeld(r', requests) && InvListed(r', requests) && InvComplete(r', requests) && InvAsleep(r', requests)
  {
    var victim := ListOf(r, key)[at];
    assert victim !in ListOf(r', key);
    forall k <- r'.lists
      ensures Distinct(r'.lists[k])
      ensures forall id <- r'.lists[k] :: !IsEvicted(r', id) && id in requests && requests[id].key == k && !requests[id].pc.Done?
    {
      assert r'.lists[k] == ListOf(r', k);
      assert k in r.lists && ListOf(r, k) == r.lists[k];
      assert requests[victim].key == key;
    }
    forall id <- requests | requests[id].held && !requests[id].pc.Done?
      ensures IsEvicted(r', id) || id in ListOf(r', requests[id].key)
    {
      if id != victim && requests[id].key == key && id in ListOf(r, key) {
        assert id in ListOf(r, key)[..at] + ListOf(r, key)[at + 1..];
      }
    }
  }

  /** Some held metatx lost their wake channel, and nothing else changed in the registry. */
  ghost predicate OnlyWakes(r: Registry, r': Registry) {
    && r'.lists == r.lists && r'.waiters.Keys == r.waiters.Keys
    && forall id <- r.waiters :: r'.waiters[id] == r.waiters[id] || r'.waiters[id] == r.waiters[id].(asleep := false)
  }

  lemma WakingKeeps(s: State, r: Registry, max: nat)
    requires Inv(s, max) && OnlyWakes(s.registry, r)
    ensures Inv(s.(registry := r), max)
  {
  }

  /** A request that slept goes on, awake: to its next round unless it was evicted, or away. */
  lemma WakeUpKeeps(s: State, max: nat, id: Id, why: Wakeup)
    requires Inv(s, max) && At(s, id, Asleep)
    ensures Inv(DoWakeUp(s, id, why), max)
  {
    var r := Wake(s.registry, id);
    WakingKeeps(s, r, max);
    AwakeKeeps(s.(registry := r), max, id, DoWakeUp(s, id, why).requests[id].pc);
  }

  lemma AwakeKeeps(s: State, max: nat, id: Id, pc: Pc)
    requires Inv(s, max) && At(s, id, Asleep) && !IsAsleep(s.registry, id)
    requires pc.Evaluating? || (TurnedAway(pc) && pc.Leaving?)
    requires pc.Leaving? && pc.result.TooMany? ==> pc.result.count >= max
    requires IsEvicted(s.registry, id) ==> TurnedAway(pc)
    ensures Inv(Goto(s, id, pc), max)
  {
  }

  lemma RegisteringLists(r: Registry, requests: Requests, id: Id)
    requires InvHeld(r, requests) && InvListed(r, requests) && InvComplete(r, requests)
    requires id in requests && requests[id].pc.Registering? && !requests[id].held
    ensures var req := requests[id];
      var r', requests' := Hold(r, req.key, id, req.nonce), requests[id := req.(pc := Timing, held := true)];
      InvHeld(r', requests') && InvListed(r', requests') && InvComplete(r', requests')
  {
  }

  lemma RegisterKeeps(s: State, max: nat, id: Id)
    requires Inv(s, max) && At(s, id, Registering)
    ensures Inv(DoRegister(s, id), max)
  {
    hide InvListed, InvComplete;
    RegisteringLists(s.registry, s.requests, id);
    assert id !in s.registry.waiters;
    hide InvHeld;
  }

  lemma ArmKeeps(s: State, max: nat, id: Id)
    requires Inv(s, max) && At(s, id, Arming)
    ensures Inv(Goto(s.(registry := Arm(s.registry, id)), id, Asleep), max)
  {
  }

  /** Unholding cuts that metatx out of that list, and leaves no list empty. */
  lemma UnholdingCuts(r: Registry, key: Key, id: Id)
    requires forall k <- r.lists :: r.lists[k] != [] && Distinct(r.lists[k])
    ensures var r' := Unhold(r, key, id);
      && r'.waiters == r.waiters && Distinct(ListOf(r', key)) && (forall k <- r'.lists :: r'.lists[k] != [])
      && (forall g :: g in ListOf(r', key) <==> g in ListOf(r, key) && g != id)
      && (forall k | k != key :: ListOf(r', k) == ListOf(r, k))
  {
    var list := ListOf(r, key);
    if id in list {
      var at :| 0 <= at < |list| && list[at] == id;
      WithoutAt(list, at);
      CuttingOne(list, at);
    }
    hide Distinct, Without;
  }

  lemma DepartingUnlists(r: Registry, requests: Requests, id: Id, result: Result)
    requires id in requests && requests[id].held
    requires InvListed(r, requests) && InvComplete(r, requests)
    ensures var requests' := requests[id := requests[id].(pc := Done(result))];
      var r' := Unhold(r, requests[id].key, id);
      InvListed(r', requests') && InvComplete(r', requests')
  {
    hide Distinct, Unhold;
    var key := requests[id].key;
    var r' := Unhold(r, key, id);
    UnholdingCuts(r, key, id);
    assert forall k <- r'.lists :: r'.lists[k] == ListOf(r', k);
    assert forall k <- r.lists :: r.lists[k] == ListOf(r, k);
  }

  lemma UnheldDeparts(r: Registry, requests: Requests, id: Id, result: Result)
    requires id in requests && !requests[id].held
    requires InvHeld(r, requests) && InvListed(r, requests) && InvComplete(r, requests)
    ensures var requests' := requests[id := requests[id].(pc := Done(result))];
      InvListed(r, requests') && InvComplete(r, requests')
  {
  }

  /** Leaving takes the metatx out of a list at most, and changes nobody's place in the wait but its own. */
  lemma DepartingKeepsRest(s: State, max: nat, id: Id)
    requires Inv(s, max) && id in s.requests && s.requests[id].pc.Leaving?
    ensures var s' := DoDepart(s, id);
      && InvHeld(s'.registry, s'.requests) && InvPcs(s'.requests) && InvAsleep(s'.registry, s'.requests)
      && InvCaught(s'.registry, s'.requests, s'.caught) && InvCounts(s'.registry, s'.requests, max)
  {
    hide InvListed, InvComplete, Without;
  }

  lemma DepartKeeps(s: State, max: nat, id: Id)
    requires Inv(s, max) && id in s.requests && s.requests[id].pc.Leaving?
    ensures Inv(DoDepart(s, id), max)
  {
    hide InvHeld, InvPcs, InvListed, InvComplete, InvAsleep, InvCaught, InvCounts, Unhold;
    var result := s.requests[id].pc.result;
    DepartingKeepsRest(s, max, id);
    if s.requests[id].held { DepartingUnlists(s.registry, s.requests, id, result); }
    else { UnheldDeparts(s.registry, s.requests, id, result); }
  }

  /** Those whom an eviction catches. */
  ghost function CaughtBy(s: State, key: Key, r: Registry): set<Id> {
    set h | h in ListOf(s.registry, key) && IsEvicted(r, h) && h in s.requests && Bound(s.requests[h].pc)
  }

  lemma EvictingArrivalIs(s: State, max: nat, id: Id, key: Key, nonce: nat, r: Registry, count: nat)
    requires (r, count, true) == MakeRoom(s.registry, key, nonce, SentOf(s, key), max)
    ensures DoArrive(s, max, id, key, nonce)
         == s.(registry := r, requests := s.requests[id := Request(key, nonce, Evaluating, false)], caught := s.caught + CaughtBy(s, key, r))
  {
  }

  /** An arrival that evicts: it is admitted in the place of the highest. */
  lemma EvictingArrivalKeeps(s: State, max: nat, id: Id, key: Key, nonce: nat, r: Registry, count: nat)
    requires Inv(s, max) && id !in s.requests && count >= max
    requires (r, count, true) == MakeRoom(s.registry, key, nonce, SentOf(s, key), max)
    ensures Inv(DoArrive(s, max, id, key, nonce), max)
  {
    EvictingArrivalIs(s, max, id, key, nonce, r, count);
    hide DoArrive;
    var list := ListOf(s.registry, key);
    assert Distinct(list);
    EvictionSparesTheChain(s.registry, key, nonce, SentOf(s, key), max);
    var at := HighestAt(list, s.registry.waiters);
    var req := Request(key, nonce, Evaluating, false);
    hide InvHeld, InvListed, InvComplete, InvAsleep, InvCaught, InvCounts, InvPcs, MakeRoom, HighestAt, Distinct;
    EvictionKeeps(s.registry, r, s.requests, key, at, count);
    EvictionKeepsCaught(s, max, r, key, at, count, id, req);
    NewcomerKeeps(s.registry, r, s.requests, id, req);
  }

  lemma ArriveKeeps(s: State, max: nat, id: Id, key: Key, nonce: nat)
    requires Inv(s, max) && id !in s.requests
    ensures Inv(DoArrive(s, max, id, key, nonce), max)
  {
    var (r, count, admitted) := MakeRoom(s.registry, key, nonce, SentOf(s, key), max);
    if count >= max && admitted {
      EvictingArrivalKeeps(s, max, id, key, nonce, r, count);
    } else {
      assert r == s.registry && (admitted || count >= max);
      var s' := DoArrive(s, max, id, key, nonce);
      hide InvHeld, InvListed, InvComplete, InvAsleep, InvCaught, InvCounts, InvPcs, MakeRoom;
      NobodyCaught(s, max, key, count, id, s'.requests[id], s'.caught);
      NewcomerKeeps(s.registry, r, s.requests, id, s'.requests[id]);
    }
  }

  lemma EvictionKeepsCaught(s: State, max: nat, r: Registry, key: Key, at: nat, count: nat, id: Id, req: Request)
    requires Inv(s, max) && id !in s.requests && req.pc.Evaluating? && !req.held && count >= max
    requires at < |ListOf(s.registry, key)|
    requires var victim := ListOf(s.registry, key)[at];
      r.waiters == s.registry.waiters[victim := Waiter(s.registry.waiters[victim].nonce, false, true, count)]
    ensures InvPcs(s.requests[id := req]) && InvCaught(r, s.requests[id := req], s.caught + CaughtBy(s, key, r))
    ensures InvCounts(r, s.requests[id := req], max)
  {
  }

  lemma NobodyCaught(s: State, max: nat, key: Key, count: nat, id: Id, req: Request, caught: set<Id>)
    requires Inv(s, max) && id !in s.requests && !req.held
    requires req.pc.Evaluating? || (req.pc == Leaving(TooMany(count)) && count >= max)
    requires caught == s.caught + set h | h in ListOf(s.registry, key) && IsEvicted(s.registry, h) && h in s.requests && Bound(s.requests[h].pc)
    ensures InvPcs(s.requests[id := req]) && InvCounts(s.registry, s.requests[id := req], max)
    ensures InvCaught(s.registry, s.requests[id := req], caught)
  {
  }

  lemma NewcomerKeeps(r: Registry, r': Registry, requests: Requests, id: Id, req: Request)
    requires id !in requests && !req.held && !req.pc.Done?
    requires InvHeld(r', requests) && InvListed(r', requests) && InvComplete(r', requests) && InvAsleep(r', requests)
    ensures var requests' := requests[id := req];
      InvHeld(r', requests') && InvListed(r', requests') && InvComplete(r', requests') && InvAsleep(r', requests')
  {
  }

  lemma MovedKeeps(s: State, max: nat, key: Key, pending: map<Key, nat>, expected: map<Key, nat>)
    requires Inv(s, max)
    ensures Inv(s.(registry := Notify(s.registry, key), pending := pending, expected := expected), max)
  {
  }

  /** Every step of every interleaving keeps the invariant. */
  lemma StepKeeps(max: nat, s: State, step: Step)
    requires Inv(s, max) && Enabled(s, step)
    ensures Inv(Do(max, s, step), max)
  {
    hide InvHeld, InvListed, InvComplete, InvAsleep, InvCaught, InvCounts;
    match step
    case Arrive(id, key, nonce) => ArriveKeeps(s, max, id, key, nonce);
    case Evaluate(id, observed) => GotoKeeps(s, max, id, DoEvaluate(s, id, observed).requests[id].pc);
    case Register(id) => RegisterKeeps(s, max, id);
    case LookAtDeadline(id, passed) => GotoKeeps(s, max, id, if passed then Leaving(WindowExpired) else Checking);
    case CheckQuota(id) => GotoKeeps(s, max, id, DoCheckQuota(s, max, id).requests[id].pc);
    case FallAsleep(id) => ArmKeeps(s, max, id);
    case WakeUp(id, why) => WakeUpKeeps(s, max, id, why);
    case Depart(id) => DepartKeeps(s, max, id);
    case ChainMoved(key, pending, expected) => MovedKeeps(s, max, key, s.pending[key := pending], s.expected[key := expected]);
    case _ =>
  }

  // ---------------------------------------------------------------- over whole runs

  ghost predicate Run(max: nat, states: seq<State>, steps: seq<Step>) {
    && |states| == |steps| + 1
    && states[0] == Init(states[0].expected)
    && (forall i | 0 <= i < |steps| :: Enabled(states[i], steps[i]) && states[i + 1] == Do(max, states[i], steps[i]))
  }

  lemma {:induction false} RunKeeps(max: nat, states: seq<State>, steps: seq<Step>, i: nat)
    requires Run(max, states, steps) && i < |states|
    ensures Inv(states[i], max)
  {
    if i > 0 {
      hide Inv, Do;
      RunKeeps(max, states, steps, i - 1);
      StepKeeps(max, states[i - 1], steps[i - 1]);
    }
  }

  /** In every reachable state the list of a user is not empty, names each metatx once, and names exactly those
      requests of his that registered, are still inside the wait and were not evicted. */
  lemma RegistryIsExact(max: nat, states: seq<State>, steps: seq<Step>, i: nat)
    requires Run(max, states, steps) && i < |states|
    ensures var s := states[i];
      && (forall k <- s.registry.lists :: s.registry.lists[k] != [] && Distinct(s.registry.lists[k]))
      && (forall k, id :: id in ListOf(s.registry, k)
            <==> id in s.requests && s.requests[id].key == k && s.requests[id].held && !s.requests[id].pc.Done?
                 && !IsEvicted(s.registry, id))
  {
    RunKeeps(max, states, steps, i);
  }

  /** A request that left the wait, for whatever reason, is registered nowhere. */
  lemma ExitsLeaveNothingBehind(max: nat, states: seq<State>, steps: seq<Step>, i: nat, id: Id)
    requires Run(max, states, steps) && i < |states| && id in states[i].requests && states[i].requests[id].pc.Done?
    ensures forall k :: id !in ListOf(states[i].registry, k)
  {
    RunKeeps(max, states, steps, i);
  }

  /** Every rejection for the quota, at the gate, in the wait or by eviction, reports at least the quota. */
  lemma RejectionsReportTheQuota(max: nat, states: seq<State>, steps: seq<Step>, i: nat, id: Id)
    requires Run(max, states, steps) && i < |states| && id in states[i].requests
    requires var pc := states[i].requests[id].pc; pc.Done? && pc.result.TooMany?
    ensures states[i].requests[id].pc.result.count >= max
  {
    RunKeeps(max, states, steps, i);
  }
}
