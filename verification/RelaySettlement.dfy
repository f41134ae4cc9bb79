/** The settlement of the service's own objects is made of the steps of the runs, and starts from what every run keeps:
    the slots that the memory still carries are counted. */
module RelaySettlement {
  import opened Base
  import opened ChainModel
  import opened HeldModel
  import opened Relay
  import opened RelayRuns
  import opened Settlement
  import opened WatcherPass
  import Correlation

  /** A state of a run, as settling sees it; the registry of held metatx is not part of these runs. */
  ghost function AsService<H>(s: State, held: Held<H>): (r: Service<ChainId, H>)
    requires held.Known()
    ensures r.Known()
  {
    Service(s.store.memos, s.tracker, held)
  }

  /** In every reachable state the slots carried by the memory are counted by their chains. */
  lemma ReachableIsCovered<H>(cfg: Config, states: seq<State>, steps: seq<Step>, i: nat, held: Held<H>)
    requires Run(cfg, states, steps) && i < |states| && held.Known()
    ensures Covered(AsService(states[i], held))
  {
    RunKeeps(cfg, states, steps, i);
    InvCovers(states[i], held);
  }

  lemma InvCovers<H>(s: State, held: Held<H>)
    requires Inv(s) && held.Known()
    ensures Covered(AsService(s, held))
  {
    hide InvTrails, InvLocks, InvTurn, InvFlying, InvRejected, InvGivenUp, InvPlaces;
    forall k <- s.tracker.current
      ensures |Correlation.Carrying(s.store.memos, s.tracker.current[k])| <= s.tracker.fields[s.tracker.current[k]].pending
    {
      var c := s.tracker.current[k];
      assert forall h <- Correlation.Carrying(s.store.memos, c) :: Open(s.log, h, c);
      Correlation.FewerIsSmaller(Correlation.Carrying(s.store.memos, c), s.log[c].open);
    }
  }

  /** So a pass of the watcher over any reachable state gives back exactly one slot for each transaction it gives up. */
  lemma PassOverAReachableState<H>(cfg: Config, states: seq<State>, steps: seq<Step>, i: nat, held: Held<H>,
                                   items: seq<Correlation.InFlightMetaTx<ChainId>>, n: nat, answers: Hash -> Answer,
                                   times: Hash -> Timing, timeout: nat)
    requires Run(cfg, states, steps) && i < |states| && held.Known()
    requires Correlation.Snapshot(states[i].store.memos, items) && n < |items|
    requires forall item <- items :: InTime(item, times(item.hash))
    requires var item := items[n]; !answers(item.hash).Receipt? && Overdue(item, times(item.hash), timeout)
    ensures var s := AsService(states[i], held);
      var before := Passed(s, items, n, answers, times, timeout, cfg.grace).chains;
      var after := Passed(s, items, n + 1, answers, times, timeout, cfg.grace).chains;
      var key, c := items[n].senderKey, items[n].chain;
      if key != "" && key in before.current && before.current[key] == c then
        before.fields[c].pending > 0 && c in after.fields && after.fields[c].pending == before.fields[c].pending - 1
      else after == before
  {
    ReachableIsCovered(cfg, states, steps, i, held);
    hide *;
    GivingUpLowersByOne(AsService(states[i], held), items, n, answers, times, timeout, cfg.grace);
  }

  // ---------------------------------------------------------------- settling is three steps

  /** Claiming, taking the slot and giving it back, one step each; a loser stops after the first, and what the hub
      refused, or what was filed under no user, is not given back. */
  function InThreeSteps(cfg: Config, s: State, i: nat): State
    requires i in s.store.settlers && s.store.settlers[i].Verdict?
  {
    var v := s.store.settlers[i];
    if !Correlation.Wins(s.store.memos, v.hash) then Do(cfg, s, Claim(i))
    else
      var taken := Do(cfg, Do(cfg, s, Claim(i)), Take(i));
      if Correlation.SlotOf(s.store.memos, v.hash).Some? && !v.rejected && s.store.memos[v.hash].senderKey != ""
      then Do(cfg, taken, Apply(v.hash)) else taken
  }

  lemma ClaimThenTake(st: Store, i: nat)
    requires i in st.settlers && st.settlers[i].Verdict? && Correlation.Wins(st.memos, st.settlers[i].hash)
    ensures i in DoClaim(st, i).settlers && DoClaim(st, i).settlers[i].Winner?
    ensures var v := st.settlers[i]; var taken := DoTake(DoClaim(st, i), i);
      && taken.memos == Correlation.Taken(Correlation.Claimed(st.memos, v.hash), v.hash)
      && (Correlation.SlotOf(st.memos, v.hash).Some? && !v.rejected && st.memos[v.hash].senderKey != "" ==>
            v.hash in taken.away
            && taken.away[v.hash] == Due(st.memos[v.hash].senderKey, Correlation.SlotOf(st.memos, v.hash).value))
  {
  }

  lemma ClaimStep(cfg: Config, s: State, i: nat)
    requires Enabled(s, Claim(i))
    ensures Do(cfg, s, Claim(i)) == s.(store := DoClaim(s.store, i))
    ensures !Correlation.Wins(s.store.memos, s.store.settlers[i].hash) ==> DoClaim(s.store, i).memos == s.store.memos
  {
  }

  lemma TakeStep(cfg: Config, s: State, i: nat)
    requires Enabled(s, Take(i))
    ensures Do(cfg, s, Take(i)) == s.(store := DoTake(s.store, i))
  {
  }

  lemma ApplyStep(cfg: Config, s: State, h: Hash)
    requires Enabled(s, Apply(h))
    ensures var s' := Do(cfg, s, Apply(h)); var away := s.store.away[h];
      s'.store.memos == s.store.memos && s'.tracker == Release(s.tracker, away.key, away.chain, cfg.grace)
  {
  }

  lemma SlotSurvivesClaim<C>(m: Correlation.Memory<C>, h: Hash)
    ensures Correlation.SlotOf(Correlation.Claimed(m, h), h) == Correlation.SlotOf(m, h)
    ensures h in Correlation.Claimed(m, h) <==> h in m
    ensures h in m ==> Correlation.Claimed(m, h)[h].senderKey == m[h].senderKey
  {
  }

  /** What `settle` does at once, the runs do in steps between which anybody else may act. */
  lemma SettlingIsThreeSteps<H>(cfg: Config, s: State, i: nat, held: Held<H>)
    requires i in s.store.settlers && s.store.settlers[i].Verdict? && held.Known()
    ensures var v := s.store.settlers[i];
      var r := Settled(AsService(s, held), v.hash, v.rejected, cfg.grace);
      r.memory == InThreeSteps(cfg, s, i).store.memos && r.chains == InThreeSteps(cfg, s, i).tracker
  {
    hide Do, Release, Notify, DoClaim, DoTake, Correlation.Claimed, Correlation.Taken, InThreeSteps;
    var v := s.store.settlers[i];
    if Correlation.Wins(s.store.memos, v.hash) {
      WinnerTakes(cfg, s, i);
      SlotSurvivesClaim(s.store.memos, v.hash);
    } else {
      LoserStops(cfg, s, i);
    }
  }

  lemma LoserStops(cfg: Config, s: State, i: nat)
    requires i in s.store.settlers && s.store.settlers[i].Verdict? && !Correlation.Wins(s.store.memos, s.store.settlers[i].hash)
    ensures InThreeSteps(cfg, s, i).store.memos == s.store.memos && InThreeSteps(cfg, s, i).tracker == s.tracker
  {
    hide Do, DoClaim;
    ClaimStep(cfg, s, i);
  }

  lemma WinnerTakes(cfg: Config, s: State, i: nat)
    requires i in s.store.settlers && s.store.settlers[i].Verdict? && Correlation.Wins(s.store.memos, s.store.settlers[i].hash)
    ensures var v := s.store.settlers[i]; var r := InThreeSteps(cfg, s, i);
      && r.store.memos == Correlation.Taken(Correlation.Claimed(s.store.memos, v.hash), v.hash)
      && r.tracker ==
         if Correlation.SlotOf(s.store.memos, v.hash).Some? && !v.rejected && s.store.memos[v.hash].senderKey != ""
         then Release(s.tracker, s.store.memos[v.hash].senderKey, Correlation.SlotOf(s.store.memos, v.hash).value, cfg.grace)
         else s.tracker
  {
    hide Do, Release, DoClaim, DoTake, Correlation.Claimed, Correlation.Taken;
    ClaimStep(cfg, s, i);
    ClaimThenTake(s.store, i);
    TakeStep(cfg, s.(store := DoClaim(s.store, i)), i);
    var v, taken := s.store.settlers[i], s.(store := DoTake(DoClaim(s.store, i), i));
    if v.hash in taken.store.away && taken.store.away[v.hash].Due? { ApplyStep(cfg, taken, v.hash); }
  }

  // ---------------------------------------------------------------- losing entries is steps

  /** An entry that is found past its age when it is recalled leaves the memory by a step of the runs. */
  lemma LosingAnEntryIsAStep(cfg: Config, s: State, h: Hash, now: nat)
    ensures var m := Correlation.Recalled(s.store.memos, h, now);
      m == s.store.memos || (Enabled(s, Evict(h)) && m == Do(cfg, s, Evict(h)).store.memos)
  {
  }

  /** The steps that evict those entries can be taken one after the other. */
  ghost predicate CanEvict(cfg: Config, s: State, lost: seq<Hash>)
    decreases |lost|
  {
    lost != [] ==> Enabled(s, Evict(lost[0])) && CanEvict(cfg, Do(cfg, s, Evict(lost[0])), lost[1..])
  }

  ghost function Evicting(cfg: Config, s: State, lost: seq<Hash>): State
    requires CanEvict(cfg, s, lost)
    decreases |lost|
  {
    if lost == [] then s else Evicting(cfg, Do(cfg, s, Evict(lost[0])), lost[1..])
  }

  lemma EvictingOneMore(cfg: Config, s: State, h: Hash, rest: seq<Hash>)
    requires Enabled(s, Evict(h)) && CanEvict(cfg, Do(cfg, s, Evict(h)), rest)
    ensures CanEvict(cfg, s, [h] + rest) && Evicting(cfg, s, [h] + rest) == Evicting(cfg, Do(cfg, s, Evict(h)), rest)
  {
    assert ([h] + rest)[0] == h && ([h] + rest)[1..] == rest;
  }

  lemma EvictStep(cfg: Config, s: State, h: Hash)
    requires Enabled(s, Evict(h))
    ensures var s' := Do(cfg, s, Evict(h)); s' == s.(store := s'.store) && s'.store.memos == s.store.memos - {h}
  {
  }

  lemma {:induction false} AnyEntriesCanBeEvicted(cfg: Config, s: State, gone: set<Hash>) returns (lost: seq<Hash>)
    requires gone <= s.store.memos.Keys
    ensures CanEvict(cfg, s, lost)
    ensures var s' := Evicting(cfg, s, lost); s' == s.(store := s'.store) && s'.store.memos == s.store.memos - gone
    decreases gone
  {
    lost := [];
    if gone != {} {
      var h :| h in gone;
      EvictStep(cfg, s, h);
      var rest := AnyEntriesCanBeEvicted(cfg, Do(cfg, s, Evict(h)), gone - {h});
      EvictingOneMore(cfg, s, h, rest);
      lost := [h] + rest;
    }
  }

  /** Making room, with everything too old and perhaps one victim gone at once, is one such step for each entry lost,
      and touches nothing but the memory. */
  lemma MakingRoomIsSteps(cfg: Config, s: State, now: nat, victim: Option<Hash>) returns (lost: seq<Hash>)
    requires victim.Some? ==> victim.value in Correlation.Young(s.store.memos, now)
    ensures CanEvict(cfg, s, lost)
    ensures var s', young := Evicting(cfg, s, lost), Correlation.Young(s.store.memos, now);
      s' == s.(store := s'.store) && s'.store.memos == if victim.Some? then young - {victim.value} else young
  {
    var young := Correlation.Young(s.store.memos, now);
    var left := if victim.Some? then young - {victim.value} else young;
    lost := AnyEntriesCanBeEvicted(cfg, s, s.store.memos.Keys - left.Keys);
    assert s.store.memos - (s.store.memos.Keys - left.Keys) == left;
  }

  // ---------------------------------------------------------------- a turn of the pass is steps

  /** Reading a receipt that refuses these users: one step for the verdict and the first of them, and one for each other. */
  function AfterReading(cfg: Config, s: State, i: nat, h: Hash, refused: seq<Key>): (s': State)
    requires Enabled(s, ReadReceipt(i, h, ""))
    decreases |refused|
  {
    if |refused| <= 1 then Do(cfg, s, ReadReceipt(i, h, if refused == [] then "" else refused[0]))
    else Do(cfg, AfterReading(cfg, s, i, h, refused[..|refused| - 1]), ForeignForget(refused[|refused| - 1]))
  }

  lemma ReadStep(cfg: Config, s: State, i: nat, h: Hash, reported: Key)
    requires Enabled(s, ReadReceipt(i, h, reported))
    ensures var s' := Do(cfg, s, ReadReceipt(i, h, reported)); var rejected := Rejected(s.net, h);
      && s'.tracker == (if rejected then Forget(s.tracker, reported) else s.tracker)
      && s'.store.memos == s.store.memos && s'.store.settlers == s.store.settlers[i := Verdict(h, rejected)]
  {
  }

  lemma ForgetStep(cfg: Config, s: State, key: Key)
    ensures Do(cfg, s, ForeignForget(key)) == s.(tracker := Forget(s.tracker, key))
  {
  }

  lemma {:induction false} ReadingIsSteps<H>(cfg: Config, s: State, i: nat, h: Hash, refused: seq<Key>, held: Held<H>)
    requires held.Known() && Enabled(s, ReadReceipt(i, h, "")) && (refused != [] <==> Rejected(s.net, h))
    ensures var s' := AfterReading(cfg, s, i, h, refused);
      && s'.tracker == Forgotten(AsService(s, held), refused).chains
      && s'.store.memos == s.store.memos && s'.store.settlers == s.store.settlers[i := Verdict(h, refused != [])]
    decreases |refused|
  {
    hide Do, Forget, Notify, Rejected;
    if |refused| <= 1 {
      ReadStep(cfg, s, i, h, if refused == [] then "" else refused[0]);
      if refused != [] { ForgettingOne(AsService(s, held), refused); }
    } else {
      var last := |refused| - 1;
      ReadingIsSteps(cfg, s, i, h, refused[..last], held);
      ForgetStep(cfg, AfterReading(cfg, s, i, h, refused[..last]), refused[last]);
    }
  }

  lemma ForgettingOne<C, H>(s: Service<C, H>, refused: seq<Key>)
    requires s.Known() && |refused| == 1
    ensures Forgotten(s, refused).chains == Forget(s.chains, refused[0])
  {
    assert refused[..0] == [];
  }

  /** Recalling an entry past its age is an eviction. */
  function AfterRecall(cfg: Config, s: State, h: Hash, now: nat): State {
    if h in s.store.memos && now > s.store.memos[h].rememberedAt + Correlation.MEMORY_TTL then Do(cfg, s, Evict(h)) else s
  }

  lemma RecallIsAStep(cfg: Config, s: State, h: Hash, now: nat)
    ensures var s' := AfterRecall(cfg, s, h, now);
      s'.store.memos == Correlation.Recalled(s.store.memos, h, now) && s' == s.(store := s'.store)
      && s'.store.settlers == s.store.settlers && s'.store.remembered == s.store.remembered
  {
  }

  /** A turn of the pass that read a receipt is steps of the runs: perhaps an eviction, the reading with what it drops,
      and the settlement. That the hub refused something is what the receipt says by naming whom. */
  lemma ReceiptTurnIsSteps<H>(cfg: Config, s: State, i: nat, held: Held<H>, item: Correlation.InFlightMetaTx<ChainId>,
                              refused: seq<Key>, time: Timing, timeout: nat)
    requires held.Known() && Enabled(s, ReadReceipt(i, item.hash, "")) && (refused != [] <==> Rejected(s.net, item.hash))
    ensures Enabled(AfterRecall(cfg, s, item.hash, time.recalledAt), ReadReceipt(i, item.hash, ""))
    ensures var read := AfterReading(cfg, AfterRecall(cfg, s, item.hash, time.recalledAt), i, item.hash, refused);
      var r := PassedOne(AsService(s, held), item, Receipt(refused, refused != []), time, timeout, cfg.grace);
      && i in read.store.settlers && read.store.settlers[i] == Verdict(item.hash, refused != [])
      && r.memory == InThreeSteps(cfg, read, i).store.memos && r.chains == InThreeSteps(cfg, read, i).tracker
  {
    hide AfterRecall, AfterReading, Do, Settled, Forgotten, InThreeSteps;
    var recalled := AfterRecall(cfg, s, item.hash, time.recalledAt);
    RecallIsAStep(cfg, s, item.hash, time.recalledAt);
    ReadingIsSteps(cfg, recalled, i, item.hash, refused, held);
    var forgotten := Forgotten(AsService(recalled, held), refused);
    SettlingIsThreeSteps(cfg, AfterReading(cfg, recalled, i, item.hash, refused), i, forgotten.held);
  }

  /** A turn that gives up is too: perhaps an eviction, the decision, and the settlement. */
  lemma GivingUpIsSteps<H>(cfg: Config, s: State, i: nat, held: Held<H>, item: Correlation.InFlightMetaTx<ChainId>, time: Timing, timeout: nat)
    requires held.Known() && Enabled(s, GiveUp(i, item.hash)) && time.judgedAt >= item.sentAt + timeout
    ensures Enabled(AfterRecall(cfg, s, item.hash, time.recalledAt), GiveUp(i, item.hash))
    ensures var decided := Do(cfg, AfterRecall(cfg, s, item.hash, time.recalledAt), GiveUp(i, item.hash));
      var r := PassedOne(AsService(s, held), item, NoReceipt, time, timeout, cfg.grace);
      && i in decided.store.settlers && decided.store.settlers[i] == Verdict(item.hash, false)
      && r.memory == InThreeSteps(cfg, decided, i).store.memos && r.chains == InThreeSteps(cfg, decided, i).tracker
  {
    hide AfterRecall, Settled, InThreeSteps;
    var recalled := AfterRecall(cfg, s, item.hash, time.recalledAt);
    RecallIsAStep(cfg, s, item.hash, time.recalledAt);
    SettlingIsThreeSteps(cfg, Do(cfg, recalled, GiveUp(i, item.hash)), i, held);
  }

  // ---------------------------------------------------------------- what the others do meanwhile

  /** Nothing is remembered twice, and what is still remembered was remembered at the same time, settled if it was. */
  ghost predicate Since(st: Store, st': Store) {
    && st.remembered <= st'.remembered
    && forall h <- st.remembered | h in st'.memos ::
         && h in st.memos && st'.memos[h].rememberedAt == st.memos[h].rememberedAt
         && (st.memos[h].settled ==> st'.memos[h].settled)
  }

  lemma RememberIsSince(st: Store, h: Hash, e: Correlation.Entry<ChainId>)
    requires h !in st.remembered
    ensures Since(st, st.(memos := st.memos[h := e], remembered := st.remembered + {h}))
  {
  }

  lemma SettlingIsSince(st: Store, i: nat)
    requires i in st.settlers
    ensures Since(st, DoClaim(st, i)) && Since(st, DoTake(st, i))
  {
  }

  lemma LosingIsSince(st: Store, h: Hash)
    requires h in st.memos
    ensures Since(st, DoEvict(st, h))
  {
  }

  lemma SameMemosIsSince(st: Store, st': Store)
    requires st'.memos == st.memos && st'.remembered == st.remembered
    ensures Since(st, st')
  {
  }

  lemma StoreStepIsSince(cfg: Config, s: State, step: Step)
    requires Inv(s) && Enabled(s, step) && ChangesStore(step)
    ensures Since(s.store, Do(cfg, s, step).store)
  {
    if step.Remember? { NotRememberedYet(s, step.key); }
    hide Inv, Since, Release, Forget, DoClaim, DoTake, DoEvict, Rejected, Logged, Freed;
    match step
    case Remember(key, reqId, metaTxId, now) =>
      var pc := s.active[key];
      RememberIsSince(s.store, pc.hash, Correlation.Entry(reqId, metaTxId, now, key, Some(pc.chain), false));
    case Claim(i) => SettlingIsSince(s.store, i);
    case Take(i) => SettlingIsSince(s.store, i);
    case Evict(h) => LosingIsSince(s.store, h);
    case ReadReceipt(_, _, _) => SameMemosIsSince(s.store, Do(cfg, s, step).store);
    case GiveUp(_, _) => SameMemosIsSince(s.store, Do(cfg, s, step).store);
    case Apply(_) => SameMemosIsSince(s.store, Do(cfg, s, step).store);
  }

  lemma StepIsSince(cfg: Config, s: State, step: Step)
    requires Inv(s) && Enabled(s, step)
    ensures Since(s.store, Do(cfg, s, step).store)
  {
    hide Inv, Do, Enabled;
    if ChangesStore(step) { StoreStepIsSince(cfg, s, step); } else { StoreStays(cfg, s, step); }
  }

  lemma {:induction false} RunIsSince(cfg: Config, states: seq<State>, steps: seq<Step>, i: nat, j: nat)
    requires Run(cfg, states, steps) && i <= j < |states|
    ensures Since(states[i].store, states[j].store)
    decreases j
  {
    hide Inv, Do, Enabled;
    if i < j {
      RunIsSince(cfg, states, steps, i, j - 1);
      RunKeeps(cfg, states, steps, j - 1);
      StepIsSince(cfg, states[j - 1], steps[j - 1]);
      hide Run;
    }
  }

  /** Whatever the goroutines do between two states of a run is what the pass of the watcher expects of the others. */
  lemma RunIsMeanwhile(cfg: Config, states: seq<State>, steps: seq<Step>, i: nat, j: nat, items: seq<Correlation.InFlightMetaTx<ChainId>>)
    requires Run(cfg, states, steps) && i <= j < |states|
    requires forall item <- items :: item.hash in states[i].store.remembered
    ensures Meanwhile(states[i].store.memos, states[j].store.memos, items)
  {
    RunIsSince(cfg, states, steps, i, j);
    RunKeeps(cfg, states, steps, i);
    StoreHolds(states[i]);
    hide Inv, Run;
  }

  /** Once anybody claimed a transaction, it is settled for as long as it is remembered. */
  lemma ClaimedStays(cfg: Config, states: seq<State>, steps: seq<Step>, i: nat, j: nat)
    requires Run(cfg, states, steps) && i < j < |states| && steps[i].Claim?
    ensures var h := states[i].store.settlers[steps[i].settler].hash; h in states[j].store.memos ==> states[j].store.memos[h].settled
  {
    var h := states[i].store.settlers[steps[i].settler].hash;
    RunKeeps(cfg, states, steps, i);
    StoreHolds(states[i]);
    hide Inv;
    ClaimStep(cfg, states[i], steps[i].settler);
    RunIsSince(cfg, states, steps, i + 1, j);
  }

  lemma ListedIsRemembered(cfg: Config, states: seq<State>, steps: seq<Step>, start: nat, items: seq<Correlation.InFlightMetaTx<ChainId>>)
    requires Run(cfg, states, steps) && start < |states| && Correlation.Snapshot(states[start].store.memos, items)
    ensures forall item <- items :: item.hash in states[start].store.remembered
  {
    RunKeeps(cfg, states, steps, start);
    StoreHolds(states[start]);
    hide Inv, Run;
  }

  lemma ListedIsRecognised(cfg: Config, states: seq<State>, steps: seq<Step>, start: nat, i: nat,
                           items: seq<Correlation.InFlightMetaTx<ChainId>>, item: Correlation.InFlightMetaTx<ChainId>)
    requires Run(cfg, states, steps) && start <= i < |states| && item in items
    requires Correlation.Snapshot(states[start].store.memos, items) && item.hash in states[start].store.remembered
    ensures Recognises(states[i].store.memos, item)
  {
    RunIsSince(cfg, states, steps, start, i);
    hide Run;
  }

  /** Between those two states the memory went through the turn of the pass for that transaction. */
  ghost predicate TurnOf<H>(s: State, s': State, held: Held<H>, item: Correlation.InFlightMetaTx<ChainId>, answer: Answer, time: Timing,
                            timeout: nat, window: nat)
    requires held.Known()
  {
    s'.store.memos == PassedOne(AsService(s, held), item, answer, time, timeout, window).memory
  }

  /** So the pass does its work whatever others settle, take, send and evict before and after its turn: of what it listed
      in state `start`, a transaction that is done with is settled from its turn on, for as long as it is remembered. */
  lemma DoneIsClosedForGood<H>(cfg: Config, states: seq<State>, steps: seq<Step>, held: Held<H>, start: nat, from: nat, to: nat, j: nat,
                               items: seq<Correlation.InFlightMetaTx<ChainId>>, item: Correlation.InFlightMetaTx<ChainId>,
                               answer: Answer, time: Timing, timeout: nat)
    requires Run(cfg, states, steps) && held.Known() && start <= from <= to <= j < |states|
    requires Correlation.Snapshot(states[start].store.memos, items) && item in items
    requires TurnOf(states[from], states[to], held, item, answer, time, timeout, cfg.grace) && Done(item, answer, time, timeout)
    ensures item.hash in states[j].store.memos ==> states[j].store.memos[item.hash].settled
  {
    ListedIsRemembered(cfg, states, steps, start, items);
    ListedIsRecognised(cfg, states, steps, start, from, items, item);
    RunIsSince(cfg, states, steps, start, to);
    RunIsSince(cfg, states, steps, to, j);
    hide Run, Recognises, PassedOne, Done, Correlation.Snapshot;
    TurnKeepsClaims(AsService(states[from], held), item, answer, time, timeout, cfg.grace, item.hash);
  }
}
