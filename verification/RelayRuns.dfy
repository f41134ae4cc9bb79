/** What holds over whole runs of the relay, whatever the interleaving: gap-free chains that leave in writer
    order, slots that are neither lost nor given back twice, chains with identity, one closing per metatx. */
module RelayRuns {
  import opened Base
  import opened ChainModel
  import opened Relay
  import Correlation

  /** A run from a start of the service: any interleaving of enabled steps. */
  ghost predicate Run(cfg: Config, states: seq<State>, steps: seq<Step>) {
    && |states| == |steps| + 1
    && states[0] == Init(states[0].net.hub)
    && (forall i | 0 <= i < |steps| :: Enabled(states[i], steps[i]) && states[i + 1] == Do(cfg, states[i], steps[i]))
  }

  lemma {:induction false} RunKeeps(cfg: Config, states: seq<State>, steps: seq<Step>, i: nat)
    requires Run(cfg, states, steps) && i < |states|
    ensures Inv(states[i])
  {
    if i > 0 {
      hide Inv, Do;
      RunKeeps(cfg, states, steps, i - 1);
      StepKeeps(cfg, states[i - 1], steps[i - 1]);
    }
  }

  // ---------------------------------------------------------------- gap-free chains

  /** In every reachable state, the nonces sent on each chain that ever existed are first, first+1, ... without
      gap or repetition, they left in the order of the writer account, and a chain still in use expects the one
      that follows. */
  lemma ChainsAreGapFree(cfg: Config, states: seq<State>, steps: seq<Step>, i: nat)
    requires Run(cfg, states, steps) && i < |states|
    ensures var s := states[i];
      && (forall c <- s.log, n | 0 <= n < |s.log[c].sent| ::
            var h := s.log[c].sent[n];
            h < |s.net.wire| && s.net.wire[h].key == s.log[c].owner && s.net.wire[h].nonce == s.log[c].first + n)
      && (forall c <- s.log, n, m | 0 <= n < m < |s.log[c].sent| :: s.log[c].sent[n] < s.log[c].sent[m])
      && (forall k <- s.tracker.current ::
            var c := s.tracker.current[k];
            c in s.log && s.log[c].owner == k && s.tracker.fields[c].next == s.log[c].first + |s.log[c].sent|)
  {
    RunKeeps(cfg, states, steps, i);
    var s := states[i];
    assert forall c <- s.log :: GapFree(s.log[c], s.net.wire);
  }

  // ---------------------------------------------------------------- conservation of slots

  /** The sends on `c` that hold the global lock and are not remembered yet. */
  ghost function NotRemembered(s: State, c: ChainId): set<Hash> {
    set k | k in s.active && s.active[k].Noted? && s.active[k].chain == c :: s.active[k].hash
  }

  /** The remembered transactions that still carry `c`. */
  ghost function Carrying(s: State, c: ChainId): set<Hash> { Correlation.Carrying(s.store.memos, c) }

  /** The releases of `c` that were taken and not applied yet. */
  ghost function Releasing(s: State, c: ChainId): set<Hash> {
    set h | h in s.store.away && s.store.away[h].Due? && s.store.away[h].chain == c
  }

  /** The transactions evicted from the memory while they carried `c`. */
  ghost function Evicted(s: State, c: ChainId): set<Hash> {
    set h | h in s.store.away && s.store.away[h] == Lost(c)
  }

  /** The slots taken and not released, because the hub refused their metatx. */
  ghost function GivenUpOn(s: State, c: ChainId): set<Hash> {
    set h | h in s.store.away && s.store.away[h] == GivenUp(c)
  }

  lemma OpenIsPlaced(s: State, c: ChainId)
    requires Inv(s) && c in s.log
    ensures s.log[c].open == NotRemembered(s, c) + Carrying(s, c) + Releasing(s, c) + Evicted(s, c) + GivenUpOn(s, c)
  {
    hide InvTracker, InvTrails, InvTurn, InvRejected, InvSlots;
    forall h ensures h in s.log[c].open <==> h in NotRemembered(s, c) + Carrying(s, c) + Releasing(s, c) + Evicted(s, c) + GivenUpOn(s, c) {
      if h in s.log[c].open && Unremembered(s.active, s.relay, h, c) {
        assert s.relay.value in s.active;
      }
      if h in NotRemembered(s, c) {
        var k :| k in s.active && s.active[k].Noted? && s.active[k].chain == c && s.active[k].hash == h;
        assert Open(s.log, h, c);
      }
      if h in Carrying(s, c) { assert Open(s.log, h, c); }
      if h in Releasing(s, c) + Evicted(s, c) + GivenUpOn(s, c) { assert Open(s.log, h, c); }
      if h in s.log[c].open && Gone(s.store, h, c) { assert s.store.away[h].Due? || s.store.away[h].Lost? || s.store.away[h].GivenUp?; }
    }
  }

  lemma PlacesAreDisjoint(s: State, c: ChainId)
    requires Inv(s)
    ensures NotRemembered(s, c) !! Carrying(s, c) !! Releasing(s, c) !! Evicted(s, c) !! GivenUpOn(s, c)
  {
  }

  lemma UnionOfFive(a: set<Hash>, b: set<Hash>, c: set<Hash>, d: set<Hash>, e: set<Hash>)
    requires a !! b !! c !! d !! e
    ensures |a + b + c + d + e| == |a| + |b| + |c| + |d| + |e|
  {
  }

  /** In every reachable state a chain in use counts exactly the sends not yet remembered, the remembered
      transactions that carry it, the releases on their way, those whose memory was evicted, and those the hub refused
      for a sender they were not filed under. */
  lemma SlotsAreConserved(cfg: Config, states: seq<State>, steps: seq<Step>, i: nat, key: Key)
    requires Run(cfg, states, steps) && i < |states| && key in states[i].tracker.current
    ensures var s := states[i]; var c := s.tracker.current[key];
      && s.tracker.fields[c].pending
         == |NotRemembered(s, c)| + |Carrying(s, c)| + |Releasing(s, c)| + |Evicted(s, c)| + |GivenUpOn(s, c)|
      && (key != "" ==> GivenUpOn(s, c) <= s.store.misread)
  {
    RunKeeps(cfg, states, steps, i);
    var s := states[i];
    var c := s.tracker.current[key];
    assert c in s.log && s.tracker.fields[c].pending == |s.log[c].open|;
    hide Inv, NotRemembered, Carrying, Releasing, Evicted, GivenUpOn;
    OpenIsPlaced(s, c);
    PlacesAreDisjoint(s, c);
    UnionOfFive(NotRemembered(s, c), Carrying(s, c), Releasing(s, c), Evicted(s, c), GivenUpOn(s, c));
    if key != "" { GivenUpIsMisread(s, key); }
  }

  /** What is given up for a refusal reported rightly is on no chain in use. */
  lemma GivenUpIsMisread(s: State, key: Key)
    requires Inv(s) && key in s.tracker.current && key != ""
    ensures GivenUpOn(s, s.tracker.current[key]) <= s.store.misread
  {
    hide InvTrails, InvLocks, InvTurn, InvFlying, InvStore, InvRejected, InvPlaces, InvSlots;
  }

  /** No release of a chain in use ever finds its count at zero: it lowers it by exactly one. */
  lemma ReleaseLowersByOne(cfg: Config, states: seq<State>, steps: seq<Step>, i: nat)
    requires Run(cfg, states, steps) && i < |steps| && steps[i].Apply?
    ensures var s, h := states[i], steps[i].hash;
      var key, c := s.store.away[h].key, s.store.away[h].chain;
      if key in s.tracker.current && s.tracker.current[key] == c
      then s.tracker.fields[c].pending > 0
           && states[i + 1].tracker.fields[c].pending == s.tracker.fields[c].pending - 1
      else states[i + 1].tracker == s.tracker
  {
    hide Inv, Release;
    RunKeeps(cfg, states, steps, i);
    var away := states[i].store.away[steps[i].hash];
    TakenIsCounted(states[i], steps[i].hash);
    ReleasingIs(states[i].tracker, away.key, away.chain, cfg.grace);
    ReleasingOthersIsNothing(states[i].tracker, away.key, away.chain, cfg.grace);
  }

  lemma ReleasingOthersIsNothing(t: Tracker, key: Key, c: ChainId, grace: nat)
    ensures !(key in t.current && t.current[key] == c) ==> Release(t, key, c, grace) == t
  {
  }

  // ---------------------------------------------------------------- chain identity

  /** A chain that is not in use any more. */
  ghost predicate Dropped(s: State, c: ChainId) {
    c in s.log && (forall k <- s.tracker.current :: s.tracker.current[k] != c)
  }

  lemma NarrowingKeepsDropped(s: State, s': State, c: ChainId)
    requires Dropped(s, c) && forall k <- s'.tracker.current :: k in s.tracker.current && s'.tracker.current[k] == s.tracker.current[k]
    requires c in s'.log && s'.log[c].sent == s.log[c].sent
    ensures Dropped(s', c)
  {
  }

  lemma NoteKeepsDropped(cfg: Config, s: State, key: Key, now: nat, c: ChainId)
    requires Inv(s) && Enabled(s, Note(key, now)) && Dropped(s, c)
    ensures Dropped(Do(cfg, s, Note(key, now)), c)
    ensures Do(cfg, s, Note(key, now)).log[c].sent == s.log[c].sent
  {
    hide InvTrails, InvLocks, InvFlying, InvStore, InvRejected, InvGivenUp, InvPlaces, InvSlots, Reserve;
    NotingExtends(s.tracker, s.log, s.nextId, key, s.active[key].nonce, now, cfg.ttl);
  }

  /** Every other step only drops chains, and says nothing new about what was sent on them. */
  lemma OnlyNotingExtends(cfg: Config, s: State, step: Step)
    requires Enabled(s, step) && !step.Note?
    ensures var s' := Do(cfg, s, step);
      && (forall k <- s'.tracker.current :: k in s.tracker.current && s'.tracker.current[k] == s.tracker.current[k])
      && (forall c <- s.log :: c in s'.log && s'.log[c].sent == s.log[c].sent)
  {
    hide DoRead, DoClaim, DoTake, DoApply, DoEvict, DoMine;
  }

  lemma StepKeepsDropped(cfg: Config, s: State, step: Step, c: ChainId)
    requires Inv(s) && Enabled(s, step) && Dropped(s, c)
    ensures Dropped(Do(cfg, s, step), c)
    ensures Do(cfg, s, step).log[c].sent == s.log[c].sent
  {
    hide Inv, Do, Enabled;
    if step.Note? {
      NoteKeepsDropped(cfg, s, step.key, step.now, c);
    } else {
      OnlyNotingExtends(cfg, s, step);
      NarrowingKeepsDropped(s, Do(cfg, s, step), c);
    }
  }

  /** Once dropped, a chain is never in use again, and nothing more is ever sent on it. */
  lemma {:induction false} DroppedForGood(cfg: Config, states: seq<State>, steps: seq<Step>, i: nat, j: nat, c: ChainId)
    requires Run(cfg, states, steps) && i <= j < |states| && Dropped(states[i], c)
    ensures Dropped(states[j], c) && states[j].log[c].sent == states[i].log[c].sent
    decreases j - i
  {
    hide Inv, Do, Enabled, Dropped;
    if i < j {
      DroppedForGood(cfg, states, steps, i, j - 1, c);
      RunKeeps(cfg, states, steps, j - 1);
      StepKeepsDropped(cfg, states[j - 1], steps[j - 1], c);
    }
  }

  /** The grace timer, however late its callback runs, drops at most the chain it was armed for, and only when
      that chain is in use with nothing in flight. */
  lemma GraceDropsOnlyTheQuiet(cfg: Config, s: State, key: Key, c: ChainId)
    requires Inv(s)
    ensures var s' := Do(cfg, s, FireGrace(key, c));
      if key in s.tracker.current && s.tracker.current[key] == c && s.tracker.fields[c].pending == 0
      then s'.tracker.current == s.tracker.current - {key}
           && c in s.log && s.log[c].open == {}
      else s'.tracker == s.tracker
  {
  }

  // ---------------------------------------------------------------- settling once

  /** Each remembered transaction has been closed as often as its entry says, and its slot was given back at
      most once, and not while it is still held. */
  ghost predicate Once(st: Store) {
    && (forall h <- st.closings :: h in st.remembered)
    && (forall h <- st.given :: h in st.remembered)
    && (forall h <- st.memos :: Count(st.closings, h) == if st.memos[h].settled then 1 else 0)
    && (forall h <- st.given :: st.given[h] == 1 && h !in st.away && (h in st.memos ==> st.memos[h].chain == None))
  }

  lemma ClaimKeepsOnce(st: Store, i: nat, log: Log, n: nat)
    requires Once(st) && InvStore(log, st, n) && i in st.settlers
    ensures Once(DoClaim(st, i))
  {
  }

  lemma TakeKeepsOnce(st: Store, i: nat)
    requires Once(st) && i in st.settlers
    ensures Once(DoTake(st, i))
  {
  }

  lemma RememberKeepsOnce(st: Store, h: Hash, e: Correlation.Entry<ChainId>)
    requires Once(st) && h !in st.remembered && !e.settled
    ensures Once(st.(memos := st.memos[h := e], remembered := st.remembered + {h}))
  {
  }

  lemma ApplyKeepsOnce(st: Store, h: Hash, log: Log, n: nat)
    requires Once(st) && InvStore(log, st, n) && h in st.away
    ensures Once(DoApply(st, h))
  {
  }

  lemma EvictKeepsOnce(st: Store, h: Hash)
    requires Once(st) && h in st.memos
    ensures Once(DoEvict(st, h))
  {
  }

  lemma StoreHolds(s: State)
    requires Inv(s)
    ensures InvStore(s.log, s.store, |s.net.wire|)
  {
  }

  lemma NotRememberedYet(s: State, key: Key)
    requires Inv(s) && key in s.active && s.active[key].Noted?
    ensures s.active[key].hash !in s.store.remembered
  {
  }

  predicate ChangesStore(step: Step) {
    step.Remember? || step.ReadReceipt? || step.GiveUp? || step.Claim? || step.Take? || step.Apply? || step.Evict?
  }

  lemma StoreStays(cfg: Config, s: State, step: Step)
    requires Enabled(s, step) && !ChangesStore(step)
    ensures Do(cfg, s, step).store == s.store
  {
  }

  lemma ReadingKeepsOnce(st: Store, i: nat, h: Hash, rejected: bool, misread: bool)
    requires Once(st)
    ensures Once(DoRead(st, i, h, rejected, misread))
  {
  }

  lemma StoreStepKeepsOnce(cfg: Config, s: State, step: Step)
    requires Inv(s) && Once(s.store) && Enabled(s, step) && ChangesStore(step)
    ensures Once(Do(cfg, s, step).store)
  {
    StoreHolds(s);
    if step.Remember? { NotRememberedYet(s, step.key); }
    hide Inv, Once, InvStore, DoRead, DoClaim, DoTake, DoApply, DoEvict;
    match step
    case Remember(key, reqId, metaTxId, now) =>
      var pc := s.active[key];
      RememberKeepsOnce(s.store, pc.hash, Correlation.Entry(reqId, metaTxId, now, key, Some(pc.chain), false));
    case ReadReceipt(i, h, reported) =>
      ReadingKeepsOnce(s.store, i, h, Rejected(s.net, h), Rejected(s.net, h) && reported != SenderOf(s.net, h));
    case GiveUp(i, h) => ReadingKeepsOnce(s.store, i, h, false, false);
    case Claim(i) => ClaimKeepsOnce(s.store, i, s.log, |s.net.wire|);
    case Take(i) => TakeKeepsOnce(s.store, i);
    case Apply(h) => ApplyKeepsOnce(s.store, h, s.log, |s.net.wire|);
    case Evict(h) => EvictKeepsOnce(s.store, h);
  }

  lemma StepKeepsOnce(cfg: Config, s: State, step: Step)
    requires Inv(s) && Once(s.store) && Enabled(s, step)
    ensures Once(Do(cfg, s, step).store)
  {
    hide Do, Inv, Once;
    if ChangesStore(step) { StoreStepKeepsOnce(cfg, s, step); } else { StoreStays(cfg, s, step); }
  }

  lemma {:induction false} RunKeepsOnce(cfg: Config, states: seq<State>, steps: seq<Step>, i: nat)
    requires Run(cfg, states, steps) && i < |states|
    ensures Once(states[i].store)
  {
    if i > 0 {
      hide Inv, Do, Once;
      RunKeeps(cfg, states, steps, i - 1);
      RunKeepsOnce(cfg, states, steps, i - 1);
      StepKeepsOnce(cfg, states[i - 1], steps[i - 1]);
    }
  }

  /** Over every interleaving of clients, watcher and expiry: while a transaction is remembered at most one of
      them closes it, and its slot is given back at most once whether or not it is still remembered. */
  lemma SettledOnce(cfg: Config, states: seq<State>, steps: seq<Step>, i: nat, h: Hash)
    requires Run(cfg, states, steps) && i < |states|
    ensures h in states[i].store.memos ==> Count(states[i].store.closings, h) <= 1
    ensures Count(states[i].store.given, h) <= 1
    ensures Count(states[i].store.given, h) == 1 ==> h !in states[i].store.away
  {
    RunKeepsOnce(cfg, states, steps, i);
  }
}
