/** Runs in which nothing goes wrong outside the service: whatever the interleaving, the nonce the service
    expects is the one the hub will expect, so no metatx it sends is ever rejected for its nonce. */
module RelayAgreement {
  import opened Base
  import opened ChainModel
  import opened Relay
  import opened RelayRuns

  /** No send fails, the hub rejects nothing for a reason of its own, no chain outlives its TTL, no receipt is
      given up, and nobody else uses the user's nonce or reports a rejection of his. */
  predicate Benign(cfg: Config, s: State, step: Step) {
    match step
    case FailSend(_, _) => false
    case ForgetFailed(_) => false
    case GiveUp(_, _) => false
    case ForeignForget(_) => false
    case OtherSpend(_) => false
    case Mine(fit) => fit
    case ReadCache(key, now) => !Stale(s.tracker, key, now, cfg.ttl)
    case Note(key, now) => !Stale(s.tracker, key, now, cfg.ttl)
    case Peek(key, now) => !Stale(s.tracker, key, now, cfg.ttl)
    case _ => true
  }

  ghost predicate BenignRun(cfg: Config, states: seq<State>, steps: seq<Step>) {
    Run(cfg, states, steps) && forall i | 0 <= i < |steps| :: Benign(cfg, states[i], steps[i])
  }

  /** How many of the transactions `lo`, ..., `hi`-1 are of that user. */
  function Sends(wire: seq<Tx>, lo: nat, hi: nat, key: Key): nat
    requires hi <= |wire|
    decreases hi
  {
    if hi <= lo then 0 else Sends(wire, lo, hi - 1, key) + if wire[hi - 1].key == key then 1 else 0
  }

  /** The metatx of that user that were broadcast and not executed yet. */
  function Unexecuted(n: Net, key: Key): nat { Sends(n.wire, n.mined, |n.wire|, key) }

  /** What the hub will expect of that user once everything broadcast is executed. */
  function HubAfterwards(n: Net, key: Key): nat { Hub(n, key) + Unexecuted(n, key) }

  /** The nonce the service expects of that user: the hub can always be asked here. */
  function ExpectedOf(s: State, key: Key): nat { Expected(s.tracker, key, Some(Hub(s.net, key))).value }

  // ---------------------------------------------------------------- counting

  lemma {:induction false} SendsFromFirst(wire: seq<Tx>, lo: nat, hi: nat, key: Key)
    requires lo < hi <= |wire|
    ensures Sends(wire, lo, hi, key) == Sends(wire, lo + 1, hi, key) + if wire[lo].key == key then 1 else 0
  {
    if lo + 1 < hi { SendsFromFirst(wire, lo, hi - 1, key); }
  }

  lemma {:induction false} NoSends(wire: seq<Tx>, lo: nat, hi: nat, key: Key)
    requires hi <= |wire| && forall h | lo <= h < hi :: wire[h].key != key
    ensures Sends(wire, lo, hi, key) == 0
  {
    if lo < hi { NoSends(wire, lo, hi - 1, key); }
  }

  lemma {:induction false} SendsOfPrefix(wire: seq<Tx>, tx: Tx, lo: nat, hi: nat, key: Key)
    requires hi <= |wire|
    ensures Sends(wire + [tx], lo, hi, key) == Sends(wire, lo, hi, key)
  {
    if lo < hi { SendsOfPrefix(wire, tx, lo, hi - 1, key); }
  }

  // ---------------------------------------------------------------- the invariant of benign runs

  /** Whatever is not executed yet is still in flight on its user's chain, or is about to be noted. */
  ghost predicate InFlight(t: Tracker, log: Log, active: map<Key, Sender>, n: Net) {
    && n.mined <= |n.wire|
    && forall h | n.mined <= h < |n.wire| ::
         var k := n.wire[h].key;
         (k in active && active[k].Broadcast? && active[k].hash == h)
         || (k in t.current && Open(log, h, t.current[k]))
  }

  /** The unexecuted metatx of a user carry the nonces that follow the hub's. */
  ghost predicate InOrder(n: Net) {
    && n.mined <= |n.wire|
    && forall h | n.mined <= h < |n.wire| ::
         n.wire[h].nonce == Hub(n, n.wire[h].key) + Sends(n.wire, n.mined, h, n.wire[h].key)
  }

  /** The chains, and the requests that have been compared with them, stand where the hub will stand. */
  ghost predicate Agrees(t: Tracker, active: map<Key, Sender>, n: Net) {
    && (forall k <- t.current ::
          t.fields[t.current[k]].next + (if k in active && active[k].Broadcast? then 1 else 0) == HubAfterwards(n, k))
    && (forall k <- active | active[k].Checked? || active[k].Global? :: active[k].nonce == HubAfterwards(n, k))
    && (forall k <- active | active[k].Broadcast? :: active[k].nonce + 1 == HubAfterwards(n, k))
  }

  /** Only what the hub executed is ever closed, and it rejected none of it. */
  ghost predicate NothingLost(st: Store, n: Net) {
    && (forall h <- n.accepted :: n.accepted[h])
    && (forall i <- st.settlers :: st.settlers[i].hash < n.mined && !st.settlers[i].rejected)
    && (forall h <- st.away | st.away[h].Due? :: h < n.mined)
  }

  ghost predicate Agreement(s: State) {
    && Inv(s)
    && InFlight(s.tracker, s.log, s.active, s.net)
    && InOrder(s.net)
    && Agrees(s.tracker, s.active, s.net)
    && NothingLost(s.store, s.net)
  }

  /** A user without a chain and without a broadcast under way has nothing unexecuted. */
  lemma QuietHasNothing(s: State, key: Key)
    requires InFlight(s.tracker, s.log, s.active, s.net)
    requires key !in s.tracker.current && !(key in s.active && s.active[key].Broadcast?)
    ensures Unexecuted(s.net, key) == 0
  {
    NoSends(s.net.wire, s.net.mined, |s.net.wire|, key);
  }

  // ---------------------------------------------------------------- preservation

  lemma SendAgrees(cfg: Config, s: State, key: Key)
    requires Agreement(s) && Enabled(s, Send(key))
    ensures Agreement(Do(cfg, s, Send(key)))
  {
    StepKeeps(cfg, s, Send(key));
    var nonce := s.active[key].nonce;
    var n, n' := s.net, Do(cfg, s, Send(key)).net;
    assert n.mined <= |n.wire| && nonce == HubAfterwards(n, key);
    hide Inv, InFlight, InOrder, Agrees, HubAfterwards;
    SendCounts(n, Tx(key, nonce));
    SendKeepsOrder(n, n', Tx(key, nonce));
    SendKeepsInFlight(s.tracker, s.log, s.active, n, n', key);
    SendKeepsAgrees(s.tracker, s.active, n, n', key);
  }

  lemma SendCounts(n: Net, tx: Tx)
    requires n.mined <= |n.wire|
    ensures var n' := n.(wire := n.wire + [tx]);
      && (forall k, h: nat | h <= |n.wire| :: Sends(n'.wire, n.mined, h, k) == Sends(n.wire, n.mined, h, k))
      && (forall k :: HubAfterwards(n', k) == HubAfterwards(n, k) + if k == tx.key then 1 else 0)
  {
    var n' := n.(wire := n.wire + [tx]);
    forall k, h: nat | h <= |n.wire| ensures Sends(n'.wire, n.mined, h, k) == Sends(n.wire, n.mined, h, k) {
      SendsOfPrefix(n.wire, tx, n.mined, h, k);
    }
  }

  lemma SendKeepsOrder(n: Net, n': Net, tx: Tx)
    requires InOrder(n) && n' == n.(wire := n.wire + [tx]) && tx.nonce == HubAfterwards(n, tx.key)
    requires forall k, h: nat | h <= |n.wire| :: Sends(n'.wire, n.mined, h, k) == Sends(n.wire, n.mined, h, k)
    ensures InOrder(n')
  {
  }

  lemma SendKeepsInFlight(t: Tracker, log: Log, active: map<Key, Sender>, n: Net, n': Net, key: Key)
    requires InFlight(t, log, active, n) && key in active && active[key].Global?
    requires n' == n.(wire := n.wire + [Tx(key, active[key].nonce)])
    ensures InFlight(t, log, active[key := Broadcast(active[key].nonce, |n.wire|)], n')
  {
  }

  lemma SendKeepsAgrees(t: Tracker, active: map<Key, Sender>, n: Net, n': Net, key: Key)
    requires Agrees(t, active, n) && key in active && active[key].Global?
    requires forall k :: HubAfterwards(n', k) == HubAfterwards(n, k) + if k == key then 1 else 0
    ensures Agrees(t, active[key := Broadcast(active[key].nonce, |n.wire|)], n')
  {
  }

  /** The hub meets the exact nonce it demands. */
  lemma MineMeetsTheHub(n: Net)
    requires InOrder(n) && n.mined < |n.wire|
    ensures n.wire[n.mined].nonce == Hub(n, n.wire[n.mined].key)
    ensures var n' := DoMine(n, true);
      InOrder(n') && n'.accepted == n.accepted[n.mined := true] && forall k :: HubAfterwards(n', k) == HubAfterwards(n, k)
  {
    var n' := DoMine(n, true);
    forall k, h | n.mined < h <= |n.wire|
      ensures Sends(n.wire, n.mined, h, k) == Sends(n.wire, n'.mined, h, k) + if n.wire[n.mined].key == k then 1 else 0
    {
      SendsFromFirst(n.wire, n.mined, h, k);
    }
  }

  lemma NoteAgrees(cfg: Config, s: State, key: Key, now: nat)
    requires Agreement(s) && Enabled(s, Note(key, now)) && Benign(cfg, s, Note(key, now))
    ensures Agreement(Do(cfg, s, Note(key, now)))
  {
    hide Inv, InFlight, InOrder, Agrees, NothingLost, Reserve, Logged;
    StepKeeps(cfg, s, Note(key, now));
    var pc := s.active[key];
    var v := Reserve(s.tracker, key, pc.nonce, true, s.nextId, now, cfg.ttl);
    NotedChain(cfg, s, key, now);
    NoteKeepsInFlight(s.tracker, v, s.log, s.active, s.net, key, v.current[key]);
    NoteKeepsAgrees(s.tracker, v, s.active, s.net, key, v.current[key]);
  }

  /** The chains around a note: nobody's is dropped, the one noted on expects what follows, the others stay. */
  lemma NotedChain(cfg: Config, s: State, key: Key, now: nat)
    requires Inv(s) && Enabled(s, Note(key, now)) && !Stale(s.tracker, key, now, cfg.ttl)
    ensures var v := Reserve(s.tracker, key, s.active[key].nonce, true, s.nextId, now, cfg.ttl);
      && v.current == s.tracker.current[key := v.current[key]] && v.fields[v.current[key]].next == s.active[key].nonce + 1
      && (forall k <- s.tracker.current | k != key :: v.fields[v.current[k]].next == s.tracker.fields[s.tracker.current[k]].next)
      && (key in s.tracker.current ==> v.current[key] == s.tracker.current[key])
  {
    hide InvTrails, InvLocks, InvFlying, InvStore, InvRejected, InvGivenUp, InvPlaces, InvSlots;
    NotingExtends(s.tracker, s.log, s.nextId, key, s.active[key].nonce, now, cfg.ttl);
  }

  lemma NoteKeepsInFlight(t: Tracker, v: Tracker, log: Log, active: map<Key, Sender>, n: Net, key: Key, c: ChainId)
    requires InFlight(t, log, active, n) && key in active && active[key].Broadcast?
    requires v.current == t.current[key := c] && (key in t.current ==> c == t.current[key])
    ensures var pc := active[key];
      InFlight(v, Logged(log, c, key, pc.nonce, pc.hash), active[key := Noted(pc.nonce, pc.hash, c)], n)
  {
  }

  lemma NoteKeepsAgrees(t: Tracker, v: Tracker, active: map<Key, Sender>, n: Net, key: Key, c: ChainId)
    requires Agrees(t, active, n) && key in active && active[key].Broadcast?
    requires v.current == t.current[key := c] && v.fields[v.current[key]].next == active[key].nonce + 1
    requires forall k <- t.current | k != key :: v.fields[v.current[k]].next == t.fields[t.current[k]].next
    ensures var pc := active[key]; Agrees(v, active[key := Noted(pc.nonce, pc.hash, c)], n)
  {
    hide HubAfterwards;
  }

  /** A chain that is dropped because nothing is in flight on it leaves nothing unexecuted behind. */
  lemma QuietDropAgrees(s: State, t: Tracker, key: Key)
    requires InFlight(s.tracker, s.log, s.active, s.net) && Agrees(s.tracker, s.active, s.net)
    requires key in s.tracker.current && s.tracker.current[key] in s.log && s.log[s.tracker.current[key]].open == {}
    requires t.current == s.tracker.current - {key}
    requires forall c <- s.tracker.fields :: c in t.fields && t.fields[c].next == s.tracker.fields[c].next
    ensures InFlight(t, s.log, s.active, s.net) && Agrees(t, s.active, s.net)
  {
  }

  lemma FireAgrees(cfg: Config, s: State, key: Key, c: ChainId)
    requires Agreement(s)
    ensures var s' := Do(cfg, s, FireGrace(key, c));
      InFlight(s'.tracker, s'.log, s'.active, s'.net) && Agrees(s'.tracker, s'.active, s'.net)
  {
    hide InvTrails, InvLocks, InvTurn, InvFlying, InvStore, InvRejected, InvGivenUp, InvPlaces, InFlight, Agrees;
    if key in s.tracker.current && s.tracker.current[key] == c && s.tracker.fields[c].pending == 0 {
      QuietDropAgrees(s, Fire(s.tracker, key, c), key);
    }
  }

  lemma FreeingInFlight(t: Tracker, log: Log, active: map<Key, Sender>, n: Net, c: ChainId, h: Hash)
    requires InFlight(t, log, active, n) && h < n.mined
    ensures InFlight(t, Freed(log, c, h), active, n)
  {
  }

  lemma LastSlot(open: set<Hash>, h: Hash)
    requires h in open && |open| == 1
    ensures open - {h} == {}
  {
    assert |open - {h}| == 0;
  }

  /** A release keeps every chain but the one it empties, and that one only when there is no grace. */
  lemma ReleaseAgrees(s: State, key: Key, c: ChainId, h: Hash, grace: nat)
    requires Inv(s) && Open(s.log, h, c) && s.log[c].owner == key
    requires InFlight(s.tracker, Freed(s.log, c, h), s.active, s.net) && Agrees(s.tracker, s.active, s.net)
    ensures var u := Release(s.tracker, key, c, grace);
      InFlight(u, Freed(s.log, c, h), s.active, s.net) && Agrees(u, s.active, s.net)
  {
    hide InvTrails, InvLocks, InvTurn, InvFlying, InvStore, InvRejected, InvGivenUp, InvPlaces, HubAfterwards;
    var u := Release(s.tracker, key, c, grace);
    if key in s.tracker.current && s.tracker.current[key] == c && key !in u.current {
      LastSlot(s.log[c].open, h);
      QuietDropAgrees(s.(log := Freed(s.log, c, h)), u, key);
    }
  }

  lemma ApplyAgrees(cfg: Config, s: State, h: Hash)
    requires Agreement(s) && Enabled(s, Apply(h))
    ensures var s' := Do(cfg, s, Apply(h));
      InFlight(s'.tracker, s'.log, s'.active, s'.net) && Agrees(s'.tracker, s'.active, s'.net)
  {
    hide InvTracker, InvTrails, InvLocks, InvTurn, InvFlying, InvStore, InvRejected, InvGivenUp, InvPlaces, InvSlots, InFlight, Agrees;
    var c := s.store.away[h].chain;
    TakenIsCounted(s, h);
    FreeingInFlight(s.tracker, s.log, s.active, s.net, c, h);
    ReleaseAgrees(s, s.store.away[h].key, c, h, cfg.grace);
  }

  /** A request that moves along, or leaves, outside the window between its broadcast and its record. */
  lemma MovingAgrees(t: Tracker, log: Log, active: map<Key, Sender>, active': map<Key, Sender>, n: Net, key: Key)
    requires InFlight(t, log, active, n) && Agrees(t, active, n)
    requires key in active ==> !active[key].Broadcast?
    requires forall k | k != key :: (k in active' <==> k in active) && (k in active ==> active'[k] == active[k])
    requires key in active' ==> !active'[key].Broadcast?
    requires key in active' && (active'[key].Checked? || active'[key].Global?) ==> active'[key].nonce == HubAfterwards(n, key)
    ensures InFlight(t, log, active', n) && Agrees(t, active', n)
  {
  }

  lemma CacheAgrees(cfg: Config, s: State, key: Key, now: nat)
    requires Agreement(s) && Enabled(s, ReadCache(key, now)) && !Stale(s.tracker, key, now, cfg.ttl)
    ensures Agreement(Do(cfg, s, ReadCache(key, now)))
  {
    StepKeeps(cfg, s, ReadCache(key, now));
    hide Inv;
    MovingAgrees(s.tracker, s.log, s.active, Do(cfg, s, ReadCache(key, now)).active, s.net, key);
  }

  lemma HubReadAgrees(cfg: Config, s: State, key: Key)
    requires Agreement(s) && Enabled(s, ReadHub(key))
    ensures Agreement(Do(cfg, s, ReadHub(key)))
  {
    StepKeeps(cfg, s, ReadHub(key));
    assert key !in s.tracker.current by {
      hide InvTrails, InvLocks, InvFlying, InvStore, InvRejected, InvGivenUp, InvPlaces, InvSlots, InFlight, Agrees, InOrder;
    }
    hide Inv;
    QuietHasNothing(s, key);
    MovingAgrees(s.tracker, s.log, s.active, Do(cfg, s, ReadHub(key)).active, s.net, key);
  }

  lemma RememberAgrees(cfg: Config, s: State, step: Step)
    requires Agreement(s) && Enabled(s, step) && step.Remember?
    ensures Agreement(Do(cfg, s, step))
  {
    StepKeeps(cfg, s, step);
    var key := step.key;
    hide Inv;
    MovingAgrees(s.tracker, s.log, s.active, s.active - {key}, s.net, key);
  }

  /** A request that only moves: it takes its user's lock, gives it back, or enters the global section. */
  lemma StandAgrees(cfg: Config, s: State, step: Step)
    requires Agreement(s) && Enabled(s, step) && (step.Lock? || step.Refuse? || step.EnterGlobal?)
    ensures Agreement(Do(cfg, s, step))
  {
    hide Inv, InFlight, InOrder, NothingLost, HubAfterwards;
    StepKeeps(cfg, s, step);
    MovingAgrees(s.tracker, s.log, s.active, Do(cfg, s, step).active, s.net, step.key);
  }

  lemma SenderStepAgrees(cfg: Config, s: State, step: Step)
    requires Agreement(s) && Enabled(s, step) && Benign(cfg, s, step) && IsSenderStep(step)
    ensures Agreement(Do(cfg, s, step))
  {
    hide Agreement, Do;
    match step
    case ReadCache(key, now) => CacheAgrees(cfg, s, key, now);
    case ReadHub(key) => HubReadAgrees(cfg, s, key);
    case Send(key) => SendAgrees(cfg, s, key);
    case Note(key, now) => NoteAgrees(cfg, s, key, now);
    case Lock(_, _) => StandAgrees(cfg, s, step);
    case Refuse(_) => StandAgrees(cfg, s, step);
    case EnterGlobal(_) => StandAgrees(cfg, s, step);
    case Remember(_, _, _, _) => RememberAgrees(cfg, s, step);
  }

  /** Closing what the hub executed keeps every settler and every release behind the hub. */
  lemma ClosingLosesNothing(st: Store, n: Net, i: nat)
    requires NothingLost(st, n) && i in st.settlers
    ensures NothingLost(DoClaim(st, i), n) && NothingLost(DoTake(st, i), n)
  {
  }

  lemma ForgettingLosesNothing(st: Store, n: Net, h: Hash)
    requires NothingLost(st, n)
    ensures h in st.memos ==> NothingLost(DoEvict(st, h), n)
    ensures NothingLost(DoApply(st, h), n)
  {
  }

  lemma SettlerStepAgrees(cfg: Config, s: State, step: Step)
    requires Agreement(s) && Enabled(s, step)
    requires step.Claim? || step.Take? || step.Evict?
    ensures Agreement(Do(cfg, s, step))
  {
    StepKeeps(cfg, s, step);
    hide Inv, InFlight, Agrees, InOrder, NothingLost, DoClaim, DoTake, DoEvict;
    match step
    case Claim(i) => ClosingLosesNothing(s.store, s.net, i);
    case Take(i) => ClosingLosesNothing(s.store, s.net, i);
    case Evict(h) => ForgettingLosesNothing(s.store, s.net, h);
  }

  lemma ReceiptAgrees(cfg: Config, s: State, i: nat, h: Hash, reported: Key)
    requires Agreement(s) && Enabled(s, ReadReceipt(i, h, reported))
    ensures Agreement(Do(cfg, s, ReadReceipt(i, h, reported)))
  {
    hide Inv, InFlight, Agrees, InOrder, Forget;
    StepKeeps(cfg, s, ReadReceipt(i, h, reported));
  }

  lemma MiningKeepsTheRest(t: Tracker, log: Log, active: map<Key, Sender>, st: Store, n: Net, n': Net)
    requires InFlight(t, log, active, n) && Agrees(t, active, n) && NothingLost(st, n)
    requires n'.wire == n.wire && n'.mined == n.mined + 1 <= |n.wire| && n'.accepted == n.accepted[n.mined := true]
    requires forall k :: HubAfterwards(n', k) == HubAfterwards(n, k)
    ensures InFlight(t, log, active, n') && Agrees(t, active, n') && NothingLost(st, n')
  {
  }

  lemma MineAgrees(cfg: Config, s: State)
    requires Agreement(s) && Enabled(s, Mine(true))
    ensures Agreement(Do(cfg, s, Mine(true)))
  {
    StepKeeps(cfg, s, Mine(true));
    hide Inv, InFlight, Agrees, InOrder, NothingLost, Hub, HubAfterwards;
    MineMeetsTheHub(s.net);
    MiningKeepsTheRest(s.tracker, s.log, s.active, s.store, s.net, DoMine(s.net, true));
  }

  lemma OtherStepAgrees(cfg: Config, s: State, step: Step)
    requires Agreement(s) && Enabled(s, step) && Benign(cfg, s, step)
    requires step.Apply? || step.FireGrace? || step.Peek?
    ensures Agreement(Do(cfg, s, step))
  {
    StepKeeps(cfg, s, step);
    hide Inv, InFlight, Agrees, InOrder, NothingLost, DoApply;
    match step
    case Apply(h) =>
      ApplyAgrees(cfg, s, h);
      ForgettingLosesNothing(s.store, s.net, h);
    case FireGrace(key, c) => FireAgrees(cfg, s, key, c);
    case Peek(_, _) =>
  }

  lemma StepAgrees(cfg: Config, s: State, step: Step)
    requires Agreement(s) && Enabled(s, step) && Benign(cfg, s, step)
    ensures Agreement(Do(cfg, s, step))
  {
    hide Agreement, Do;
    if IsSenderStep(step) { SenderStepAgrees(cfg, s, step); }
    else if step.ReadReceipt? { ReceiptAgrees(cfg, s, step.settler, step.hash, step.reported); }
    else if step.Claim? || step.Take? || step.Evict? { SettlerStepAgrees(cfg, s, step); }
    else if step.Mine? { MineAgrees(cfg, s); }
    else { OtherStepAgrees(cfg, s, step); }
  }

  lemma {:induction false} RunAgrees(cfg: Config, states: seq<State>, steps: seq<Step>, i: nat)
    requires BenignRun(cfg, states, steps) && i < |states|
    ensures Agreement(states[i])
  {
    if i > 0 {
      hide Agreement, Do, Benign;
      RunAgrees(cfg, states, steps, i - 1);
      StepAgrees(cfg, states[i - 1], steps[i - 1]);
    }
  }

  // ---------------------------------------------------------------- what the service promises

  /** Whenever a user's lock is free, the nonce the service expects is what the hub has plus what was sent and
      is not executed yet. */
  lemma ExpectedIsWhatTheHubWillExpect(cfg: Config, states: seq<State>, steps: seq<Step>, i: nat, key: Key)
    requires BenignRun(cfg, states, steps) && i < |states| && key !in states[i].active
    ensures var s := states[i]; ExpectedOf(s, key) == Hub(s.net, key) + Unexecuted(s.net, key)
  {
    RunAgrees(cfg, states, steps, i);
    if key !in states[i].tracker.current { QuietHasNothing(states[i], key); }
  }

  /** Every metatx that was sent is accepted when its turn comes: the hub finds the exact nonce it demands. */
  lemma EverySendIsAccepted(cfg: Config, states: seq<State>, steps: seq<Step>, i: nat)
    requires BenignRun(cfg, states, steps) && i < |steps| && steps[i].Mine?
    ensures var s := states[i]; var tx := s.net.wire[s.net.mined];
      tx.nonce == Hub(s.net, tx.key) && !Rejected(states[i + 1].net, s.net.mined)
  {
    RunAgrees(cfg, states, steps, i);
    MineMeetsTheHub(states[i].net);
  }

  /** A request of that user has put a transaction on the wire and has not noted it yet. */
  predicate Broadcasting(s: State, key: Key) { key in s.active && s.active[key].Broadcast? }

  /** Forgetting a user by grace loses nothing, even while a request of his holds his lock: when the callback drops his
      chain, everything he sent has been executed, but for a transaction his own request has just broadcast and is about
      to note. What the service expects of him does not move, unless that very transaction has been executed already,
      and then it catches up with it. */
  lemma GraceLosesNothing(cfg: Config, states: seq<State>, steps: seq<Step>, i: nat)
    requires BenignRun(cfg, states, steps) && i < |steps| && steps[i].FireGrace?
    requires var key := steps[i].key; key in states[i].tracker.current && key !in states[i + 1].tracker.current
    ensures var s, s', key := states[i], states[i + 1], steps[i].key;
      && (forall h | s.net.mined <= h < |s.net.wire| && s.net.wire[h].key == key :: Broadcasting(s, key) && s.active[key].hash == h)
      && ExpectedOf(s', key) == Hub(s.net, key)
      && ExpectedOf(s', key) == ExpectedOf(s, key) + if Broadcasting(s, key) && s.active[key].hash < s.net.mined then 1 else 0
  {
    RunAgrees(cfg, states, steps, i);
    assert Inv(states[i]);
    hide Agreement, Inv, Broadcasting;
    FiringDropsTheQuiet(cfg, states[i], steps[i].key, steps[i].chain);
    QuietIsExecuted(states[i], steps[i].key);
  }

  lemma FiringDropsTheQuiet(cfg: Config, s: State, key: Key, c: ChainId)
    requires Inv(s) && key in s.tracker.current && key !in Do(cfg, s, FireGrace(key, c)).tracker.current
    ensures s.tracker.current[key] in s.log && s.log[s.tracker.current[key]].open == {}
    ensures Do(cfg, s, FireGrace(key, c)).net == s.net
  {
    hide Inv;
    GraceDropsOnlyTheQuiet(cfg, s, key, c);
  }

  lemma QuietIsExecuted(s: State, key: Key)
    requires Agreement(s) && key in s.tracker.current && s.tracker.current[key] in s.log && s.log[s.tracker.current[key]].open == {}
    ensures forall h | s.net.mined <= h < |s.net.wire| && s.net.wire[h].key == key :: Broadcasting(s, key) && s.active[key].hash == h
    ensures Hub(s.net, key)
         == s.tracker.fields[s.tracker.current[key]].next + if Broadcasting(s, key) && s.active[key].hash < s.net.mined then 1 else 0
  {
    hide Inv, InFlight, InOrder, NothingLost;
    BroadcastIsLast(s, key);
    OnlyTheBroadcastIsLeft(s.tracker, s.log, s.active, s.net, key);
    CountTheBroadcast(s.net, key, Broadcasting(s, key));
  }

  lemma BroadcastIsLast(s: State, key: Key)
    requires Inv(s)
    ensures Broadcasting(s, key) ==> s.active[key].hash + 1 == |s.net.wire| && s.net.wire[s.active[key].hash].key == key
  {
    hide InvTracker, InvTrails, InvLocks, InvTurn, InvStore, InvRejected, InvGivenUp, InvPlaces, InvSlots;
  }

  lemma OnlyTheBroadcastIsLeft(t: Tracker, log: Log, active: map<Key, Sender>, n: Net, key: Key)
    requires InFlight(t, log, active, n) && key in t.current && t.current[key] in log && log[t.current[key]].open == {}
    ensures n.mined <= |n.wire|
    ensures forall h | n.mined <= h < |n.wire| && n.wire[h].key == key :: key in active && active[key].Broadcast? && active[key].hash == h
  {
  }

  lemma CountTheBroadcast(n: Net, key: Key, broadcasting: bool)
    requires n.mined <= |n.wire| && (broadcasting ==> n.wire != [] && n.wire[|n.wire| - 1].key == key)
    requires forall h | n.mined <= h < |n.wire| && n.wire[h].key == key :: broadcasting && h == |n.wire| - 1
    ensures Unexecuted(n, key) == if broadcasting && n.mined < |n.wire| then 1 else 0
  {
    if broadcasting && n.mined < |n.wire| { NoSends(n.wire, n.mined, |n.wire| - 1, key); }
    else { NoSends(n.wire, n.mined, |n.wire|, key); }
  }
}
