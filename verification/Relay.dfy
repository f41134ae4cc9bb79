/** The whole protocol of a relayed metatx as a state machine: the send path under the user lock and the
    global lock, the correlation memory, the racing settlers, the grace timer, and the hub and the writer
    account as environment. One step is one critical section, so every interleaving of requests is a run. */
module Relay {
  import opened Base
  import opened ChainModel
  import Correlation

  type ChainId = nat

  /** One transaction of the writer account: its position in `wire` is its writer nonce and its hash. */
  datatype Tx = Tx(key: Key, nonce: nat)

  /** Where the request that holds a user's lock stands. */
  datatype Sender =
    | Locked(nonce: nat)
    | AskHub(nonce: nat)
    | Checked(nonce: nat)
    | Global(nonce: nat)
    | Broadcast(nonce: nat, hash: Hash)
    | Noted(nonce: nat, hash: Hash, chain: ChainId)
    | Failed(nonce: nat)

  /** What was sent on one chain: whose it is, the nonce it started with, the transactions in order, and which
      of them still hold a slot of it. */
  datatype Trail = Trail(owner: Key, first: nat, sent: seq<Hash>, open: set<Hash>)

  type Log = map<ChainId, Trail>

  type Tracker = t: Chains<ChainId> | t.Known() witness Chains(map[], map[])

  /** What the service remembers of the transactions it sent. */
  type Memory = Correlation.Memory<ChainId>

  /** A goroutine that is closing a metatx: it read a verdict, or it won the claim. */
  datatype Settler = Verdict(hash: Hash, rejected: bool) | Winner(hash: Hash, rejected: bool)

  /** Where a slot went when it left the memory: a settler took it and will release it, its entry was evicted, or a
      settler took it and will not release it because the hub refused the metatx. */
  datatype Away = Due(key: Key, chain: ChainId) | Lost(chain: ChainId) | GivenUp(chain: ChainId)

  /** The correlation memory and the settlers at work on it. `away` are the slots that left `memos` and were not
      given back; the last four fields only record what happened: `misread` are the transactions whose refusal the
      hub reported for a sender they were not filed under. */
  datatype Store = Store(
    memos: Memory,
    settlers: map<nat, Settler>,
    away: map<Hash, Away>,
    remembered: set<Hash>,
    closings: map<Hash, nat>,
    given: map<Hash, nat>,
    misread: set<Hash>)

  /** The hub and the writer account. */
  datatype Net = Net(wire: seq<Tx>, mined: nat, accepted: map<Hash, bool>, hub: map<Key, nat>)

  datatype Config = Config(ttl: nat, grace: nat)

  /** `active` files a request under the user whose lock it holds, `relay` names the holder of the global lock,
      and `log` records what was sent on each chain. */
  datatype State = State(
    tracker: Tracker,
    nextId: ChainId,
    log: Log,
    active: map<Key, Sender>,
    relay: Option<Key>,
    store: Store,
    net: Net)

  datatype Step =
    // the send path of a request
    | Lock(key: Key, nonce: nat)
    | ReadCache(key: Key, now: nat)
    | ReadHub(key: Key)
    | Refuse(key: Key)
    | EnterGlobal(key: Key)
    | Send(key: Key)
    | FailSend(key: Key, left: bool)
    | ForgetFailed(key: Key)
    | Note(key: Key, now: nat)
    | Remember(key: Key, reqId: string, metaTxId: string, now: nat)
    // closing a metatx
    | ReadReceipt(settler: nat, hash: Hash, reported: Key)
    | GiveUp(settler: nat, hash: Hash)
    | Claim(settler: nat)
    | Take(settler: nat)
    | Apply(hash: Hash)
    // everything else that touches the same state
    | Evict(hash: Hash)
    | FireGrace(key: Key, chain: ChainId)
    | Peek(key: Key, now: nat)
    | ForeignForget(key: Key)
    | Mine(fit: bool)
    | OtherSpend(key: Key)

  /** The service starts, or starts again, with nothing in memory; users may have any history at the hub. */
  function Init(hub: map<Key, nat>): State {
    State(Chains(map[], map[]), 0, map[], map[], None,
          Store(map[], map[], map[], {}, map[], map[], {}), Net([], 0, map[], hub))
  }

  function Count<T(==)>(m: map<T, nat>, x: T): nat { if x in m then m[x] else 0 }

  predicate Enabled(s: State, step: Step) {
    match step
    case Lock(key, _) => key !in s.active
    case ReadCache(key, _) => key in s.active && s.active[key].Locked?
    case ReadHub(key) => key in s.active && s.active[key].AskHub?
    case Refuse(key) => key in s.active && (s.active[key].Locked? || s.active[key].AskHub?)
    case EnterGlobal(key) => key in s.active && s.active[key].Checked? && s.relay == None
    case Send(key) => key in s.active && s.active[key].Global?
    case FailSend(key, _) => key in s.active && s.active[key].Global?
    case ForgetFailed(key) => key in s.active && s.active[key].Failed?
    case Note(key, _) => key in s.active && s.active[key].Broadcast?
    case Remember(key, _, _, _) => key in s.active && s.active[key].Noted?
    case ReadReceipt(i, h, _) => i !in s.store.settlers && h in s.store.remembered && h < s.net.mined
    case GiveUp(i, h) => i !in s.store.settlers && h in s.store.remembered
    case Claim(i) => i in s.store.settlers && s.store.settlers[i].Verdict?
    case Take(i) => i in s.store.settlers && s.store.settlers[i].Winner?
    case Apply(h) => h in s.store.away && s.store.away[h].Due?
    case Evict(h) => h in s.store.memos
    case Mine(_) => s.net.mined < |s.net.wire|
    case _ => true
  }

  // ---------------------------------------------------------------- the effect of each step

  /** Where the comparison of the metatx's nonce with the cached one leads. */
  function AfterCache(t: Tracker, active: map<Key, Sender>, key: Key, nonce: nat): map<Key, Sender>
  {
    if key !in t.current then active[key := AskHub(nonce)]
    else if t.fields[t.current[key]].next == nonce then active[key := Checked(nonce)]
    else active - {key}
  }

  function Logged(log: Log, c: ChainId, key: Key, nonce: nat, hash: Hash): Log {
    log[c := if c in log then log[c].(sent := log[c].sent + [hash], open := log[c].open + {hash})
             else Trail(key, nonce, [hash], {hash})]
  }

  function Freed(log: Log, c: ChainId, h: Hash): Log {
    if c in log then log[c := log[c].(open := log[c].open - {h})] else log
  }

  function DoRead(st: Store, i: nat, h: Hash, rejected: bool, misread: bool): Store {
    st.(settlers := st.settlers[i := Verdict(h, rejected)], misread := if misread then st.misread + {h} else st.misread)
  }

  /** claimSettled: whoever loses the claim is done. */
  function DoClaim(st: Store, i: nat): Store
    requires i in st.settlers
  {
    var v := st.settlers[i];
    if !Correlation.Wins(st.memos, v.hash) then st.(settlers := st.settlers - {i})
    else st.(settlers := st.settlers[i := Winner(v.hash, v.rejected)],
             memos := Correlation.Claimed(st.memos, v.hash),
             closings := st.closings[v.hash := Count(st.closings, v.hash) + 1])
  }

  /** The first half of releaseSent: the slot leaves the memory, to be released unless the hub refused the metatx. */
  function DoTake(st: Store, i: nat): Store
    requires i in st.settlers
  {
    var v := st.settlers[i];
    st.(settlers := st.settlers - {i}, memos := Correlation.Taken(st.memos, v.hash),
        away := match Correlation.SlotOf(st.memos, v.hash)
                case None => st.away
                case Some(c) =>
                  var key := st.memos[v.hash].senderKey;
                  st.away[v.hash := if v.rejected || key == "" then GivenUp(c) else Due(key, c)])
  }

  function DoApply(st: Store, h: Hash): Store {
    st.(away := st.away - {h}, given := st.given[h := Count(st.given, h) + 1])
  }

  function DoEvict(st: Store, h: Hash): Store
    requires h in st.memos
  {
    st.(memos := st.memos - {h},
        away := if st.memos[h].chain.Some? then st.away[h := Lost(st.memos[h].chain.value)] else st.away)
  }

  /** The nonce the hub expects of a user. */
  function Hub(n: Net, key: Key): nat { Count(n.hub, key) }

  predicate Rejected(n: Net, h: Hash) { h in n.accepted && !n.accepted[h] }

  function SenderOf(n: Net, h: Hash): Key { if h < |n.wire| then n.wire[h].key else "" }

  /** The next transaction of the writer account is executed: the hub demands its exact nonce, and may
      reject it for a reason of its own when it is not `fit`. */
  function DoMine(n: Net, fit: bool): Net
    requires n.mined < |n.wire|
  {
    var tx := n.wire[n.mined];
    var ok := fit && tx.nonce == Hub(n, tx.key);
    Net(n.wire, n.mined + 1, n.accepted[n.mined := ok], if ok then n.hub[tx.key := Hub(n, tx.key) + 1] else n.hub)
  }

  /** The effect of one step. `cfg` holds the TTL of a chain and the grace window. */
  function Do(cfg: Config, s: State, step: Step): State
    requires Enabled(s, step)
  {
    match step
    case Lock(key, nonce) => s.(active := s.active[key := Locked(nonce)])
    case ReadCache(key, now) =>
      var t := Touch(s.tracker, key, now, cfg.ttl);
      s.(tracker := t, active := AfterCache(t, s.active, key, s.active[key].nonce))
    case ReadHub(key) =>
      var nonce := s.active[key].nonce;
      s.(active := if Hub(s.net, key) == nonce then s.active[key := Checked(nonce)] else s.active - {key})
    case Refuse(key) => s.(active := s.active - {key})
    case EnterGlobal(key) => s.(active := s.active[key := Global(s.active[key].nonce)], relay := Some(key))
    case Send(key) =>
      var nonce := s.active[key].nonce;
      s.(net := s.net.(wire := s.net.wire + [Tx(key, nonce)]), active := s.active[key := Broadcast(nonce, |s.net.wire|)])
    case FailSend(key, left) =>
      var nonce := s.active[key].nonce;
      s.(active := s.active[key := Failed(nonce)], relay := None,
         net := if left then s.net.(wire := s.net.wire + [Tx(key, nonce)]) else s.net)
    case ForgetFailed(key) => s.(tracker := Forget(s.tracker, key), active := s.active - {key})
    case Note(key, now) =>
      var pc := s.active[key];
      var t := Reserve(s.tracker, key, pc.nonce, true, s.nextId, now, cfg.ttl);
      var c := t.current[key];
      s.(tracker := t, nextId := Max(s.nextId, c + 1), log := Logged(s.log, c, key, pc.nonce, pc.hash),
         active := s.active[key := Noted(pc.nonce, pc.hash, c)])
    case Remember(key, reqId, metaTxId, now) =>
      var pc := s.active[key];
      s.(store := s.store.(memos := s.store.memos[pc.hash := Correlation.Entry(reqId, metaTxId, now, key, Some(pc.chain), false)],
                           remembered := s.store.remembered + {pc.hash}),
         active := s.active - {key}, relay := None)
    case ReadReceipt(i, h, reported) =>
      var rejected := Rejected(s.net, h);
      s.(store := DoRead(s.store, i, h, rejected, rejected && reported != SenderOf(s.net, h)),
         tracker := if rejected then Forget(s.tracker, reported) else s.tracker)
    case GiveUp(i, h) => s.(store := DoRead(s.store, i, h, false, false))
    case Claim(i) => s.(store := DoClaim(s.store, i))
    case Take(i) => s.(store := DoTake(s.store, i))
    case Apply(h) =>
      s.(tracker := Release(s.tracker, s.store.away[h].key, s.store.away[h].chain, cfg.grace),
         log := Freed(s.log, s.store.away[h].chain, h),
         store := DoApply(s.store, h))
    case Evict(h) => s.(store := DoEvict(s.store, h))
    case FireGrace(key, c) => s.(tracker := Fire(s.tracker, key, c))
    case Peek(key, now) => s.(tracker := Touch(s.tracker, key, now, cfg.ttl))
    case ForeignForget(key) => s.(tracker := Forget(s.tracker, key))
    case Mine(fit) => s.(net := DoMine(s.net, fit))
    case OtherSpend(key) => s.(net := s.net.(hub := s.net.hub[key := Hub(s.net, key) + 1]))
  }

  /** The hub executes the transactions in the order of the writer account, accepts one if and only if it carries the
      exact nonce it demands of that user and is otherwise fit, and demands the next one only then. */
  lemma MiningMeans(cfg: Config, s: State, fit: bool)
    requires Enabled(s, Mine(fit))
    ensures var n, n' := s.net, Do(cfg, s, Mine(fit)).net; var tx := n.wire[n.mined];
      var ok := fit && tx.nonce == if tx.key in n.hub then n.hub[tx.key] else 0;
      && Do(cfg, s, Mine(fit)) == s.(net := n')
      && n'.wire == n.wire && n'.mined == n.mined + 1 && n'.accepted == n.accepted[n.mined := ok]
      && n'.hub == if ok then n.hub[tx.key := tx.nonce + 1] else n.hub
  {
  }

  // ---------------------------------------------------------------- invariants

  /** Identities below `nextId` exist, the current chain of a user is his, and `next` follows the last nonce sent. */
  ghost predicate InvTracker(t: Chains<ChainId>, log: Log, nextId: ChainId) {
    && t.fields.Keys == log.Keys
    && (forall c <- log :: c < nextId)
    && (forall k <- t.current ::
          var c := t.current[k];
          c in log && log[c].owner == k && t.fields[c].next == log[c].first + |log[c].sent|)
  }

  /** The nonces sent on one chain are first, first+1, ..., and they left in the order of the writer account. */
  ghost predicate GapFree(trail: Trail, wire: seq<Tx>) {
    && (forall i | 0 <= i < |trail.sent| ::
          trail.sent[i] < |wire| && wire[trail.sent[i]] == Tx(trail.owner, trail.first + i))
    && (forall i, j | 0 <= i < j < |trail.sent| :: trail.sent[i] < trail.sent[j])
  }

  ghost predicate InvTrails(log: Log, wire: seq<Tx>) {
    forall c <- log :: GapFree(log[c], wire)
  }

  predicate InGlobal(pc: Sender) { pc.Global? || pc.Broadcast? || pc.Noted? }

  /** At most one request is in the global section. */
  ghost predicate InvLocks(active: map<Key, Sender>, relay: Option<Key>) {
    && (forall k <- active :: InGlobal(active[k]) <==> relay == Some(k))
    && (relay.Some? ==> relay.value in active)
  }

  /** A request past the comparison still carries the next nonce of whatever chain its user has. */
  ghost predicate InvTurn(active: map<Key, Sender>, t: Tracker)
  {
    forall k <- active | k in t.current ::
      !active[k].AskHub?
      && (active[k].Checked? || active[k].Global? || active[k].Broadcast? ==> t.fields[t.current[k]].next == active[k].nonce)
  }

  /** `h` holds a slot of chain `c`. */
  ghost predicate Open(log: Log, h: Hash, c: ChainId) {
    c in log && h in log[c].open
  }

  /** The transaction just broadcast is the last of the writer account, and is recorded nowhere before its turn. */
  ghost predicate InvFlying(active: map<Key, Sender>, log: Log, remembered: set<Hash>, wire: seq<Tx>) {
    && (forall k <- active | active[k].Broadcast? || active[k].Noted? ::
          && active[k].hash + 1 == |wire| && wire[active[k].hash] == Tx(k, active[k].nonce)
          && active[k].hash !in remembered)
    && (forall k <- active, c <- log | active[k].Broadcast? :: active[k].hash !in log[c].sent)
    && (forall k <- active | active[k].Noted? :: Open(log, active[k].hash, active[k].chain))
  }

  /** Each transaction is remembered once, and its slot is in at most one place. */
  ghost predicate InvStore(log: Log, st: Store, sent: nat) {
    && (forall h <- st.remembered :: h < sent)
    && (forall i <- st.settlers :: st.settlers[i].hash in st.remembered)
    && (forall h <- st.memos :: h in st.remembered)
    && (forall h <- st.away :: h in st.remembered && Open(log, h, st.away[h].chain))
    && (forall h <- st.away | st.away[h].Due? :: st.away[h].key == log[st.away[h].chain].owner)
    && (forall h <- st.memos | st.memos[h].chain.Some? ::
          h !in st.away && Open(log, h, st.memos[h].chain.value) && st.memos[h].senderKey == log[st.memos[h].chain.value].owner)
  }

  ghost predicate IsCurrent(t: Chains<ChainId>, log: Log, c: ChainId) {
    c in log && log[c].owner in t.current && t.current[log[c].owner] == c
  }

  /** A settler that read a refusal, reported for the sender it was filed under, has already dropped the chain its
      transaction was sent on. */
  ghost predicate InvRejected(t: Chains<ChainId>, log: Log, st: Store) {
    forall i <- st.settlers ::
      var v := st.settlers[i];
      v.rejected && v.hash !in st.misread && v.hash in st.memos && st.memos[v.hash].chain.Some?
      ==> !IsCurrent(t, log, st.memos[v.hash].chain.value)
  }

  /** So a slot given up is not one of a chain in use. */
  ghost predicate InvGivenUp(t: Chains<ChainId>, log: Log, away: map<Hash, Away>, misread: set<Hash>) {
    forall h <- away | away[h].GivenUp? && h !in misread && away[h].chain in log && log[away[h].chain].owner != "" ::
      !IsCurrent(t, log, away[h].chain)
  }

  // ---------------------------------------------------------------- slots

  /** The send that holds the global lock and is not in the memory yet. */
  ghost predicate Unremembered(active: map<Key, Sender>, relay: Option<Key>, h: Hash, c: ChainId) {
    relay.Some? && relay.value in active
    && (var pc := active[relay.value]; pc.Noted? && pc.hash == h && pc.chain == c)
  }

  /** A remembered transaction that still carries its chain. */
  ghost predicate Carried(st: Store, h: Hash, c: ChainId) { h in st.memos && st.memos[h].chain == Some(c) }

  /** A slot that left the memory and was not given back. */
  ghost predicate Gone(st: Store, h: Hash, c: ChainId) { h in st.away && st.away[h].chain == c }

  /** Every open slot is accounted for. */
  ghost predicate InvPlaces(active: map<Key, Sender>, relay: Option<Key>, log: Log, st: Store) {
    forall c <- log, h <- log[c].open ::
      Unremembered(active, relay, h, c) || Carried(st, h, c) || Gone(st, h, c)
  }

  /** A slot is held by a send of the same chain, and what a current chain counts as in flight is its slots. */
  ghost predicate InvSlots(t: Tracker, log: Log)
    requires forall k <- t.current :: t.current[k] in log
  {
    && (forall c <- log, h <- log[c].open :: h in log[c].sent)
    && (forall k <- t.current :: t.fields[t.current[k]].pending == |log[t.current[k]].open|)
  }

  ghost predicate Inv(s: State) {
    && InvTracker(s.tracker, s.log, s.nextId)
    && InvTrails(s.log, s.net.wire)
    && InvLocks(s.active, s.relay)
    && InvTurn(s.active, s.tracker)
    && InvFlying(s.active, s.log, s.store.remembered, s.net.wire)
    && InvStore(s.log, s.store, |s.net.wire|)
    && InvRejected(s.tracker, s.log, s.store)
    && InvGivenUp(s.tracker, s.log, s.store.away, s.store.misread)
    && InvPlaces(s.active, s.relay, s.log, s.store)
    && InvSlots(s.tracker, s.log)
  }

  // ---------------------------------------------------------------- preservation

  /** Some current chains were dropped, and nothing but grace timers changed. */
  ghost predicate Narrows(t: Tracker, u: Tracker) {
    && (forall k <- u.current :: k in t.current && u.current[k] == t.current[k])
    && u.fields.Keys == t.fields.Keys
    && (forall c <- t.fields :: u.fields[c].next == t.fields[c].next && u.fields[c].pending == t.fields[c].pending)
  }

  lemma NarrowingKeeps(s: State, u: Tracker)
    requires Inv(s) && Narrows(s.tracker, u)
    ensures Inv(s.(tracker := u))
  {
  }

  lemma DroppingNarrows(t: Tracker, key: Key, c: ChainId, now: nat, ttl: nat)
    ensures Narrows(t, Touch(t, key, now, ttl)) && Narrows(t, Fire(t, key, c)) && Narrows(t, Forget(t, key))
  {
  }

  /** A request that moves along outside the window between its broadcast and its record. */
  lemma MovingKeeps(s: State, key: Key, pc: Sender, relay: Option<Key>)
    requires Inv(s)
    requires key in s.active ==> !s.active[key].Broadcast? && !s.active[key].Noted?
    requires pc.AskHub? ==> key !in s.tracker.current
    requires pc.Checked? || pc.Global? ==> key in s.tracker.current ==> s.tracker.fields[s.tracker.current[key]].next == pc.nonce
    requires !pc.Broadcast? && !pc.Noted?
    requires relay == if pc.Global? then Some(key) else if s.relay == Some(key) then None else s.relay
    requires pc.Global? ==> s.relay == None || s.relay == Some(key)
    ensures Inv(s.(active := s.active[key := pc], relay := relay))
  {
  }

  lemma LeavingKeeps(s: State, key: Key)
    requires Inv(s) && key in s.active && s.relay != Some(key)
    ensures Inv(s.(active := s.active - {key}))
  {
  }

  lemma SendKeeps(s: State, key: Key)
    requires Inv(s) && key in s.active && s.active[key].Global?
    ensures Inv(s.(net := s.net.(wire := s.net.wire + [Tx(key, s.active[key].nonce)]),
                   active := s.active[key := Broadcast(s.active[key].nonce, |s.net.wire|)]))
  {
  }

  /** The chain a send is noted on is the one it was compared with, or a new one if that was dropped. */
  lemma NotingExtends(t: Tracker, log: Log, nextId: ChainId, key: Key, nonce: nat, now: nat, ttl: nat)
    requires InvTracker(t, log, nextId)
    requires key in t.current ==> t.fields[t.current[key]].next == nonce
    ensures var v := Reserve(t, key, nonce, true, nextId, now, ttl);
      && key in v.current
      && (var c := v.current[key];
          && (if c in log then key in t.current && c == t.current[key] else c == nextId)
          && (forall k <- v.current | k != key :: k in t.current && v.current[k] == t.current[k] && v.current[k] != c)
          && v.fields.Keys == t.fields.Keys + {c}
          && (forall d <- t.fields | d != c :: v.fields[d].next == t.fields[d].next && v.fields[d].pending == t.fields[d].pending)
          && v.fields[c].next == nonce + 1
          && v.fields[c].pending == (if c in log then t.fields[c].pending else 0) + 1)
  {
  }

  lemma NotingKeepsTracker(t: Tracker, v: Tracker, log: Log, nextId: ChainId, key: Key, nonce: nat, h: Hash)
    requires InvTracker(t, log, nextId)
    requires key in t.current ==> t.fields[t.current[key]].next == nonce
    requires key in v.current
    requires var c := v.current[key]; if c in log then key in t.current && c == t.current[key] else c == nextId
    requires forall k <- v.current | k != key :: k in t.current && v.current[k] == t.current[k] && v.current[k] != v.current[key]
    requires v.fields.Keys == t.fields.Keys + {v.current[key]}
    requires forall d <- t.fields | d != v.current[key] :: v.fields[d].next == t.fields[d].next
    requires v.fields[v.current[key]].next == nonce + 1
    ensures var c := v.current[key]; InvTracker(v, Logged(log, c, key, nonce, h), Max(nextId, c + 1))
  {
  }

  lemma NotingKeepsSlots(t: Tracker, v: Tracker, log: Log, nextId: ChainId, key: Key, nonce: nat, h: Hash)
    requires InvTracker(t, log, nextId) && InvSlots(t, log)
    requires key in v.current
    requires var c := v.current[key]; if c in log then key in t.current && c == t.current[key] else c == nextId
    requires forall k <- v.current | k != key :: k in t.current && v.current[k] == t.current[k] && v.current[k] != v.current[key]
    requires v.fields.Keys == t.fields.Keys + {v.current[key]}
    requires forall d <- t.fields | d != v.current[key] :: v.fields[d].pending == t.fields[d].pending
    requires var c := v.current[key]; v.fields[c].pending == (if c in log then t.fields[c].pending else 0) + 1
    requires forall c <- log :: h !in log[c].sent
    ensures InvSlots(v, Logged(log, v.current[key], key, nonce, h))
  {
    var c := v.current[key];
    if c in log {
      assert h !in log[c].open;
    }
  }

  lemma NotingLogs(log: Log, wire: seq<Tx>, c: ChainId, key: Key, nonce: nat, h: Hash)
    requires InvTrails(log, wire) && h + 1 == |wire| && wire[h] == Tx(key, nonce)
    requires c in log ==> log[c].owner == key && nonce == log[c].first + |log[c].sent| && h !in log[c].sent
    ensures InvTrails(Logged(log, c, key, nonce, h), wire)
  {
  }

  lemma NoteKeepsChains(s: State, v: Tracker, key: Key, now: nat, ttl: nat)
    requires Inv(s) && key in s.active && s.active[key].Broadcast?
    requires v == Reserve(s.tracker, key, s.active[key].nonce, true, s.nextId, now, ttl)
    ensures key in v.current
    ensures var pc, c := s.active[key], v.current[key]; var log := Logged(s.log, c, key, pc.nonce, pc.hash);
      InvTracker(v, log, Max(s.nextId, c + 1)) && InvSlots(v, log) && InvTrails(log, s.net.wire)
  {
    hide InvTrails, InvLocks, InvStore, InvRejected, InvGivenUp, InvPlaces, InvSlots, Reserve, Logged;
    var pc := s.active[key];
    NotingExtends(s.tracker, s.log, s.nextId, key, pc.nonce, now, ttl);
    NotingKeepsTracker(s.tracker, v, s.log, s.nextId, key, pc.nonce, pc.hash);
    NotingKeepsSlots(s.tracker, v, s.log, s.nextId, key, pc.nonce, pc.hash);
    NotingLogs(s.log, s.net.wire, v.current[key], key, pc.nonce, pc.hash);
  }

  lemma NoteKeeps(cfg: Config, s: State, key: Key, now: nat)
    requires Inv(s) && key in s.active && s.active[key].Broadcast?
    ensures Inv(Do(cfg, s, Note(key, now)))
  {
    hide InvTrails, InvLocks, InvFlying, InvStore, InvRejected, InvGivenUp, InvPlaces, InvSlots, Reserve, Logged;
    var pc := s.active[key];
    var v := Reserve(s.tracker, key, pc.nonce, true, s.nextId, now, cfg.ttl);
    NotingExtends(s.tracker, s.log, s.nextId, key, pc.nonce, now, cfg.ttl);
    NoteKeepsChains(s, v, key, now, cfg.ttl);
    NoteKeepsStore(s, v, key, v.current[key]);
  }

  lemma NoteKeepsStore(s: State, v: Tracker, key: Key, c: ChainId)
    requires Inv(s) && key in s.active && s.active[key].Broadcast?
    requires key in v.current && v.current[key] == c
    requires if c in s.log then key in s.tracker.current && c == s.tracker.current[key] else c == s.nextId
    requires forall k <- v.current | k != key :: k in s.tracker.current && v.current[k] == s.tracker.current[k] && v.current[k] != c
    requires s.tracker.fields.Keys <= v.fields.Keys && c in v.fields
    requires forall d <- s.tracker.fields | d != c :: v.fields[d].next == s.tracker.fields[d].next
    ensures var pc := s.active[key];
      var active, log := s.active[key := Noted(pc.nonce, pc.hash, c)], Logged(s.log, c, key, pc.nonce, pc.hash);
      && InvLocks(active, s.relay)
      && InvTurn(active, v)
      && InvFlying(active, log, s.store.remembered, s.net.wire)
      && InvStore(log, s.store, |s.net.wire|)
      && InvRejected(v, log, s.store)
      && InvGivenUp(v, log, s.store.away, s.store.misread)
      && InvPlaces(active, s.relay, log, s.store)
  {
    hide InvTrails, InvLocks, InvTurn, InvFlying, InvRejected, InvGivenUp, InvPlaces, InvSlots;
    var pc := s.active[key];
    var log := Logged(s.log, c, key, pc.nonce, pc.hash);
    NoteKeepsPlaces(s.active, s.relay, s.log, s.store, key, c);
    NoteKeepsFlying(s.active, s.relay, s.log, s.store.remembered, s.net.wire, key, c);
    StoreSurvives(s.log, log, s.store, |s.net.wire|);
    RejectedSurvive(s.tracker, v, s.log, log, s.store);
    GivenUpSurvive(s.tracker, v, s.log, log, s.store.away, s.store.misread);
    NoteKeepsTurn(s.active, s.tracker, v, key, Noted(pc.nonce, pc.hash, c));
  }

  lemma NoteKeepsTurn(active: map<Key, Sender>, t: Tracker, v: Tracker, key: Key, pc: Sender)
    requires InvTurn(active, t) && pc.Noted?
    requires forall k <- v.current | k != key ::
      k in t.current && v.current[k] == t.current[k] && v.fields[v.current[k]].next == t.fields[t.current[k]].next
    ensures InvTurn(active[key := pc], v)
  {
  }

  lemma NoteKeepsPlaces(active: map<Key, Sender>, relay: Option<Key>, log: Log, st: Store, key: Key, c: ChainId)
    requires InvLocks(active, relay) && InvPlaces(active, relay, log, st) && key in active && active[key].Broadcast?
    ensures var pc := active[key];
      InvPlaces(active[key := Noted(pc.nonce, pc.hash, c)], relay, Logged(log, c, key, pc.nonce, pc.hash), st)
  {
  }

  lemma NoteKeepsFlying(active: map<Key, Sender>, relay: Option<Key>, log: Log, remembered: set<Hash>, wire: seq<Tx>, key: Key, c: ChainId)
    requires InvLocks(active, relay) && InvFlying(active, log, remembered, wire) && key in active && active[key].Broadcast?
    ensures var pc := active[key];
      var active', log' := active[key := Noted(pc.nonce, pc.hash, c)], Logged(log, c, key, pc.nonce, pc.hash);
      InvLocks(active', relay) && InvFlying(active', log', remembered, wire)
  {
  }

  lemma StoreSurvives(log: Log, log': Log, st: Store, n: nat)
    requires InvStore(log, st, n)
    requires forall h, c | Open(log, h, c) :: Open(log', h, c)
    requires forall c <- log :: c in log' && log'[c].owner == log[c].owner
    ensures InvStore(log', st, n)
  {
  }

  /** A chain that is not current stays so: only a new identity can become current. */
  lemma RejectedSurvive(t: Tracker, v: Tracker, log: Log, log': Log, st: Store)
    requires InvRejected(t, log, st)
    requires forall h <- st.memos | st.memos[h].chain.Some? :: st.memos[h].chain.value in log
    requires forall c <- log :: c in log' && log'[c].owner == log[c].owner
    requires forall k <- v.current | v.current[k] in log :: k in t.current && t.current[k] == v.current[k]
    ensures InvRejected(v, log', st)
  {
  }

  lemma GivenUpSurvive(t: Tracker, v: Tracker, log: Log, log': Log, away: map<Hash, Away>, misread: set<Hash>)
    requires InvGivenUp(t, log, away, misread)
    requires forall h <- away :: away[h].chain in log
    requires forall c <- log :: c in log' && log'[c].owner == log[c].owner
    requires forall k <- v.current | v.current[k] in log :: k in t.current && t.current[k] == v.current[k]
    ensures InvGivenUp(v, log', away, misread)
  {
  }

  lemma RememberKeeps(cfg: Config, s: State, step: Step)
    requires Inv(s) && Enabled(s, step) && step.Remember?
    ensures Inv(Do(cfg, s, step))
  {
    var s' := Do(cfg, s, step);
    var key := step.key;
    var pc := s.active[key];
    assert InGlobal(pc) && s.relay == Some(key);
    assert forall k <- s.active | k != key :: !InGlobal(s.active[k]);
    assert pc.hash !in s.store.memos;
    assert Carried(s'.store, pc.hash, pc.chain);
    assert forall h, c | h != pc.hash :: Carried(s'.store, h, c) == Carried(s.store, h, c);
    assert Open(s.log, pc.hash, pc.chain);
  }

  /** What was sent on a chain is its owner's. */
  lemma OwnerSent(s: State, h: Hash, c: ChainId)
    requires Inv(s) && Open(s.log, h, c)
    ensures h < |s.net.wire| && s.net.wire[h].key == s.log[c].owner
  {
    hide InvTracker, InvLocks, InvTurn, InvFlying, InvStore, InvRejected, InvGivenUp, InvPlaces;
    assert h in s.log[c].sent;
  }

  /** So the chain of a refused transaction is dropped with that of the user it was sent for. */
  lemma RefusedIsDropped(s: State, h: Hash)
    requires Inv(s) && h in s.store.memos && s.store.memos[h].chain.Some? && h < |s.net.wire|
    requires s.net.wire[h].key !in s.tracker.current
    ensures !IsCurrent(s.tracker, s.log, s.store.memos[h].chain.value)
  {
    hide InvTracker, InvTrails, InvLocks, InvTurn, InvFlying, InvRejected, InvGivenUp, InvPlaces, InvSlots;
    OwnerSent(s, h, s.store.memos[h].chain.value);
  }

  lemma ReadingKeepsStore(log: Log, st: Store, i: nat, h: Hash, rejected: bool, misread: bool, n: nat)
    requires InvStore(log, st, n) && h in st.remembered
    ensures InvStore(log, DoRead(st, i, h, rejected, misread), n)
  {
  }

  lemma ReadingKeepsRejected(t: Tracker, log: Log, st: Store, i: nat, h: Hash, rejected: bool, misread: bool)
    requires InvRejected(t, log, st) && InvGivenUp(t, log, st.away, st.misread)
    requires rejected && !misread && h in st.memos && st.memos[h].chain.Some? ==> !IsCurrent(t, log, st.memos[h].chain.value)
    ensures var st' := DoRead(st, i, h, rejected, misread);
      InvRejected(t, log, st') && InvGivenUp(t, log, st'.away, st'.misread)
  {
    hide IsCurrent;
  }

  lemma ReadingKeepsPlaces(active: map<Key, Sender>, relay: Option<Key>, log: Log, st: Store, st': Store)
    requires InvPlaces(active, relay, log, st) && st'.memos == st.memos && st'.away == st.away
    ensures InvPlaces(active, relay, log, st')
  {
  }

  lemma SettlingKeeps(s: State, i: nat, h: Hash, rejected: bool, misread: bool)
    requires Inv(s) && h in s.store.remembered && h < |s.net.wire|
    requires rejected && !misread ==> s.net.wire[h].key !in s.tracker.current
    ensures Inv(s.(store := DoRead(s.store, i, h, rejected, misread)))
  {
    hide InvTracker, InvTrails, InvLocks, InvTurn, InvFlying, InvStore, InvRejected, InvGivenUp, InvPlaces, InvSlots, IsCurrent;
    if rejected && !misread && h in s.store.memos && s.store.memos[h].chain.Some? { RefusedIsDropped(s, h); }
    ReadingKeepsStore(s.log, s.store, i, h, rejected, misread, |s.net.wire|);
    ReadingKeepsRejected(s.tracker, s.log, s.store, i, h, rejected, misread);
    ReadingKeepsPlaces(s.active, s.relay, s.log, s.store, DoRead(s.store, i, h, rejected, misread));
  }

  lemma ClaimKeepsStore(t: Tracker, log: Log, st: Store, i: nat, n: nat)
    requires InvStore(log, st, n) && InvRejected(t, log, st) && i in st.settlers
    ensures InvStore(log, DoClaim(st, i), n) && InvRejected(t, log, DoClaim(st, i))
  {
  }

  lemma ClaimKeeps(s: State, i: nat)
    requires Inv(s) && i in s.store.settlers
    ensures Inv(s.(store := DoClaim(s.store, i)))
  {
    hide InvTracker, InvTrails, InvLocks, InvTurn, InvFlying, InvStore, InvRejected, InvGivenUp, InvSlots;
    ClaimKeepsStore(s.tracker, s.log, s.store, i, |s.net.wire|);
    assert forall h, c :: Carried(DoClaim(s.store, i), h, c) == Carried(s.store, h, c);
  }

  lemma TakeKeepsStore(log: Log, st: Store, i: nat, n: nat)
    requires InvStore(log, st, n) && i in st.settlers
    ensures InvStore(log, DoTake(st, i), n)
  {
  }

  lemma TakeKeepsRejected(t: Tracker, log: Log, st: Store, i: nat, n: nat)
    requires InvStore(log, st, n) && InvRejected(t, log, st) && InvGivenUp(t, log, st.away, st.misread) && i in st.settlers
    ensures InvRejected(t, log, DoTake(st, i)) && InvGivenUp(t, log, DoTake(st, i).away, DoTake(st, i).misread)
  {
  }

  lemma TakeKeepsPlaces(active: map<Key, Sender>, relay: Option<Key>, log: Log, st: Store, i: nat)
    requires InvPlaces(active, relay, log, st) && i in st.settlers
    requires forall h <- st.memos | st.memos[h].chain.Some? :: h !in st.away
    ensures InvPlaces(active, relay, log, DoTake(st, i))
  {
  }

  /** Giving back a slot says nothing about what was sent. */
  lemma FreeingKeeps(active: map<Key, Sender>, log: Log, remembered: set<Hash>, wire: seq<Tx>, c: ChainId, h: Hash)
    requires h in remembered
    requires InvTrails(log, wire) && InvFlying(active, log, remembered, wire)
    ensures InvTrails(Freed(log, c, h), wire) && InvFlying(active, Freed(log, c, h), remembered, wire)
  {
  }

  lemma TakeKeeps(s: State, i: nat)
    requires Inv(s) && i in s.store.settlers
    ensures Inv(s.(store := DoTake(s.store, i)))
  {
    hide InvTracker, InvTrails, InvLocks, InvTurn, InvFlying, InvRejected, InvGivenUp, InvPlaces, InvSlots, DoTake;
    TakeKeepsStore(s.log, s.store, i, |s.net.wire|);
    TakeKeepsRejected(s.tracker, s.log, s.store, i, |s.net.wire|);
    TakeKeepsPlaces(s.active, s.relay, s.log, s.store, i);
    TakingRemembers(s.store, i);
  }

  lemma TakingRemembers(st: Store, i: nat)
    requires i in st.settlers
    ensures DoTake(st, i).remembered == st.remembered
  {
  }

  lemma EvictKeepsStore(t: Tracker, log: Log, st: Store, h: Hash, n: nat)
    requires InvStore(log, st, n) && InvRejected(t, log, st) && InvGivenUp(t, log, st.away, st.misread) && h in st.memos
    ensures var st' := DoEvict(st, h);
      InvStore(log, st', n) && InvRejected(t, log, st') && InvGivenUp(t, log, st'.away, st'.misread)
  {
  }

  lemma EvictKeepsPlaces(active: map<Key, Sender>, relay: Option<Key>, log: Log, st: Store, h: Hash)
    requires InvPlaces(active, relay, log, st) && h in st.memos
    requires forall g <- st.memos | st.memos[g].chain.Some? :: g !in st.away
    ensures InvPlaces(active, relay, log, DoEvict(st, h))
  {
    var st' := DoEvict(st, h);
    assert forall g, c | g != h :: Carried(st', g, c) == Carried(st, g, c);
    assert forall c | Carried(st, h, c) :: Gone(st', h, c);
    assert forall g, c | Gone(st, g, c) :: Gone(st', g, c);
  }

  lemma EvictKeeps(s: State, h: Hash)
    requires Inv(s) && h in s.store.memos
    ensures Inv(s.(store := DoEvict(s.store, h)))
  {
    hide InvTracker, InvTrails, InvLocks, InvTurn, InvFlying, InvRejected, InvGivenUp, InvPlaces, InvSlots;
    EvictKeepsStore(s.tracker, s.log, s.store, h, |s.net.wire|);
    EvictKeepsPlaces(s.active, s.relay, s.log, s.store, h);
  }

  /** A release finds a slot to give back: what it counts down from is never zero. */
  lemma TakenIsCounted(s: State, h: Hash)
    requires Inv(s) && h in s.store.away && s.store.away[h].Due?
    ensures var key, c := s.store.away[h].key, s.store.away[h].chain;
      && h < |s.net.wire| && Open(s.log, h, c) && s.log[c].owner == s.net.wire[h].key == key
      && (key in s.tracker.current && s.tracker.current[key] == c ==> s.tracker.fields[c].pending > 0)
  {
    var c := s.store.away[h].chain;
    assert h in s.log[c].open && h in s.log[c].sent;
  }

  lemma TakenIsRemembered(s: State, h: Hash)
    requires Inv(s) && h in s.store.away
    ensures h in s.store.remembered && s.store.away[h].chain in s.log
    ensures DoApply(s.store, h).remembered == s.store.remembered && DoApply(s.store, h).misread == s.store.misread
  {
    hide InvTracker, InvTrails, InvLocks, InvTurn, InvFlying, InvRejected, InvGivenUp, InvPlaces, InvSlots;
  }

  lemma ApplyKeepsStore(t: Tracker, u: Tracker, log: Log, st: Store, h: Hash, n: nat)
    requires InvStore(log, st, n) && InvRejected(t, log, st) && h in st.away && st.away[h].chain in log
    requires forall k <- u.current :: k in t.current && u.current[k] == t.current[k]
    ensures InvStore(Freed(log, st.away[h].chain, h), DoApply(st, h), n)
    ensures InvRejected(u, Freed(log, st.away[h].chain, h), DoApply(st, h))
  {
  }

  lemma ApplyKeepsGivenUp(t: Tracker, u: Tracker, log: Log, st: Store, h: Hash)
    requires InvGivenUp(t, log, st.away, st.misread) && h in st.away
    requires forall k <- u.current :: k in t.current && u.current[k] == t.current[k]
    ensures InvGivenUp(u, Freed(log, st.away[h].chain, h), DoApply(st, h).away, st.misread)
  {
  }

  lemma ApplyKeepsPlaces(active: map<Key, Sender>, relay: Option<Key>, log: Log, st: Store, h: Hash)
    requires InvPlaces(active, relay, log, st) && h in st.away && st.away[h].chain in log
    ensures InvPlaces(active, relay, Freed(log, st.away[h].chain, h), DoApply(st, h))
  {
  }

  /** A release discounts the chain it names if that is the current one, and may drop it. */
  lemma ReleasingIs(t: Tracker, key: Key, c: ChainId, grace: nat)
    ensures var u := Release(t, key, c, grace);
      && u.fields.Keys == t.fields.Keys
      && (forall k <- u.current :: k in t.current && u.current[k] == t.current[k])
      && (forall d <- t.fields :: u.fields[d].next == t.fields[d].next)
      && (forall d <- t.fields | !(key in t.current && t.current[key] == d == c) :: u.fields[d].pending == t.fields[d].pending)
      && (key in t.current && t.current[key] == c ==> u.fields[c].pending == Max(t.fields[c].pending - 1, 0))
  {
  }

  lemma TurnSurvives(active: map<Key, Sender>, t: Tracker, u: Tracker)
    requires InvTurn(active, t)
    requires forall k <- u.current :: k in t.current && u.current[k] == t.current[k]
    requires u.fields.Keys == t.fields.Keys && forall d <- t.fields :: u.fields[d].next == t.fields[d].next
    ensures InvTurn(active, u)
  {
  }

  lemma ApplyKeepsTracker(t: Tracker, u: Tracker, log: Log, nextId: ChainId, c: ChainId, h: Hash)
    requires InvTracker(t, log, nextId) && c in log
    requires u.fields.Keys == t.fields.Keys
    requires forall k <- u.current :: k in t.current && u.current[k] == t.current[k]
    requires forall d <- t.fields :: u.fields[d].next == t.fields[d].next
    ensures InvTracker(u, Freed(log, c, h), nextId)
  {
  }

  lemma ApplyKeepsSlots(t: Tracker, u: Tracker, log: Log, nextId: ChainId, key: Key, c: ChainId, h: Hash)
    requires InvTracker(t, log, nextId) && InvSlots(t, log) && Open(log, h, c) && log[c].owner == key
    requires u.fields.Keys == t.fields.Keys
    requires forall k <- u.current :: k in t.current && u.current[k] == t.current[k]
    requires forall d <- t.fields | !(key in t.current && t.current[key] == d == c) :: u.fields[d].pending == t.fields[d].pending
    requires key in t.current && t.current[key] == c ==> u.fields[c].pending == Max(t.fields[c].pending - 1, 0)
    requires InvTracker(u, Freed(log, c, h), nextId)
    ensures InvSlots(u, Freed(log, c, h))
  {
  }

  lemma ApplyKeeps(cfg: Config, s: State, h: Hash)
    requires Inv(s) && h in s.store.away && s.store.away[h].Due?
    ensures Inv(Do(cfg, s, Apply(h)))
  {
    hide InvTracker, InvTrails, InvLocks, InvTurn, InvFlying, InvStore, InvRejected, InvGivenUp, InvPlaces, InvSlots, Release, Freed, DoApply;
    var key, c := s.store.away[h].key, s.store.away[h].chain;
    var u := Release(s.tracker, key, c, cfg.grace);
    TakenIsCounted(s, h);
    TakenIsRemembered(s, h);
    ReleasingIs(s.tracker, key, c, cfg.grace);
    TurnSurvives(s.active, s.tracker, u);
    ApplyKeepsTracker(s.tracker, u, s.log, s.nextId, c, h);
    ApplyKeepsSlots(s.tracker, u, s.log, s.nextId, key, c, h);
    ApplyKeepsGivenUp(s.tracker, u, s.log, s.store, h);
    ApplyKeepsStore(s.tracker, u, s.log, s.store, h, |s.net.wire|);
    ApplyKeepsPlaces(s.active, s.relay, s.log, s.store, h);
    FreeingKeeps(s.active, s.log, s.store.remembered, s.net.wire, c, h);
  }

  /** The hub works through the writer account, and other relayers may spend a user's nonce: neither is ours. */
  lemma NetKeeps(s: State, net: Net)
    requires Inv(s) && net.wire == s.net.wire
    ensures Inv(s.(net := net))
  {
  }

  lemma CacheKeeps(cfg: Config, s: State, key: Key, now: nat)
    requires Inv(s) && key in s.active && s.active[key].Locked?
    ensures Inv(Do(cfg, s, ReadCache(key, now)))
  {
    hide InvTrails, InvFlying, InvStore, InvRejected, InvGivenUp, InvPlaces, InvSlots;
    var nonce := s.active[key].nonce;
    var t := Touch(s.tracker, key, now, cfg.ttl);
    var u := s.(tracker := t);
    NarrowingKeeps(s, t);
    assert !InGlobal(s.active[key]);
    if key !in t.current { MovingKeeps(u, key, AskHub(nonce), u.relay); }
    else if t.fields[t.current[key]].next == nonce { MovingKeeps(u, key, Checked(nonce), u.relay); }
    else { LeavingKeeps(u, key); }
  }

  /** A transaction that nobody noted: it is on no chain, and no send is between its broadcast and its record. */
  lemma StrayKeeps(s: State, tx: Tx)
    requires Inv(s) && s.relay == None
    ensures Inv(s.(net := s.net.(wire := s.net.wire + [tx])))
  {
    assert forall k <- s.active :: !InGlobal(s.active[k]);
  }

  /** A send that fails may still have left its transaction on the writer account. */
  lemma FailSendKeeps(cfg: Config, s: State, key: Key, left: bool)
    requires Inv(s) && key in s.active && s.active[key].Global?
    ensures Inv(Do(cfg, s, FailSend(key, left)))
  {
    var nonce := s.active[key].nonce;
    assert InGlobal(s.active[key]);
    MovingKeeps(s, key, Failed(nonce), None);
    hide Inv;
    if left { StrayKeeps(s.(active := s.active[key := Failed(nonce)], relay := None), Tx(key, nonce)); }
  }

  ghost predicate IsSenderStep(step: Step) {
    step.Lock? || step.ReadCache? || step.ReadHub? || step.Refuse? || step.EnterGlobal? || step.Send?
    || step.FailSend? || step.ForgetFailed? || step.Note? || step.Remember?
  }

  lemma SenderStepKeeps(cfg: Config, s: State, step: Step)
    requires Inv(s) && Enabled(s, step) && IsSenderStep(step)
    ensures Inv(Do(cfg, s, step))
  {
    hide InvTrails, InvFlying, InvStore, InvRejected, InvGivenUp, InvPlaces, InvSlots;
    match step
    case Lock(key, nonce) => MovingKeeps(s, key, Locked(nonce), s.relay);
    case ReadCache(key, now) => CacheKeeps(cfg, s, key, now);
    case ReadHub(key) =>
      assert !InGlobal(s.active[key]);
      if Hub(s.net, key) == s.active[key].nonce { MovingKeeps(s, key, Checked(s.active[key].nonce), s.relay); }
      else { LeavingKeeps(s, key); }
    case Refuse(key) =>
      assert !InGlobal(s.active[key]);
      LeavingKeeps(s, key);
    case EnterGlobal(key) => MovingKeeps(s, key, Global(s.active[key].nonce), Some(key));
    case Send(key) => SendKeeps(s, key);
    case FailSend(key, left) => FailSendKeeps(cfg, s, key, left);
    case ForgetFailed(key) =>
      assert !InGlobal(s.active[key]);
      NarrowingKeeps(s, Forget(s.tracker, key));
      LeavingKeeps(s.(tracker := Forget(s.tracker, key)), key);
    case Note(key, now) => NoteKeeps(cfg, s, key, now);
    case Remember(_, _, _, _) => RememberKeeps(cfg, s, step);
  }

  lemma ReceiptKeeps(cfg: Config, s: State, i: nat, h: Hash, reported: Key)
    requires Inv(s) && Enabled(s, ReadReceipt(i, h, reported))
    ensures Inv(Do(cfg, s, ReadReceipt(i, h, reported)))
  {
    hide InvTrails, InvLocks, InvTurn, InvFlying, InvRejected, InvGivenUp, InvPlaces, InvSlots;
    var rejected := Rejected(s.net, h);
    var t := if rejected then Forget(s.tracker, reported) else s.tracker;
    NarrowingKeeps(s, t);
    SettlingKeeps(s.(tracker := t), i, h, rejected, rejected && reported != SenderOf(s.net, h));
  }

  lemma MiningKeepsWire(n: Net, fit: bool)
    requires n.mined < |n.wire|
    ensures DoMine(n, fit).wire == n.wire
  {
  }

  /** The steps that only drop a chain, or that are not the relayer's. */
  lemma OtherStepKeeps(cfg: Config, s: State, step: Step)
    requires Inv(s) && Enabled(s, step)
    requires step.FireGrace? || step.Peek? || step.ForeignForget? || step.Mine? || step.OtherSpend?
    ensures Inv(Do(cfg, s, step))
  {
    hide Inv, Narrows, Fire, Touch, Forget, Hub, DoMine;
    match step
    case FireGrace(key, c) =>
      DroppingNarrows(s.tracker, key, c, 0, cfg.ttl);
      NarrowingKeeps(s, Fire(s.tracker, key, c));
    case Peek(key, now) =>
      DroppingNarrows(s.tracker, key, 0, now, cfg.ttl);
      NarrowingKeeps(s, Touch(s.tracker, key, now, cfg.ttl));
    case ForeignForget(key) =>
      DroppingNarrows(s.tracker, key, 0, 0, cfg.ttl);
      NarrowingKeeps(s, Forget(s.tracker, key));
    case Mine(fit) =>
      MiningKeepsWire(s.net, fit);
      NetKeeps(s, DoMine(s.net, fit));
    case OtherSpend(key) => NetKeeps(s, s.net.(hub := s.net.hub[key := Hub(s.net, key) + 1]));
  }

  /** Every step of every interleaving keeps the invariant. */
  lemma StepKeeps(cfg: Config, s: State, step: Step)
    requires Inv(s) && Enabled(s, step)
    ensures Inv(Do(cfg, s, step))
  {
    match step
    case ReadReceipt(i, h, reported) => ReceiptKeeps(cfg, s, i, h, reported);
    case GiveUp(i, h) =>
      assert h < |s.net.wire|;
      hide Inv;
      SettlingKeeps(s, i, h, false, false);
    case Claim(i) =>
      hide Inv;
      ClaimKeeps(s, i);
    case Take(i) =>
      hide Inv;
      TakeKeeps(s, i);
    case Apply(h) =>
      hide Inv;
      ApplyKeeps(cfg, s, h);
    case Evict(h) =>
      hide Inv;
      EvictKeeps(s, h);
    case _ =>
      hide Inv;
      if IsSenderStep(step) { SenderStepKeeps(cfg, s, step); } else { OtherStepKeeps(cfg, s, step); }
  }
}
