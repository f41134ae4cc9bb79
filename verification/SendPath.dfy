/** The send path of a metatx whose wait is over: the nonce is compared, the transaction is sent, and what was sent is
    noted on the user's chain and remembered, under the user's lock and the global one. What the node answers and what
    the clock says are inputs. */
module SendPath {
  import opened Base
  import opened ChainModel
  import opened HeldModel
  import opened Correlation
  import opened Tracker
  import opened Settlement
  import opened Handout

  datatype PreparedMetaTx = PreparedMetaTx(reqId: string, metaTxId: string, senderKey: Key, nonce: nat)

  /** What the node does during one send: the hub nonce it reports, if asked, whether the block has gas left, and the
      hash of the transaction it took. */
  datatype Node = Node(hubNonce: Option<nat>, enoughGas: Option<bool>, sent: Option<Hash>)

  datatype Times = Times(checkedAt: nat, refusedAt: nat, reservedAt: nat, rememberedAt: nat)

  datatype Result =
    | Sent(hash: Hash, pending: nat)
    | NodeFailed
    | BadNonce(expected: nat, got: nat, pending: nat)
    | BlockFull
    | SendFailed

  /** The transaction left: the block had gas and the node took it. */
  predicate Accepted(node: Node) { node.enoughGas == Some(true) && node.sent.Some? }

  class Sender {
    const tracker: Tracker
    const memory: CorrelationMap<NonceEntry>
    const handouts: Handouts

    constructor (tracker: Tracker, memory: CorrelationMap<NonceEntry>, handouts: Handouts)
      ensures this.tracker == tracker && this.memory == memory && this.handouts == handouts
    {
      this.tracker, this.memory, this.handouts := tracker, memory, handouts;
    }

    ghost predicate Valid()
      reads memory, tracker, tracker.chains, tracker.waiters, tracker.signals
    {
      tracker.ChainsOk() && tracker.HeldOk() && |memory.metaTx| <= MEMORY_MAX
    }

    /** noteSent: the ticket is closed first, then the nonce advances and those held are woken. */
    method NoteSent(key: Key, nonce: nat, now: nat) returns (chain: NonceEntry, pending: nat)
      requires tracker.ChainsOk() && tracker.HeldOk()
      modifies handouts, (if key in handouts.openTickets then {handouts.openTickets[key]} else {})
      modifies tracker`senders, tracker`chains, tracker.chains, tracker.waiters, tracker.signals
      ensures tracker.ChainsOk() && tracker.HeldOk()
      ensures tracker.AllChains() == Reserve(old(tracker.AllChains()), key, nonce, true, chain, now, tracker.ttl)
      ensures tracker.Registry() == Notify(old(tracker.Registry()), key)
      ensures key in tracker.senders && tracker.senders[key] == chain && pending == chain.pending
      ensures key in old(handouts.openTickets) ==> old(handouts.openTickets)[key].closed
      ensures key !in handouts.openTickets
    {
      hide Reserve, Notify;
      handouts.CloseOpenTicket(key);
      assert tracker.AllChains() == old(tracker.AllChains()) && tracker.Registry() == old(tracker.Registry());
      chain, pending := tracker.ReserveAndNotify(key, nonce, now);
    }

    method RememberSent(prepared: PreparedMetaTx, hash: Hash, chain: NonceEntry, now: nat)
      requires |memory.metaTx| <= MEMORY_MAX
      modifies memory
      ensures |memory.metaTx| <= MEMORY_MAX && hash in memory.metaTx
      ensures memory.metaTx[hash] == Entry(prepared.reqId, prepared.metaTxId, now, prepared.senderKey, Some(chain), false)
    {
      var _ := memory.Remember(prepared.reqId, prepared.metaTxId, hash, prepared.senderKey, Some(chain), now);
    }

    /** The end of sendPrepared, once the node took the transaction: it is remembered with the chain it was reserved on. */
    method NoteAndRemember(prepared: PreparedMetaTx, hash: Hash, times: Times) returns (pending: nat)
      requires Valid()
      modifies memory, handouts, (if prepared.senderKey in handouts.openTickets then {handouts.openTickets[prepared.senderKey]} else {})
      modifies tracker`senders, tracker`chains, tracker.chains, tracker.waiters, tracker.signals
      ensures Valid() && prepared.senderKey in tracker.senders
      ensures var key := prepared.senderKey; var chain := tracker.senders[key];
        && pending == chain.pending
        && tracker.AllChains() == Reserve(old(tracker.AllChains()), key, prepared.nonce, true, chain, times.reservedAt, tracker.ttl)
        && tracker.Registry() == Notify(old(tracker.Registry()), key)
        && hash in memory.metaTx
        && memory.metaTx[hash] == Entry(prepared.reqId, prepared.metaTxId, times.rememberedAt, key, Some(chain), false)
        && key !in handouts.openTickets
    {
      hide Reserve, Notify, Young, Oldest;
      var chain: NonceEntry;
      chain, pending := NoteSent(prepared.senderKey, prepared.nonce, times.reservedAt);
      assert memory.metaTx == old(memory.metaTx);
      ghost var chains, registry := tracker.AllChains(), tracker.Registry();
      RememberSent(prepared, hash, chain, times.rememberedAt);
      assert tracker.ChainsOk() && tracker.HeldOk();
      assert tracker.AllChains() == chains && tracker.Registry() == registry;
      assert prepared.senderKey !in handouts.openTickets;
    }

    /** reserveGasAndSend, with sendPrepared inside. */
    method ReserveGasAndSend(prepared: PreparedMetaTx, node: Node, times: Times) returns (result: Result)
      requires Valid()
      modifies memory, handouts, (if prepared.senderKey in handouts.openTickets then {handouts.openTickets[prepared.senderKey]} else {})
      modifies tracker`senders, tracker`chains, tracker.chains, tracker.waiters, tracker.signals
      ensures Valid()
      ensures result.Sent? <==> node.enoughGas == Some(true) && node.sent.Some?
      ensures !Accepted(node) ==>
        && result == (if node.enoughGas == Some(false) then BlockFull else SendFailed)
        && tracker.chains == old(tracker.chains)
        && tracker.AllChains() == old(tracker.AllChains()) && tracker.Registry() == old(tracker.Registry())
        && memory.metaTx == old(memory.metaTx) && handouts.Tickets() == old(handouts.Tickets())
      ensures Accepted(node) ==>
        var key, hash := prepared.senderKey, node.sent.value;
        && key in tracker.senders && result == Sent(hash, tracker.senders[key].pending)
        && tracker.AllChains() == Reserve(old(tracker.AllChains()), key, prepared.nonce, true, tracker.senders[key], times.reservedAt, tracker.ttl)
        && tracker.Registry() == Notify(old(tracker.Registry()), key)
        && hash in memory.metaTx
        && memory.metaTx[hash] == Entry(prepared.reqId, prepared.metaTxId, times.rememberedAt, key, Some(tracker.senders[key]), false)
        && key !in handouts.openTickets
    {
      hide Reserve, Notify;
      if node.enoughGas.None? { return SendFailed; }
      if !node.enoughGas.value { return BlockFull; }
      if node.sent.None? { return SendFailed; }
      var pending := NoteAndRemember(prepared, node.sent.value, times);
      result := Sent(node.sent.value, pending);
    }

    /** The end of sendReordered: a send that failed drops the chain, whatever was in flight on it. */
    method SendOrForget(prepared: PreparedMetaTx, node: Node, times: Times) returns (result: Result)
      requires Valid()
      modifies memory, handouts, (if prepared.senderKey in handouts.openTickets then {handouts.openTickets[prepared.senderKey]} else {})
      modifies tracker`senders, tracker`chains, tracker.chains, tracker.waiters, tracker.signals
      ensures Valid()
      ensures tracker.Registry() == Notify(old(tracker.Registry()), prepared.senderKey)
      ensures result.Sent? <==> node.enoughGas == Some(true) && node.sent.Some?
      ensures !Accepted(node) ==>
        && (result == BlockFull || result == SendFailed)
        && tracker.AllChains() == Forget(old(tracker.AllChains()), prepared.senderKey) && memory.metaTx == old(memory.metaTx)
      ensures Accepted(node) ==>
        var key, hash := prepared.senderKey, node.sent.value;
        && key in tracker.senders && result == Sent(hash, tracker.senders[key].pending)
        && tracker.AllChains() == Reserve(old(tracker.AllChains()), key, prepared.nonce, true, tracker.senders[key], times.reservedAt, tracker.ttl)
        && hash in memory.metaTx && memory.metaTx[hash].chain == Some(tracker.senders[key])
    {
      hide Reserve, Notify, Forget;
      result := ReserveGasAndSend(prepared, node, times);
      if !result.Sent? {
        tracker.ForgetChain(prepared.senderKey);
      }
    }

    /** sendReordered once the wait for the turn is over. */
    method SendInTurn(prepared: PreparedMetaTx, node: Node, times: Times) returns (result: Result)
      requires Valid()
      modifies memory, handouts, (if prepared.senderKey in handouts.openTickets then {handouts.openTickets[prepared.senderKey]} else {})
      modifies tracker`senders, tracker`chains, tracker.chains, tracker.waiters, tracker.signals
      ensures Valid()
      ensures result.Sent? ==> node.enoughGas == Some(true) && node.sent == Some(result.hash)
      ensures var key, nonce := prepared.senderKey, prepared.nonce;
        var seen := Touch(old(tracker.AllChains()), key, times.checkedAt, tracker.ttl);
        var expected := Expected(seen, key, node.hubNonce);
        var was, now := old(tracker.Registry()), tracker.Registry();
        if expected.None? then
          result == NodeFailed && tracker.AllChains() == seen && now == was && memory.metaTx == old(memory.metaTx)
        else if expected.value != nonce then
          && result == BadNonce(expected.value, nonce, PendingOf(tracker.AllChains(), key))
          && tracker.AllChains() == Touch(seen, key, times.refusedAt, tracker.ttl)
          && now == was && memory.metaTx == old(memory.metaTx)
        else if !Accepted(node) then
          && (result == BlockFull || result == SendFailed)
          && tracker.AllChains() == Forget(seen, key) && now == Notify(was, key) && memory.metaTx == old(memory.metaTx)
        else
          && key in tracker.senders && result == Sent(node.sent.value, tracker.senders[key].pending)
          && tracker.AllChains() == Reserve(seen, key, nonce, true, tracker.senders[key], times.reservedAt, tracker.ttl)
          && now == Notify(was, key)
          && node.sent.value in memory.metaTx && memory.metaTx[node.sent.value].chain == Some(tracker.senders[key])
    {
      hide Touch, Reserve, Notify, Forget;
      var key, nonce := prepared.senderKey, prepared.nonce;
      var cached := tracker.CachedNonce(key, times.checkedAt);
      assert tracker.HeldOk() && tracker.Registry() == old(tracker.Registry());
      var expected := if cached.Some? then cached else node.hubNonce;
      if expected.None? { return NodeFailed; }
      if nonce != expected.value {
        var pending := tracker.PendingFor(key, times.refusedAt);
        return BadNonce(expected.value, nonce, pending);
      }
      result := SendOrForget(prepared, node, times);
    }
  }

  /** A metatx that is sent carried the nonce that was expected, and leaves its user's chain expecting the one after it,
      with one more in flight than the chain had; on a new chain it is the only one. */
  lemma SendingAdvancesByOne<C>(s: Chains<C>, key: Key, nonce: nat, newborn: C, hubNonce: Option<nat>, checkedAt: nat, reservedAt: nat, ttl: nat)
    requires s.Known() && newborn !in s.fields
    requires Expected(Touch(s, key, checkedAt, ttl), key, hubNonce) == Some(nonce)
    ensures var seen := Touch(s, key, checkedAt, ttl); var r := Reserve(seen, key, nonce, true, newborn, reservedAt, ttl);
      && key in r.current && Expected(r, key, hubNonce) == Some(nonce + 1)
      && (forall k | k != key :: k in r.current <==> k in s.current)
      && (forall k | k != key && k in s.current :: r.current[k] == s.current[k])
      && PendingOf(r, key) == 1 + (if key in seen.current && !Stale(seen, key, reservedAt, ttl) then PendingOf(seen, key) else 0)
      && (r.current[key] == newborn <==> key !in seen.current || Stale(seen, key, reservedAt, ttl))
  {
  }
}
