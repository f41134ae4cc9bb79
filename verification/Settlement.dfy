/** How a metatx is closed: by the client that asks, by the watcher on every block, or because its result did not come
    in time. All of them go through the same claim and give back the slot on the chain it was reserved on. */
module Settlement {
  import opened Base
  import opened ChainModel
  import opened HeldModel
  import opened Correlation
  import opened Tracker

  /** The state that settling touches. */
  datatype Service<C(==), H(==)> = Service(memory: Memory<C>, chains: Chains<C>, held: Held<H>) {
    ghost predicate Known() { chains.Known() && held.Known() }
  }

  /** What the node says of a transaction: nothing yet, or a receipt in whose events the hub refused the metatx of
      those senders, and perhaps this one. */
  datatype Answer = NoReceipt | Receipt(refused: seq<Key>, hubRejected: bool)

  /** releaseChain, with those it wakes. */
  function Released<C(==), H(==)>(s: Service<C, H>, key: Key, chain: C, window: nat): (r: Service<C, H>)
    requires s.Known()
    ensures r.Known() && r.memory == s.memory
  {
    s.(chains := Release(s.chains, key, chain, window),
       held := if key in s.chains.current && s.chains.current[key] == chain then Notify(s.held, key) else s.held)
  }

  /** releaseSent: a metatx the hub refused gives nothing back, its chain is already gone. */
  function ReleasedSent<C(==), H(==)>(s: Service<C, H>, h: Hash, rejected: bool, window: nat): (r: Service<C, H>)
    requires s.Known()
    ensures r.Known() && r.memory == Taken(s.memory, h)
  {
    var taken := s.(memory := Taken(s.memory, h));
    if SlotOf(s.memory, h).None? || s.memory[h].senderKey == "" || rejected then taken
    else Released(taken, s.memory[h].senderKey, SlotOf(s.memory, h).value, window)
  }

  /** settle: only whoever wins the claim gives anything back. */
  function Settled<C(==), H(==)>(s: Service<C, H>, h: Hash, rejected: bool, window: nat): (r: Service<C, H>)
    requires s.Known()
    ensures r.Known()
  {
    if Wins(s.memory, h) then ReleasedSent(s.(memory := Claimed(s.memory, h)), h, rejected, window) else s
  }

  /** expireOne: a result that did not come within `timeout` is given up. */
  function ExpiredOne<C(==), H(==)>(s: Service<C, H>, item: InFlightMetaTx<C>, now: nat, timeout: nat, window: nat): (r: Service<C, H>)
    requires s.Known()
    ensures r.Known()
  {
    if now < item.sentAt + timeout then s else Settled(s, item.hash, false, window)
  }

  /** Reading a receipt drops the chain of every sender the hub refused. */
  function Forgotten<C(==), H(==)>(s: Service<C, H>, refused: seq<Key>): (r: Service<C, H>)
    requires s.Known()
    ensures r.Known() && r.memory == s.memory
  {
    if refused == [] then s
    else
      var before := Forgotten(s, refused[..|refused| - 1]);
      var key := refused[|refused| - 1];
      before.(chains := Forget(before.chains, key), held := Notify(before.held, key))
  }

  /** The clock is read twice for each transaction of a pass. */
  datatype Timing = Timing(recalledAt: nat, judgedAt: nat)

  function PassedOne<C(==), H(==)>(s: Service<C, H>, item: InFlightMetaTx<C>, answer: Answer, time: Timing, timeout: nat, window: nat)
    : (r: Service<C, H>)
    requires s.Known()
    ensures r.Known()
  {
    var recalled := s.(memory := Recalled(s.memory, item.hash, time.recalledAt));
    match answer
    case NoReceipt => ExpiredOne(recalled, item, time.judgedAt, timeout, window)
    case Receipt(refused, rejected) => Settled(Forgotten(recalled, refused), item.hash, rejected, window)
  }

  /** A pass over the first `n` of the transactions in flight. */
  function Passed<C(==), H(==)>(s: Service<C, H>, items: seq<InFlightMetaTx<C>>, n: nat, answers: Hash -> Answer, times: Hash -> Timing,
                                timeout: nat, window: nat): (r: Service<C, H>)
    requires s.Known() && n <= |items|
    ensures r.Known()
  {
    if n == 0 then s
    else
      var item := items[n - 1];
      PassedOne(Passed(s, items, n - 1, answers, times, timeout, window), item, answers(item.hash), times(item.hash), timeout, window)
  }

  lemma NothingPassed<C, H>(s: Service<C, H>, items: seq<InFlightMetaTx<C>>, answers: Hash -> Answer, times: Hash -> Timing,
                            timeout: nat, window: nat)
    requires s.Known()
    ensures Passed(s, items, 0, answers, times, timeout, window) == s
  {
  }

  /** What a node that cannot be reached answers. */
  function Silence(h: Hash): Answer { NoReceipt }

  // ---------------------------------------------------------------- what a turn means

  /** The chains of these users were dropped with their timers, and nothing else happened to any chain. */
  ghost predicate OnlyDropped<C>(s: Chains<C>, r: Chains<C>, keys: set<Key>)
    requires s.Known() && r.Known()
  {
    && (forall k :: k in r.current <==> k in s.current && k !in keys)
    && (forall k <- r.current :: r.current[k] == s.current[k])
    && r.fields.Keys == s.fields.Keys
    && (forall c <- s.fields :: r.fields[c] == s.fields[c] || r.fields[c] == s.fields[c].(grace := false))
    && (forall k <- keys | k in s.current :: !r.fields[s.current[k]].grace)
    && (forall c <- s.fields | (forall k <- keys | k in s.current :: s.current[k] != c) :: r.fields[c] == s.fields[c])
  }

  /** Those held for these users were woken, and nothing else happened to anybody held. */
  ghost predicate OnlyWoken<H>(r: Held<H>, r': Held<H>, keys: set<Key>)
    requires r.Known()
  {
    && r'.lists == r.lists && r'.waiters.Keys == r.waiters.Keys
    && (forall k <- keys, h <- ListOf(r, k) :: r'.waiters[h] == r.waiters[h].(asleep := false))
    && (forall h <- r.waiters | (forall k <- keys :: h !in ListOf(r, k)) :: r'.waiters[h] == r.waiters[h])
  }

  lemma DroppingOneMore<C>(s: Chains<C>, r: Chains<C>, keys: set<Key>, key: Key)
    requires s.Known() && r.Known() && OnlyDropped(s, r, keys)
    ensures OnlyDropped(s, Forget(r, key), keys + {key})
  {
  }

  lemma WakingOneMore<H>(r: Held<H>, r': Held<H>, keys: set<Key>, key: Key)
    requires r.Known() && r'.Known() && OnlyWoken(r, r', keys)
    ensures OnlyWoken(r, Notify(r', key), keys + {key})
  {
    assert ListOf(r', key) == ListOf(r, key);
  }

  function KeysOf(refused: seq<Key>): (keys: set<Key>)
    ensures forall k :: k in keys <==> k in refused
  {
    set k | k in refused
  }

  lemma {:induction false} ForgettingAllMeans<C, H>(s: Service<C, H>, refused: seq<Key>)
    requires s.Known()
    ensures OnlyDropped(s.chains, Forgotten(s, refused).chains, KeysOf(refused))
    ensures OnlyWoken(s.held, Forgotten(s, refused).held, KeysOf(refused))
    decreases |refused|
  {
    if refused != [] {
      var last := |refused| - 1;
      var before := Forgotten(s, refused[..last]);
      ForgettingAllMeans(s, refused[..last]);
      hide OnlyDropped, OnlyWoken, Forget, Notify;
      DroppingOneMore(s.chains, before.chains, KeysOf(refused[..last]), refused[last]);
      WakingOneMore(s.held, before.held, KeysOf(refused[..last]), refused[last]);
      assert refused == refused[..last] + [refused[last]];
      assert KeysOf(refused) == KeysOf(refused[..last]) + {refused[last]};
    }
  }

  /** Settling closes what is remembered and not settled, and gives its slot back on its chain unless the hub refused it;
      for anything else it does nothing. */
  lemma SettlingMeans<C, H>(s: Service<C, H>, h: Hash, rejected: bool, window: nat)
    requires s.Known()
    ensures var r := Settled(s, h, rejected, window);
      if h !in s.memory || s.memory[h].settled then r == s
      else
        && r.memory == s.memory[h := s.memory[h].(settled := true, chain := None)]
        && if s.memory[h].chain.None? || s.memory[h].senderKey == "" || rejected
           then r.chains == s.chains && r.held == s.held
           else
             var key, c := s.memory[h].senderKey, s.memory[h].chain.value;
             && r.chains == Release(s.chains, key, c, window)
             && r.held == if key in s.chains.current && s.chains.current[key] == c then Notify(s.held, key) else s.held
  {
  }

  /** What settling does to the chains and to the held, whatever it was called for: it puts nobody to sleep, makes no
      chain current, drops one only if it gave a slot of it back without a grace window, and lowers by one at most the
      count of the chain that the transaction carried. */
  lemma SettlingTouchesOnly<C, H>(s: Service<C, H>, h: Hash, rejected: bool, window: nat)
    requires s.Known()
    ensures var r := Settled(s, h, rejected, window);
      var gives := h in s.memory && !s.memory[h].settled && s.memory[h].chain.Some? && !rejected;
      && (forall k <- r.chains.current :: k in s.chains.current && r.chains.current[k] == s.chains.current[k])
      && (forall k <- s.chains.current ::
            k in r.chains.current
            || (gives && window == 0 && s.memory[h].senderKey == k && s.memory[h].chain == Some(s.chains.current[k])))
      && r.chains.fields.Keys == s.chains.fields.Keys
      && (forall c <- s.chains.fields ::
            && r.chains.fields[c].next == s.chains.fields[c].next
            && (r.chains.fields[c].pending == s.chains.fields[c].pending
                || (gives && s.memory[h].chain == Some(c) && r.chains.fields[c].pending + 1 == s.chains.fields[c].pending)))
      && r.held.lists == s.held.lists && r.held.waiters.Keys == s.held.waiters.Keys
      && (forall g <- r.held.waiters | r.held.waiters[g].asleep :: s.held.waiters[g].asleep)
  {
    if h in s.memory && s.memory[h].chain.Some? {
      ReleasingMeans(s.chains, s.memory[h].senderKey, s.memory[h].chain.value, window);
    }
    hide Release;
  }

  /** A turn of the pass that read a receipt drops the chain of every user whom it refuses and wakes everyone held for
      him. Every other user keeps his chain, unless a slot of it was given back for this very transaction; then its count
      is lowered by one, and the chain dropped only if there is no grace window. */
  lemma ReceiptTurnMeans<C, H>(s: Service<C, H>, item: InFlightMetaTx<C>, refused: seq<Key>, rejected: bool, time: Timing,
                               timeout: nat, window: nat)
    requires s.Known()
    ensures var r := PassedOne(s, item, Receipt(refused, rejected), time, timeout, window);
      var gives := item.hash in s.memory && !s.memory[item.hash].settled && s.memory[item.hash].chain.Some? && !rejected
                   && time.recalledAt <= s.memory[item.hash].rememberedAt + MEMORY_TTL;
      && (forall k <- refused :: k !in r.chains.current)
      && (forall k <- refused, h <- ListOf(s.held, k) :: h in r.held.waiters && !r.held.waiters[h].asleep)
      && (forall k <- r.chains.current :: k in s.chains.current && r.chains.current[k] == s.chains.current[k])
      && (forall k <- s.chains.current | k !in refused ::
            k in r.chains.current
            || (gives && window == 0 && s.memory[item.hash].senderKey == k && s.memory[item.hash].chain == Some(s.chains.current[k])))
      && r.chains.fields.Keys == s.chains.fields.Keys
      && (forall c <- s.chains.fields ::
            && r.chains.fields[c].next == s.chains.fields[c].next
            && (r.chains.fields[c].pending == s.chains.fields[c].pending
                || (gives && s.memory[item.hash].chain == Some(c) && r.chains.fields[c].pending + 1 == s.chains.fields[c].pending)))
      && r.held.lists == s.held.lists && r.held.waiters.Keys == s.held.waiters.Keys
      && (forall h <- r.held.waiters | r.held.waiters[h].asleep :: s.held.waiters[h].asleep)
  {
    hide Settled, Forgotten;
    var recalled := s.(memory := Recalled(s.memory, item.hash, time.recalledAt));
    ForgettingAllMeans(recalled, refused);
    SettlingTouchesOnly(Forgotten(recalled, refused), item.hash, rejected, window);
  }

  /** A turn without a receipt makes no chain current, drops none if there is a grace window, and puts nobody to sleep. */
  lemma SilentTurnMeans<C, H>(s: Service<C, H>, item: InFlightMetaTx<C>, time: Timing, timeout: nat, window: nat)
    requires s.Known()
    ensures var r := PassedOne(s, item, NoReceipt, time, timeout, window);
      && (forall k <- r.chains.current :: k in s.chains.current && r.chains.current[k] == s.chains.current[k])
      && (window > 0 ==> r.chains.current == s.chains.current)
      && r.held.lists == s.held.lists && r.held.waiters.Keys == s.held.waiters.Keys
      && (forall h <- r.held.waiters | r.held.waiters[h].asleep :: s.held.waiters[h].asleep)
  {
    hide Settled;
    SettlingTouchesOnly(s.(memory := Recalled(s.memory, item.hash, time.recalledAt)), item.hash, false, window);
  }

  /** So after a pass nobody whom a receipt of it refused has a chain, and everyone who waited for it was woken; with a
      grace window the others all keep theirs. */
  lemma {:induction false} PassForgets<C, H>(s: Service<C, H>, items: seq<InFlightMetaTx<C>>, n: nat, answers: Hash -> Answer,
                                             times: Hash -> Timing, timeout: nat, window: nat)
    requires s.Known() && n <= |items|
    ensures var r := Passed(s, items, n, answers, times, timeout, window);
      && (forall i, k | 0 <= i < n && answers(items[i].hash).Receipt? && k in answers(items[i].hash).refused ::
            k !in r.chains.current && forall h <- ListOf(s.held, k) :: h in r.held.waiters && !r.held.waiters[h].asleep)
      && (forall k <- r.chains.current :: k in s.chains.current && r.chains.current[k] == s.chains.current[k])
      && (window > 0 ==> forall k <- s.chains.current ::
            || k in r.chains.current
            || exists i :: 0 <= i < n && answers(items[i].hash).Receipt? && k in answers(items[i].hash).refused)
      && r.held.lists == s.held.lists && r.held.waiters.Keys == s.held.waiters.Keys
      && (forall h <- r.held.waiters | r.held.waiters[h].asleep :: s.held.waiters[h].asleep)
  {
    hide PassedOne;
    if n > 0 {
      var item := items[n - 1];
      var before := Passed(s, items, n - 1, answers, times, timeout, window);
      PassForgets(s, items, n - 1, answers, times, timeout, window);
      match answers(item.hash)
      case NoReceipt => SilentTurnMeans(before, item, times(item.hash), timeout, window);
      case Receipt(refused, rejected) => ReceiptTurnMeans(before, item, refused, rejected, times(item.hash), timeout, window);
    }
  }

  class Watcher {
    const tracker: Tracker
    const memory: CorrelationMap<NonceEntry>
    const receiptTimeout: nat
    const reorderEnabled: bool

    constructor (tracker: Tracker, memory: CorrelationMap<NonceEntry>, receiptTimeout: nat, reorderEnabled: bool)
      ensures this.tracker == tracker && this.memory == memory
      ensures this.receiptTimeout == receiptTimeout && this.reorderEnabled == reorderEnabled
    {
      this.tracker, this.memory, this.receiptTimeout, this.reorderEnabled := tracker, memory, receiptTimeout, reorderEnabled;
    }

    /** The chains that the memory carries exist. */
    ghost predicate Valid()
      reads memory, tracker, tracker.chains, tracker.waiters, tracker.signals
    {
      && tracker.ChainsOk() && tracker.HeldOk()
      && (forall h <- memory.metaTx | memory.metaTx[h].chain.Some? :: memory.metaTx[h].chain.value in tracker.chains)
    }

    ghost function Now(): (s: Service<NonceEntry, HeldMetaTx>)
      reads memory, tracker, tracker.chains, tracker.waiters, tracker.signals
      requires Valid()
      ensures s.Known()
    {
      Service(memory.metaTx, tracker.AllChains(), tracker.Registry())
    }

    method ReleaseSent(hash: Hash, rejected: bool)
      requires Valid()
      modifies memory, tracker`senders, tracker.chains, tracker.waiters, tracker.signals
      ensures Valid() && Now() == ReleasedSent(old(Now()), hash, rejected, tracker.graceWindow)
    {
      var key, chain := memory.TakeSlot(hash);
      if chain.None? || key == "" { return; }
      if rejected { return; }
      tracker.ReleaseChain(key, chain.value);
    }

    /** settle, once the receipt was read. */
    method Settle(hash: Hash, rejected: bool) returns (closed: bool)
      requires Valid()
      modifies memory, tracker`senders, tracker.chains, tracker.waiters, tracker.signals
      ensures Valid() && Now() == Settled(old(Now()), hash, rejected, tracker.graceWindow)
      ensures closed == Wins(old(memory.metaTx), hash)
    {
      closed := memory.ClaimSettled(hash);
      if !closed { return; }
      ReleaseSent(hash, rejected);
    }

    method ExpireOne(item: InFlightMetaTx<NonceEntry>, now: nat)
      requires Valid()
      modifies memory, tracker`senders, tracker.chains, tracker.waiters, tracker.signals
      ensures Valid() && Now() == ExpiredOne(old(Now()), item, now, receiptTimeout, tracker.graceWindow)
    {
      if now < item.sentAt + receiptTimeout { return; }
      var claimed := memory.ClaimSettled(item.hash);
      if !claimed { return; }
      ReleaseSent(item.hash, false);
    }

    method ForgetRefused(refused: seq<Key>)
      requires Valid()
      modifies tracker`senders, tracker.chains, tracker.waiters, tracker.signals
      ensures Valid() && Now() == Forgotten(old(Now()), refused)
    {
      for i := 0 to |refused|
        invariant Valid() && Now() == Forgotten(old(Now()), refused[..i])
      {
        assert refused[..i + 1][..i] == refused[..i];
        tracker.ForgetChain(refused[i]);
      }
      assert refused[..|refused|] == refused;
    }

    /** SettleInFlight, given whether the node can be reached and what it would answer for each transaction. */
    method SettleInFlight(reachable: bool, answers: Hash -> Answer, times: Hash -> Timing)
      returns (pending: seq<InFlightMetaTx<NonceEntry>>)
      requires Valid()
      modifies memory, tracker`senders, tracker.chains, tracker.waiters, tracker.signals
      ensures Valid()
      ensures if reorderEnabled then Snapshot(old(memory.metaTx), pending) else pending == []
      ensures Now() == Passed(old(Now()), pending, |pending|, if reachable then answers else Silence, times, receiptTimeout, tracker.graceWindow)
      ensures reachable ==>
        forall item <- pending | answers(item.hash).Receipt? :: forall k <- answers(item.hash).refused :: k !in tracker.senders
    {
      hide Passed;
      if !reorderEnabled {
        NothingPassed(Now(), [], if reachable then answers else Silence, times, receiptTimeout, tracker.graceWindow);
        return [];
      }
      pending := memory.InFlight();
      if |pending| == 0 {
        NothingPassed(Now(), pending, if reachable then answers else Silence, times, receiptTimeout, tracker.graceWindow);
        return;
      }
      if !reachable {
        ExpireInFlight(pending, times);
        return;
      }
      ghost var was := Now();
      SettleAll(pending, answers, times);
      PassForgets(was, pending, |pending|, answers, times, receiptTimeout, tracker.graceWindow);
    }

    /** The loop of SettleInFlight. */
    method SettleAll(pending: seq<InFlightMetaTx<NonceEntry>>, answers: Hash -> Answer, times: Hash -> Timing)
      requires Valid()
      modifies memory, tracker`senders, tracker.chains, tracker.waiters, tracker.signals
      ensures Valid()
      ensures Now() == Passed(old(Now()), pending, |pending|, answers, times, receiptTimeout, tracker.graceWindow)
    {
      for i := 0 to |pending|
        invariant Valid() && Now() == Passed(old(Now()), pending, i, answers, times, receiptTimeout, tracker.graceWindow)
      {
        var item := pending[i];
        SettleOne(item, answers(item.hash), times(item.hash));
      }
    }

    /** One turn of the loop of SettleInFlight. */
    method SettleOne(item: InFlightMetaTx<NonceEntry>, answer: Answer, time: Timing)
      requires Valid()
      modifies memory, tracker`senders, tracker.chains, tracker.waiters, tracker.signals
      ensures Valid() && Now() == PassedOne(old(Now()), item, answer, time, receiptTimeout, tracker.graceWindow)
    {
      var _ := memory.Recall(item.hash, time.recalledAt);
      assert Valid() && Now() == old(Now()).(memory := Recalled(old(memory.metaTx), item.hash, time.recalledAt));
      hide Recalled, ExpiredOne, Settled, Forgotten;
      match answer
      case NoReceipt =>
        ExpireOne(item, time.judgedAt);
      case Receipt(refused, rejected) =>
        ForgetRefused(refused);
        var _ := Settle(item.hash, rejected);
    }

    /** expireInFlight: the node could not be reached, which does not keep anything from expiring. */
    method ExpireInFlight(pending: seq<InFlightMetaTx<NonceEntry>>, times: Hash -> Timing)
      requires Valid()
      modifies memory, tracker`senders, tracker.chains, tracker.waiters, tracker.signals
      ensures Valid()
      ensures Now() == Passed(old(Now()), pending, |pending|, Silence, times, receiptTimeout, tracker.graceWindow)
    {
      for i := 0 to |pending|
        invariant Valid() && Now() == Passed(old(Now()), pending, i, Silence, times, receiptTimeout, tracker.graceWindow)
      {
        var item := pending[i];
        var time := times(item.hash);
        var _ := memory.Recall(item.hash, time.recalledAt);
        ExpireOne(item, time.judgedAt);
      }
    }
  }
}
