/** The nonce tracker as the service keeps it: two maps, chains and held metatx that are objects with an identity, all
    changed in place under one lock. Every method is one critical section, or a part of one, and is proved to do
    exactly what ChainModel and HeldModel say of it. */
module Tracker {
  import opened Base
  import opened ChainModel
  import opened HeldModel

  /** A user's chain of nonces. `grace` says that its deferred removal is scheduled. */
  class NonceEntry {
    var next: nat
    var pending: nat
    var updatedAt: nat
    var grace: bool

    constructor (next: nat)
      ensures this.next == next && pending == 0 && updatedAt == 0 && !grace
    {
      this.next, pending, updatedAt, grace := next, 0, 0, false;
    }
  }

  /** A wake channel: closed, never written. The runtime forbids closing it twice. */
  class Signal {
    var closed: bool

    constructor ()
      ensures !closed
    {
      closed := false;
    }

    method Close()
      requires !closed
      modifies this
      ensures closed
    {
      closed := true;
    }
  }

  /** One held metatx. `wake` is the channel of the current round of its wait, or null between two rounds. */
  class HeldMetaTx {
    const nonce: nat
    var wake: Signal?
    var evicted: bool
    var evictedInflight: nat

    constructor (nonce: nat)
      ensures this.nonce == nonce && wake == null && !evicted && evictedInflight == 0
    {
      this.nonce, wake, evicted, evictedInflight := nonce, null, false, 0;
    }
  }

  function ChainFields(c: NonceEntry): Chain
    reads c
  {
    Chain(c.next, c.pending, c.updatedAt, c.grace)
  }

  function HeldFields(h: HeldMetaTx): Waiter
    reads h
  {
    Waiter(h.nonce, h.wake != null, h.evicted, h.evictedInflight)
  }

  /** The last step of a release: a chain left without anything in flight is removed later, or now. */
  function Scheduled<C(==)>(s: Chains<C>, key: Key, chain: C, window: nat): Chains<C>
    requires s.Known() && key in s.current && s.current[key] == chain
  {
    if s.fields[chain].pending > 0 || s.fields[chain].grace then s
    else if window == 0 then Drop(s, key)
    else s.(fields := s.fields[chain := s.fields[chain].(grace := true)])
  }

  lemma ReleaseIs<C>(s: Chains<C>, key: Key, chain: C, window: nat)
    requires s.Known() && key in s.current && s.current[key] == chain
    ensures var left := s.(fields := s.fields[chain := s.fields[chain].(pending := Max(s.fields[chain].pending - 1, 0))]);
      Release(s, key, chain, window) == Scheduled(left, key, chain, window)
  {
  }

  /** A reservation, given the chain it is on: the one that was not too old, or a new one. */
  lemma ReserveIs<C>(s: Chains<C>, key: Key, nonce: nat, inFlight: bool, c: C, now: nat, ttl: nat)
    requires s.Known()
    requires var t := Touch(s, key, now, ttl); key in t.current ==> t.current[key] == c
    ensures var t := Touch(s, key, now, ttl);
      var was := if key in t.current then t.fields[c] else Chain(nonce + 1, 0, 0, false);
      Reserve(s, key, nonce, inFlight, c, now, ttl)
      == Chains(t.current[key := c],
                t.fields[c := Chain(Max(nonce + 1, was.next), was.pending + (if inFlight then 1 else 0), now, false)])
  {
    hide Touch;
    var t := Touch(s, key, now, ttl);
    if key in t.current { assert t.current[key := c] == t.current; }
  }

  class Tracker {
    const ttl: nat
    const graceWindow: nat
    const maxInflight: nat
    var senders: map<Key, NonceEntry>
    var held: map<Key, seq<HeldMetaTx>>
    ghost var chains: set<NonceEntry>
    ghost var waiters: set<HeldMetaTx>
    ghost var signals: set<Signal>

    constructor (ttl: nat, graceWindow: nat, maxInflight: nat)
      ensures this.ttl == ttl && this.graceWindow == graceWindow && this.maxInflight == maxInflight
      ensures ChainsOk() && HeldOk() && chains == {} && waiters == {} && signals == {}
      ensures AllChains() == Chains(map[], map[]) && Registry() == Held(map[], map[])
    {
      this.ttl, this.graceWindow, this.maxInflight := ttl, graceWindow, maxInflight;
      senders, held, chains, waiters, signals := map[], map[], {}, {}, {};
    }

    // -------------------------------------------------------------- chains

    ghost predicate ChainsOk()
      reads this`senders, this`chains
    {
      forall k <- senders :: senders[k] in chains
    }

    ghost function AllChains(): (s: Chains<NonceEntry>)
      reads this`senders, this`chains, chains
      requires ChainsOk()
      ensures s.Known()
    {
      Chains(senders, map c | c in chains :: ChainFields(c))
    }

    lemma ChainsAre()
      requires ChainsOk()
      ensures AllChains().current == senders && AllChains().fields.Keys == chains
    {
    }

    method DropLocked(key: Key, entry: NonceEntry)
      requires ChainsOk() && key in senders && senders[key] == entry
      modifies this`senders, entry`grace
      ensures ChainsOk() && AllChains() == Drop(old(AllChains()), key)
    {
      entry.grace := false;
      senders := senders - {key};
    }

    method ChainLocked(key: Key, now: nat) returns (entry: NonceEntry?)
      requires ChainsOk()
      modifies this`senders, chains
      ensures ChainsOk() && AllChains() == Touch(old(AllChains()), key, now, ttl)
      ensures entry == if key in senders then senders[key] else null
      ensures old(key in senders && now > senders[key].updatedAt + ttl) ==> senders == old(senders) - {key} && !old(senders)[key].grace
      ensures old(key in senders && now <= senders[key].updatedAt + ttl) ==> senders == old(senders) && unchanged(old(senders)[key])
      ensures key !in old(senders) ==> senders == old(senders)
      ensures forall c <- chains | key !in old(senders) || c != old(senders)[key] :: unchanged(c)
      ensures forall c <- chains :: c.next == old(c.next) && c.pending == old(c.pending) && c.updatedAt == old(c.updatedAt)
    {
      if key !in senders { return null; }
      entry := senders[key];
      if now > entry.updatedAt + ttl {
        DropLocked(key, entry);
        return null;
      }
    }

    /** The chain on which `nonce` is now reserved is handed back: it is what a result releases later. */
    method ReserveLocked(key: Key, nonce: nat, inFlight: bool, now: nat) returns (entry: NonceEntry)
      requires ChainsOk()
      modifies this`senders, this`chains, chains
      ensures ChainsOk() && chains == old(chains) + {entry} && key in senders && senders[key] == entry
      ensures AllChains() == Reserve(old(AllChains()), key, nonce, inFlight, entry, now, ttl)
      ensures key !in Touch(old(AllChains()), key, now, ttl).current ==> fresh(entry)
    {
      hide Touch, Reserve, AllChains;
      ghost var before := AllChains();
      var current := ChainLocked(key, now);
      ChainsAre();
      entry := FindOrCreate(key, current, nonce + 1);
      Extend(entry, nonce + 1, inFlight, now);
      ReserveIs(before, key, nonce, inFlight, entry, now, ttl);
    }

    /** The chain found, or a new one. */
    method FindOrCreate(key: Key, current: NonceEntry?, next: nat) returns (entry: NonceEntry)
      requires ChainsOk() && current == if key in senders then senders[key] else null
      modifies this`senders, this`chains
      ensures ChainsOk() && chains == old(chains) + {entry} && senders == old(senders)[key := entry]
      ensures if current != null then entry == current else fresh(entry)
      ensures AllChains() == Chains(old(senders)[key := entry], old(AllChains()).fields[entry :=
        if current != null then old(AllChains()).fields[entry] else Chain(next, 0, 0, false)])
    {
      if current == null {
        entry := new NonceEntry(next);
      } else {
        entry := current;
      }
      senders := senders[key := entry];
      chains := chains + {entry};
    }

    method Extend(entry: NonceEntry, next: nat, inFlight: bool, now: nat)
      requires ChainsOk() && entry in chains
      modifies entry
      ensures ChainsOk() && AllChains() == old(AllChains()).(fields := old(AllChains()).fields[entry :=
        var was := old(AllChains()).fields[entry];
        Chain(Max(next, was.next), was.pending + (if inFlight then 1 else 0), now, false)])
    {
      entry.grace := false;
      if next > entry.next {
        entry.next := next;
      }
      entry.updatedAt := now;
      if inFlight {
        entry.pending := entry.pending + 1;
      }
    }

    method CachedNonce(key: Key, now: nat) returns (next: Option<nat>)
      requires ChainsOk()
      modifies this`senders, chains
      ensures ChainsOk() && AllChains() == Touch(old(AllChains()), key, now, ttl)
      ensures next == if key in senders then Some(senders[key].next) else None
    {
      var entry := ChainLocked(key, now);
      next := if entry == null then None else Some(entry.next);
    }

    /** pendingOf. */
    method PendingFor(key: Key, now: nat) returns (pending: nat)
      requires ChainsOk()
      modifies this`senders, chains
      ensures ChainsOk() && AllChains() == Touch(old(AllChains()), key, now, ttl)
      ensures pending == PendingOf(AllChains(), key) == if key in senders then senders[key].pending else 0
    {
      var entry := ChainLocked(key, now);
      pending := if entry == null then 0 else entry.pending;
    }

    /** releaseChain: those held are woken although the next nonce did not change, because the count did. */
    method ReleaseChain(key: Key, chain: NonceEntry?)
      requires ChainsOk() && HeldOk() && (chain != null ==> chain in chains)
      modifies this`senders, chains, waiters, signals
      ensures ChainsOk() && HeldOk()
      ensures AllChains() == if chain == null then old(AllChains()) else Release(old(AllChains()), key, chain, graceWindow)
      ensures Registry() == if chain != null && key in old(senders) && old(senders)[key] == chain
                            then Notify(old(Registry()), key) else old(Registry())
    {
      hide AllChains, Registry, HeldOk, Notify, Scheduled;
      ChainsAre();
      if chain == null || key !in senders || senders[key] != chain { return; }
      hide *;
      ghost var was := AllChains();
      Discount(chain);
      assert HeldOk() && Registry() == old(Registry());
      ReleaseIs(was, key, chain, graceWindow);
      ghost var discounted := AllChains();
      NotifyTurnLocked(key);
      assert AllChains() == discounted;
      ScheduleRemoval(key, chain);
    }

    method Discount(chain: NonceEntry)
      requires ChainsOk() && chain in chains
      modifies chain`pending
      ensures ChainsOk() && AllChains() == old(AllChains()).(fields := old(AllChains()).fields[chain :=
        old(AllChains()).fields[chain].(pending := Max(old(AllChains()).fields[chain].pending - 1, 0))])
    {
      if chain.pending > 0 {
        chain.pending := chain.pending - 1;
      }
    }

    /** A user without anything in flight is not forgotten at once: more of the same burst may still be on its way. */
    method ScheduleRemoval(key: Key, chain: NonceEntry)
      requires ChainsOk() && key in senders && senders[key] == chain && HeldOk()
      modifies this`senders, chain`grace
      ensures ChainsOk() && HeldOk() && Registry() == old(Registry())
      ensures AllChains() == Scheduled(old(AllChains()), key, chain, graceWindow)
    {
      if chain.pending > 0 || chain.grace { return; }
      if graceWindow == 0 {
        DropLocked(key, chain);
        return;
      }
      chain.grace := true;
    }

    /** The callback of a grace timer. It may have been waiting for the lock when the timer was stopped. */
    method GraceExpired(key: Key, chain: NonceEntry)
      requires ChainsOk() && chain in chains
      modifies this`senders, chains
      ensures ChainsOk() && AllChains() == Fire(old(AllChains()), key, chain)
    {
      if key in senders && senders[key] == chain && chain.pending <= 0 {
        DropLocked(key, chain);
      }
    }

    method ForgetChain(key: Key)
      requires ChainsOk() && HeldOk()
      modifies this`senders, chains, waiters, signals
      ensures ChainsOk() && HeldOk()
      ensures AllChains() == Forget(old(AllChains()), key)
      ensures Registry() == Notify(old(Registry()), key)
    {
      hide AllChains, Registry, HeldOk, Drop, Notify;
      ChainsAre();
      if key in senders {
        DropLocked(key, senders[key]);
      }
      assert HeldOk() && Registry() == old(Registry());
      ghost var left := AllChains();
      NotifyTurnLocked(key);
      assert AllChains() == left;
    }

    /** The critical section of noteSent: the nonce is reserved, and those held for that user are woken. */
    method ReserveAndNotify(key: Key, nonce: nat, now: nat) returns (chain: NonceEntry, pending: nat)
      requires ChainsOk() && HeldOk()
      modifies this`senders, this`chains, chains, waiters, signals
      ensures ChainsOk() && HeldOk()
      ensures AllChains() == Reserve(old(AllChains()), key, nonce, true, chain, now, ttl)
      ensures Registry() == Notify(old(Registry()), key)
      ensures chain in chains && key in senders && senders[key] == chain && pending == chain.pending
    {
      hide *;
      chain := ReserveLocked(key, nonce, true, now);
      assert HeldOk() && Registry() == old(Registry());
      pending := chain.pending;
      ghost var reserved := AllChains();
      NotifyTurnLocked(key);
      assert AllChains() == reserved;
    }

    // -------------------------------------------------------------- the held

    /** An open wake channel belongs to one held metatx. */
    ghost predicate HeldOk()
      reads this`held, this`waiters, waiters, this`signals, signals
    {
      && (forall k <- held, h <- held[k] :: h in waiters)
      && (forall h <- waiters :: h.wake != null ==> h.wake in signals && !h.wake.closed)
      && (forall h, g | h in waiters && g in waiters && h != g :: h.wake != null ==> h.wake != g.wake)
    }

    ghost function Registry(): (r: Held<HeldMetaTx>)
      reads this`held, this`waiters, waiters, this`signals, signals
      requires HeldOk()
      ensures r.Known()
    {
      Held(held, map h | h in waiters :: HeldFields(h))
    }

    function WaitingOn(key: Key): seq<HeldMetaTx>
      reads this`held
    {
      if key in held then held[key] else []
    }

    method Hold(key: Key, nonce: nat) returns (entry: HeldMetaTx)
      requires HeldOk()
      modifies this`held, this`waiters
      ensures HeldOk() && fresh(entry) && waiters == old(waiters) + {entry}
      ensures Registry() == HeldModel.Hold(old(Registry()), key, entry, nonce)
    {
      entry := new HeldMetaTx(nonce);
      held := held[key := WaitingOn(key) + [entry]];
      waiters := waiters + {entry};
    }

    /** unholdLocked: searches the list and cuts the entry out of it; calling it again changes nothing. */
    method UnholdLocked(key: Key, entry: HeldMetaTx)
      requires HeldOk()
      modifies this`held
      ensures HeldOk() && Registry() == Unhold(old(Registry()), key, entry)
    {
      var list := WaitingOn(key);
      ghost var was := held;
      var found, rest := Remove(list, entry);
      if found {
        held := held[key := rest];
      }
      if |WaitingOn(key)| == 0 {
        held := held - {key};
      }
      UnholdIs(was, held, key, list, rest);
    }

    /** The list without the first occurrence of that entry. */
    static method Remove(list: seq<HeldMetaTx>, entry: HeldMetaTx) returns (found: bool, rest: seq<HeldMetaTx>)
      ensures rest == Without(list, entry) && (!found ==> rest == list) && (found ==> entry in list)
    {
      var index := 0;
      while index < |list| && list[index] != entry
        invariant 0 <= index <= |list|
        invariant Without(list, entry) == list[..index] + Without(list[index..], entry)
      {
        WithoutStep(list, index, entry);
        index := index + 1;
      }
      WithoutEnd(list, index, entry);
      found := index < |list|;
      rest := if found then list[..index] + list[index + 1..] else list;
    }

    method WaitTurnLocked(entry: HeldMetaTx) returns (wake: Signal)
      requires HeldOk() && entry in waiters
      modifies this`signals, entry`wake
      ensures HeldOk() && fresh(wake) && entry.wake == wake && signals == old(signals) + {wake}
      ensures Registry() == Arm(old(Registry()), entry)
    {
      wake := new Signal();
      signals := signals + {wake};
      entry.wake := wake;
    }

    /** stopWaitingLocked: whoever stops waiting on its own does not wake itself. */
    method StopWaitingLocked(entry: HeldMetaTx)
      requires HeldOk() && entry in waiters
      modifies entry`wake
      ensures HeldOk() && entry.wake == null
      ensures Registry() == Wake(old(Registry()), entry)
    {
      entry.wake := null;
    }

    method WakeLocked(entry: HeldMetaTx)
      requires HeldOk() && entry in waiters
      modifies entry`wake, signals
      ensures HeldOk() && entry.wake == null
      ensures old(entry.wake) != null ==> old(entry.wake).closed
      ensures forall signal <- signals | signal != old(entry.wake) :: signal.closed == old(signal.closed)
      ensures Registry() == Wake(old(Registry()), entry)
    {
      if entry.wake == null { return; }
      entry.wake.Close();
      entry.wake := null;
    }

    /** notifyTurnLocked: everyone held for that user is woken, nobody else. */
    method NotifyTurnLocked(key: Key)
      requires HeldOk()
      modifies waiters, signals
      ensures HeldOk() && Registry() == Notify(old(Registry()), key)
      ensures forall h <- WaitingOn(key) :: h.wake == null && (old(h.wake) != null ==> old(h.wake).closed)
      ensures forall h <- waiters | h !in WaitingOn(key) :: h.wake == old(h.wake)
    {
      var list := WaitingOn(key);
      for index := 0 to |list|
        invariant HeldOk()
        invariant forall h <- waiters :: h.evicted == old(h.evicted) && h.evictedInflight == old(h.evictedInflight)
        invariant forall h <- waiters :: h.wake == if h in list[..index] then null else old(h.wake)
        invariant forall h <- list[..index] :: old(h.wake) != null ==> old(h.wake).closed
      {
        WakeLocked(list[index]);
      }
    }

    method EvictHeldLocked(key: Key, entry: HeldMetaTx, inflight: nat)
      requires HeldOk() && entry in waiters
      modifies this`held, entry, signals
      ensures HeldOk() && Registry() == Evict(old(Registry()), key, entry, inflight)
      ensures old(entry.wake) != null ==> old(entry.wake).closed
    {
      hide Unhold, Wake;
      entry.evicted := true;
      entry.evictedInflight := inflight;
      assert Registry() == old(Registry()).(waiters := old(Registry()).waiters[entry := HeldFields(entry)]);
      UnholdLocked(key, entry);
      WakeLocked(entry);
    }

    method HighestHeldLocked(key: Key) returns (highest: HeldMetaTx?)
      requires HeldOk()
      ensures highest == null <==> Highest(Registry(), key).None?
      ensures highest != null ==>
        highest in waiters && Highest(Registry(), key) == Some(highest) && Registry().waiters[highest].nonce == highest.nonce
    {
      highest := null;
      var list := WaitingOn(key);
      ghost var fields := Registry().waiters;
      for index := 0 to |list|
        invariant highest == if index == 0 then null else list[HighestAt(list[..index], fields)]
      {
        var entry := list[index];
        assert list[..index + 1][..index] == list[..index];
        if highest == null || entry.nonce >= highest.nonce {
          highest := entry;
        }
      }
      assert list[..|list|] == list;
    }

    method InflightLocked(key: Key, now: nat) returns (inflight: nat)
      requires ChainsOk() && HeldOk()
      modifies this`senders, chains
      ensures ChainsOk() && AllChains() == Touch(old(AllChains()), key, now, ttl)
      ensures inflight == Inflight(Registry(), key, PendingOf(AllChains(), key))
      ensures inflight == |WaitingOn(key)| + if key in senders then senders[key].pending else 0
    {
      inflight := |WaitingOn(key)|;
      var entry := ChainLocked(key, now);
      if entry != null {
        inflight := inflight + entry.pending;
      }
    }

    // -------------------------------------------------------------- the quota

    method MakeRoomFor(key: Key, nonce: nat, now: nat) returns (inflight: nat, admitted: bool)
      requires ChainsOk() && HeldOk()
      modifies this`senders, chains, this`held, waiters, signals
      ensures ChainsOk() && HeldOk() && AllChains() == Touch(old(AllChains()), key, now, ttl)
      ensures (Registry(), inflight, admitted) ==
        MakeRoom(old(Registry()), key, nonce, PendingOf(AllChains(), key), maxInflight)
      ensures inflight == |old(WaitingOn(key))| + if key in senders then senders[key].pending else 0
      ensures inflight < maxInflight ==> admitted
      ensures inflight < maxInflight || !admitted ==> Registry() == old(Registry())
    {
      hide Touch, Evict, Highest, PendingOf, Inflight, AllChains, Registry, HeldOk;
      inflight := InflightLocked(key, now);
      assert HeldOk() && Registry() == old(Registry());
      if inflight < maxInflight { return inflight, true; }
      var highest := HighestHeldLocked(key);
      if highest == null || nonce >= highest.nonce { return inflight, false; }
      ghost var touched := AllChains();
      EvictHeldLocked(key, highest, inflight);
      assert AllChains() == touched;
      admitted := true;
    }

    method SurplusHeld(key: Key, entry: HeldMetaTx, now: nat) returns (inflight: nat, surplus: bool)
      requires ChainsOk() && HeldOk()
      modifies this`senders, chains
      ensures ChainsOk() && HeldOk() && AllChains() == Touch(old(AllChains()), key, now, ttl)
      ensures (inflight, surplus) == Surplus(Registry(), key, entry, PendingOf(AllChains(), key), maxInflight)
      ensures inflight == |WaitingOn(key)| + if key in senders then senders[key].pending else 0
      ensures surplus ==> inflight > maxInflight && entry in WaitingOn(key)
    {
      hide Touch, PendingOf;
      inflight := InflightLocked(key, now);
      if inflight <= maxInflight { return inflight, false; }
      var highest := HighestHeldLocked(key);
      surplus := highest == entry;
    }
  }

  lemma UnholdIs<H>(was: map<Key, seq<H>>, held: map<Key, seq<H>>, key: Key, list: seq<H>, rest: seq<H>)
    requires list == if key in was then was[key] else []
    requires rest != [] ==> list != []
    requires rest == [] ==> key !in held
    requires rest != [] ==> key in held && held[key] == rest
    requires forall k | k != key :: k in was <==> k in held
    requires forall k | k != key && k in was :: was[k] == held[k]
    ensures held == if rest == [] then was - {key} else was[key := rest]
  {
  }

  lemma WithoutStep<H>(list: seq<H>, index: nat, h: H)
    requires index < |list| && list[index] != h
    ensures list[..index] + Without(list[index..], h) == list[..index + 1] + Without(list[index + 1..], h)
  {
  }

  lemma WithoutEnd<H>(list: seq<H>, index: nat, h: H)
    requires index <= |list| && (index < |list| ==> list[index] == h)
    requires Without(list, h) == list[..index] + Without(list[index..], h)
    ensures Without(list, h) == if index < |list| then list[..index] + list[index + 1..] else list
  {
  }
}
