/** What each critical section does to the registry of held metatx, as functions. `H` is the identity of a held
    metatx. The registry keeps, per user, the held ones in order of arrival. */
module HeldModel {
  import opened Base

  /** `asleep` says that the metatx has an open wake channel; `evictedInflight` is the count its eviction reported. */
  datatype Waiter = Waiter(nonce: nat, asleep: bool, evicted: bool, evictedInflight: nat)

  datatype Held<H(==)> = Held(lists: map<Key, seq<H>>, waiters: map<H, Waiter>) {

    /** Every registered metatx exists. */
    ghost predicate Known() { forall k <- lists, h <- lists[k] :: h in waiters }
  }

  /** The held metatx of one user; waitingOf is its length. */
  function ListOf<H(==)>(r: Held<H>, key: Key): seq<H> { if key in r.lists then r.lists[key] else [] }

  /** hold: a metatx is registered behind those already held. */
  function Hold<H(==)>(r: Held<H>, key: Key, h: H, nonce: nat): (r': Held<H>)
    requires r.Known()
    ensures r'.Known()
  {
    Held(r.lists[key := ListOf(r, key) + [h]], r.waiters[h := Waiter(nonce, false, false, 0)])
  }

  /** A list without the first occurrence of `h`. */
  function Without<H(==)>(list: seq<H>, h: H): (rest: seq<H>)
    ensures forall g <- rest :: g in list
    ensures h !in list ==> rest == list
  {
    if list == [] then []
    else if list[0] == h then list[1..]
    else [list[0]] + Without(list[1..], h)
  }

  /** unholdLocked: a user with nobody held has no list. */
  function Unhold<H(==)>(r: Held<H>, key: Key, h: H): (r': Held<H>)
    requires r.Known()
    ensures r'.Known()
  {
    var rest := Without(ListOf(r, key), h);
    r.(lists := if rest == [] then r.lists - {key} else r.lists[key := rest])
  }

  /** wakeLocked: the wake channel is closed, if there is one. */
  function Wake<H(==)>(r: Held<H>, h: H): (r': Held<H>)
    requires r.Known()
    ensures r'.Known()
  {
    if h in r.waiters then r.(waiters := r.waiters[h := r.waiters[h].(asleep := false)]) else r
  }

  /** notifyTurnLocked: everyone held for that user is woken. */
  function Notify<H(==)>(r: Held<H>, key: Key): (r': Held<H>)
    requires r.Known()
    ensures r'.Known()
  {
    r.(waiters := map h | h in r.waiters ::
      if h in ListOf(r, key) then r.waiters[h].(asleep := false) else r.waiters[h])
  }

  /** waitTurnLocked: the metatx gets a wake channel for this round of its wait. */
  function Arm<H(==)>(r: Held<H>, h: H): (r': Held<H>)
    requires r.Known()
    ensures r'.Known()
  {
    if h in r.waiters then r.(waiters := r.waiters[h := r.waiters[h].(asleep := true)]) else r
  }

  /** highestHeldLocked: the position of the last entry among those of the highest nonce. */
  function HighestAt<H(==)>(list: seq<H>, waiters: map<H, Waiter>): (at: nat)
    requires list != [] && forall h <- list :: h in waiters
    ensures at < |list|
    ensures forall i | 0 <= i < |list| :: waiters[list[i]].nonce <= waiters[list[at]].nonce
    ensures forall i | at < i < |list| :: waiters[list[i]].nonce < waiters[list[at]].nonce
  {
    var last := |list| - 1;
    if last == 0 then 0
    else
      var at := HighestAt(list[..last], waiters);
      if waiters[list[last]].nonce >= waiters[list[at]].nonce then last else at
  }

  /** The surplus when the quota is full: the held metatx of the highest nonce, the last of a tie. */
  function Highest<H(==)>(r: Held<H>, key: Key): Option<H>
    requires r.Known()
  {
    var list := ListOf(r, key);
    if list == [] then None else Some(list[HighestAt(list, r.waiters)])
  }

  /** evictHeldLocked: marked with the count that justified it, unregistered and woken. */
  function Evict<H(==)>(r: Held<H>, key: Key, h: H, inflight: nat): (r': Held<H>)
    requires r.Known() && h in r.waiters
    ensures r'.Known()
  {
    Wake(Unhold(r.(waiters := r.waiters[h := r.waiters[h].(evicted := true, evictedInflight := inflight)]), key, h), h)
  }

  /** inflightLocked, given what the chain of that user has pending. */
  function Inflight<H(==)>(r: Held<H>, key: Key, pending: nat): nat { |ListOf(r, key)| + pending }

  /** makeRoomFor: the registry afterwards, the count reported, and whether the arriving metatx is admitted. */
  function MakeRoom<H(==)>(r: Held<H>, key: Key, nonce: nat, pending: nat, max: nat): (out: (Held<H>, nat, bool))
    requires r.Known()
    ensures out.0.Known()
  {
    var inflight := Inflight(r, key, pending);
    if inflight < max then (r, inflight, true)
    else
      match Highest(r, key)
      case None => (r, inflight, false)
      case Some(h) => if nonce >= r.waiters[h].nonce then (r, inflight, false) else (Evict(r, key, h, inflight), inflight, true)
  }

  /** The quota is exceeded and that one is the highest of the list. */
  predicate InExcess<H(==)>(list: seq<H>, waiters: map<H, Waiter>, h: H, pending: nat, max: nat)
    requires forall g <- list :: g in waiters
  {
    |list| + pending > max && list != [] && list[HighestAt(list, waiters)] == h
  }

  /** surplusHeld: the count, and whether that held metatx is the one in excess. */
  function Surplus<H(==)>(r: Held<H>, key: Key, h: H, pending: nat, max: nat): (nat, bool)
    requires r.Known()
  {
    (Inflight(r, key, pending), InExcess(ListOf(r, key), r.waiters, h, pending, max))
  }

  // ---------------------------------------------------------------- lists

  ghost predicate Distinct<H>(list: seq<H>) { forall i, j | 0 <= i < j < |list| :: list[i] != list[j] }

  lemma {:induction false} WithoutAt<H>(list: seq<H>, at: nat)
    requires Distinct(list) && at < |list|
    ensures Without(list, list[at]) == list[..at] + list[at + 1..]
  {
    if at > 0 {
      WithoutAt(list[1..], at - 1);
      assert list[1..][..at - 1] == list[1..at];
    }
  }

  /** Cutting one out of a list leaves the others, once each. */
  lemma CuttingOne<H>(list: seq<H>, at: nat)
    requires Distinct(list) && at < |list|
    ensures var rest := list[..at] + list[at + 1..];
      Distinct(rest) && list[at] !in rest && forall h <- list | h != list[at] :: h in rest
  {
  }

  // ---------------------------------------------------------------- who is discarded for the quota

  /** The victim of the quota is the highest of its user: nobody held after it in the chain of nonces is orphaned,
      the others keep their places, the count falls by exactly one and no other user is touched. */
  lemma EvictionSparesTheChain<H>(r: Held<H>, key: Key, nonce: nat, pending: nat, max: nat)
    requires r.Known() && Distinct(ListOf(r, key))
    requires Inflight(r, key, pending) >= max
    ensures var list := ListOf(r, key); var (r', count, admitted) := MakeRoom(r, key, nonce, pending, max);
      && count == Inflight(r, key, pending)
      && (admitted <==> exists h <- list :: r.waiters[h].nonce > nonce)
      && (!admitted ==> r' == r)
      && (admitted ==>
            && (forall h <- list :: r.waiters[h].nonce <= r.waiters[list[HighestAt(list, r.waiters)]].nonce)
            && nonce < r.waiters[list[HighestAt(list, r.waiters)]].nonce
            && (var at := HighestAt(list, r.waiters);
                && ListOf(r', key) == list[..at] + list[at + 1..]
                && r'.waiters == r.waiters[list[at] := Waiter(r.waiters[list[at]].nonce, false, true, count)])
            && Inflight(r', key, pending) == count - 1)
      && (forall k | k != key :: ListOf(r', k) == ListOf(r, k))
  {
    hide Evict, HighestAt, Without, Distinct;
    var list := ListOf(r, key);
    if list != [] {
      var at := HighestAt(list, r.waiters);
      assert list[at] in list;
      EvictingMeans(r, key, at, Inflight(r, key, pending));
    }
  }

  /** Evicting the metatx at that place cuts it out of its list, marks it with the count, and wakes it. */
  lemma EvictingMeans<H>(r: Held<H>, key: Key, at: nat, count: nat)
    requires r.Known() && Distinct(ListOf(r, key)) && at < |ListOf(r, key)| && ListOf(r, key)[at] in r.waiters
    ensures var list := ListOf(r, key); var r' := Evict(r, key, list[at], count);
      && ListOf(r', key) == list[..at] + list[at + 1..] && (forall k | k != key :: ListOf(r', k) == ListOf(r, k))
      && r'.waiters == r.waiters[list[at] := Waiter(r.waiters[list[at]].nonce, false, true, count)]
  {
    WithoutAt(ListOf(r, key), at);
    hide Without, Distinct;
  }

  /** Unregistering a metatx that is no longer registered removes nothing. */
  lemma SecondUnholdIsNothing<H>(r: Held<H>, key: Key, h: H)
    requires r.Known() && Distinct(ListOf(r, key)) && (forall k <- r.lists :: r.lists[k] != [])
    ensures Unhold(Unhold(r, key, h), key, h) == Unhold(r, key, h)
    ensures h !in ListOf(Unhold(r, key, h), key)
  {
    CutOnce(ListOf(r, key), h);
    hide Without, Distinct;
  }

  lemma CutOnce<H>(list: seq<H>, h: H)
    requires Distinct(list)
    ensures h !in Without(list, h) && Without(Without(list, h), h) == Without(list, h)
  {
    if h in list {
      var at :| 0 <= at < |list| && list[at] == h;
      WithoutAt(list, at);
      CuttingOne(list, at);
    }
  }

  // ---------------------------------------------------------------- what they mean, entry by entry

  /** A held metatx goes behind those already held, awake and not evicted. */
  lemma HoldingMeans<H>(r: Held<H>, key: Key, h: H, nonce: nat)
    requires r.Known() && h !in r.waiters
    ensures var r' := Hold(r, key, h, nonce);
      && ListOf(r', key) == ListOf(r, key) + [h]
      && (forall k | k != key :: ListOf(r', k) == ListOf(r, k))
      && r'.waiters == r.waiters[h := Waiter(nonce, false, false, 0)]
  {
  }

  /** Unholding cuts that metatx out, keeps the order of the others, and is nothing for one that is not listed. */
  lemma UnholdingMeans<H>(r: Held<H>, key: Key, h: H, at: nat)
    requires r.Known() && Distinct(ListOf(r, key))
    requires h in ListOf(r, key) ==> at < |ListOf(r, key)| && ListOf(r, key)[at] == h
    ensures var r' := Unhold(r, key, h); var list := ListOf(r, key);
      && ListOf(r', key) == (if h in list then list[..at] + list[at + 1..] else list)
      && (forall k | k != key :: ListOf(r', k) == ListOf(r, k))
      && r'.waiters == r.waiters && (ListOf(r', key) == [] ==> key !in r'.lists)
  {
    if h in ListOf(r, key) { WithoutAt(ListOf(r, key), at); }
    hide Without;
  }

  /** A notification wakes everyone held for that user and nobody else, and changes nothing but that. */
  lemma NotifyingMeans<H>(r: Held<H>, key: Key)
    requires r.Known()
    ensures var r' := Notify(r, key);
      && r'.lists == r.lists && r'.waiters.Keys == r.waiters.Keys
      && (forall h <- r.waiters :: r'.waiters[h] == if h in ListOf(r, key) then r.waiters[h].(asleep := false) else r.waiters[h])
  {
  }

  /** Arming opens the channel of that metatx, waking closes it; neither touches anything else. */
  lemma ArmingAndWakingMean<H>(r: Held<H>, h: H)
    requires r.Known() && h in r.waiters
    ensures Arm(r, h) == r.(waiters := r.waiters[h := r.waiters[h].(asleep := true)])
    ensures Wake(r, h) == r.(waiters := r.waiters[h := r.waiters[h].(asleep := false)])
  {
  }

  /** The gate, whole: below the maximum everybody is admitted and nothing changes. From there on only whoever has a lower
      nonce than some held one. The count reported is that of the held ones and of those in flight. */
  lemma GateMeans<H>(r: Held<H>, key: Key, nonce: nat, pending: nat, max: nat)
    requires r.Known()
    ensures var n := |ListOf(r, key)| + pending; var (r', count, admitted) := MakeRoom(r, key, nonce, pending, max);
      && count == n
      && (admitted <==> n < max || exists h <- ListOf(r, key) :: r.waiters[h].nonce > nonce)
      && (n < max || !admitted ==> r' == r)
  {
    var list := ListOf(r, key);
    if list != [] { assert list[HighestAt(list, r.waiters)] in list; }
  }

  /** A held metatx is in excess if and only if there are more than the maximum, and it is the one of the highest nonce,
      the last of a tie. */
  lemma SurplusMeans<H>(r: Held<H>, key: Key, h: H, pending: nat, max: nat)
    requires r.Known()
    ensures var list := ListOf(r, key); var (count, surplus) := Surplus(r, key, h, pending, max);
      && count == |list| + pending
      && (surplus <==>
            && |list| + pending > max
            && exists i | 0 <= i < |list| :: list[i] == h && forall j | 0 <= j < |list| ::
                 r.waiters[list[j]].nonce <= r.waiters[h].nonce && (i < j ==> r.waiters[list[j]].nonce < r.waiters[h].nonce))
  {
    var list := ListOf(r, key);
    if list != [] {
      var at := HighestAt(list, r.waiters);
      assert list[at] in list;
      forall i | 0 <= i < |list| && list[i] == h && forall j | 0 <= j < |list| ::
        r.waiters[list[j]].nonce <= r.waiters[h].nonce && (i < j ==> r.waiters[list[j]].nonce < r.waiters[h].nonce)
        ensures i == at
      {
        assert list[i] in list;
      }
    }
  }
}
