/** What each critical section of the nonce tracker does to the chains of nonces, as functions.
    `C` is the identity of a chain (the pointer, in the service): two chains with equal fields stay different. */
module ChainModel {
  import opened Base

  /** A user's chain: the next nonce to use, how many metatx are in flight, when it was last written,
      and whether the grace timer is armed. */
  datatype Chain = Chain(next: nat, pending: nat, updatedAt: nat, grace: bool)

  /** The current chain of each user, and the fields of every chain ever created. */
  datatype Chains<C(==)> = Chains(current: map<Key, C>, fields: map<C, Chain>) {

    /** Every current chain exists. */
    ghost predicate Known() { forall k <- current :: current[k] in fields }
  }

  /** What the next metatx of a user is compared with: his chain if he has one, the nonce the hub reports otherwise. */
  function Expected<C(==)>(s: Chains<C>, key: Key, hub: Option<nat>): Option<nat>
    requires s.Known()
  {
    if key in s.current then Some(s.fields[s.current[key]].next) else hub
  }

  /** What the current chain of a user has in flight. */
  function PendingOf<C(==)>(s: Chains<C>, key: Key): nat
    requires s.Known()
  {
    if key in s.current then s.fields[s.current[key]].pending else 0
  }

  predicate Stale<C(==)>(s: Chains<C>, key: Key, now: nat, ttl: nat)
    requires s.Known()
  {
    key in s.current && now > s.fields[s.current[key]].updatedAt + ttl
  }

  /** dropLocked: the user has no chain any more, and the dropped one has no timer. */
  function Drop<C(==)>(s: Chains<C>, key: Key): (r: Chains<C>)
    requires s.Known() && key in s.current
    ensures r.Known()
  {
    var c := s.current[key];
    Chains(s.current - {key}, s.fields[c := s.fields[c].(grace := false)])
  }

  /** chainLocked: reading a chain past its TTL drops it. */
  function Touch<C(==)>(s: Chains<C>, key: Key, now: nat, ttl: nat): (r: Chains<C>)
    requires s.Known()
    ensures r.Known()
  {
    if Stale(s, key, now, ttl) then Drop(s, key) else s
  }

  /** reserveLocked: `newborn` is the identity a new chain would get. */
  function Reserve<C(==)>(s: Chains<C>, key: Key, nonce: nat, inFlight: bool, newborn: C, now: nat, ttl: nat): (r: Chains<C>)
    requires s.Known()
    ensures r.Known()
  {
    var t := Touch(s, key, now, ttl);
    if key in t.current then
      var c := t.current[key];
      var was := t.fields[c];
      t.(fields := t.fields[c := Chain(Max(nonce + 1, was.next), was.pending + (if inFlight then 1 else 0), now, false)])
    else
      Chains(t.current[key := newborn], t.fields[newborn := Chain(nonce + 1, if inFlight then 1 else 0, now, false)])
  }

  /** releaseChain: one metatx of `chain` was resolved; a chain that is not the current one is left alone. */
  function Release<C(==)>(s: Chains<C>, key: Key, chain: C, window: nat): (r: Chains<C>)
    requires s.Known()
    ensures r.Known()
  {
    if key !in s.current || s.current[key] != chain then s
    else
      var was := s.fields[chain];
      var left := Max(was.pending - 1, 0);
      var t := s.(fields := s.fields[chain := was.(pending := left)]);
      if left > 0 || was.grace then t
      else if window == 0 then Drop(t, key)
      else t.(fields := t.fields[chain := was.(pending := left, grace := true)])
  }

  /** The callback of the grace timer armed for `chain`. */
  function Fire<C(==)>(s: Chains<C>, key: Key, chain: C): (r: Chains<C>)
    requires s.Known()
    ensures r.Known()
  {
    if key in s.current && s.current[key] == chain && s.fields[chain].pending == 0 then Drop(s, key) else s
  }

  /** forgetChain: whatever chain the user has now is dropped, by key. */
  function Forget<C(==)>(s: Chains<C>, key: Key): (r: Chains<C>)
    requires s.Known()
    ensures r.Known()
  {
    if key in s.current then Drop(s, key) else s
  }

  // ---------------------------------------------------------------- what they mean, field by field

  /** The next nonce comes from the user's chain whenever he has one, whatever the hub would say. */
  lemma ExpectedMeans<C>(s: Chains<C>, key: Key, hub: Option<nat>)
    requires s.Known()
    ensures key in s.current ==> Expected(s, key, hub) == Some(s.fields[s.current[key]].next)
    ensures key !in s.current ==> Expected(s, key, hub) == hub
  {
  }

  /** Reading a chain drops it if and only if it was not written for longer than the TTL, whatever it has in flight, and
      takes its timer with it. */
  lemma TouchingMeans<C>(s: Chains<C>, key: Key, now: nat, ttl: nat)
    requires s.Known()
    ensures var r := Touch(s, key, now, ttl);
      if key in s.current && now > s.fields[s.current[key]].updatedAt + ttl
      then r == Chains(s.current - {key}, s.fields[s.current[key] := s.fields[s.current[key]].(grace := false)])
      else r == s
  {
  }

  /** A reservation goes on with a chain that is within its TTL, which never expects less than before, and starts a new
      one otherwise; the chain is written now, and has no timer. */
  lemma ReservingMeans<C>(s: Chains<C>, key: Key, nonce: nat, inFlight: bool, newborn: C, now: nat, ttl: nat)
    requires s.Known() && newborn !in s.fields
    ensures var r := Reserve(s, key, nonce, inFlight, newborn, now, ttl);
      var goesOn := key in s.current && now <= s.fields[s.current[key]].updatedAt + ttl;
      var c := if goesOn then s.current[key] else newborn;
      && r.current == s.current[key := c]
      && r.fields[c].next == (if goesOn then Max(nonce + 1, s.fields[c].next) else nonce + 1)
      && r.fields[c].pending == (if goesOn then s.fields[c].pending else 0) + (if inFlight then 1 else 0)
      && r.fields[c].updatedAt == now && !r.fields[c].grace
      && r.fields.Keys == s.fields.Keys + {c}
      && (forall d <- s.fields | d != c && !(key in s.current && d == s.current[key]) :: r.fields[d] == s.fields[d])
  {
  }

  /** A release of the current chain lowers its count, not below zero, and writes nothing else of it but its timer. With
      nothing left in flight and no timer yet, the timer is armed if there is a grace window, and the chain dropped if
      there is none. A release of any other chain changes nothing. */
  lemma ReleasingMeans<C>(s: Chains<C>, key: Key, c: C, window: nat)
    requires s.Known()
    ensures var r := Release(s, key, c, window);
      if key !in s.current || s.current[key] != c then r == s
      else
        var was := s.fields[c];
        var left := if was.pending > 0 then was.pending - 1 else 0;
        && (r.current == if left == 0 && !was.grace && window == 0 then s.current - {key} else s.current)
        && (r.fields == s.fields[c := Chain(was.next, left, was.updatedAt, was.grace || (left == 0 && window > 0))])
  {
  }

  /** The callback of a timer drops the chain it was armed for, if that is still the current one and nothing is in
      flight on it, and nothing else ever. */
  lemma FiringMeans<C>(s: Chains<C>, key: Key, c: C)
    requires s.Known()
    ensures var r := Fire(s, key, c);
      if key in s.current && s.current[key] == c && s.fields[c].pending == 0
      then r == Chains(s.current - {key}, s.fields[c := s.fields[c].(grace := false)])
      else r == s
  {
  }

  /** Forgetting a user drops whatever chain he has, in flight or not, with its timer. */
  lemma ForgettingMeans<C>(s: Chains<C>, key: Key)
    requires s.Known()
    ensures var r := Forget(s, key);
      && r.current == s.current - {key} && r.fields.Keys == s.fields.Keys
      && (forall c <- s.fields :: r.fields[c] == if key in s.current && c == s.current[key] then s.fields[c].(grace := false) else s.fields[c])
  {
  }
}
