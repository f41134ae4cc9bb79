/** What the service remembers of each transaction it sent, in a map bounded by age and by size. The entry carries the
    chain whose slot the transaction holds, and decides which of the racing settlers closes it. */
module Correlation {
  import opened Base

  /** How long an entry is remembered, in milliseconds, and how many are. */
  const MEMORY_TTL: nat := 600_000
  const MEMORY_MAX: nat := 4096

  datatype Entry<+C> = Entry(reqId: string, metaTxId: string, rememberedAt: nat, senderKey: Key, chain: Option<C>, settled: bool)

  type Memory<+C> = map<Hash, Entry<C>>

  predicate Expired<C>(e: Entry<C>, now: nat) { now > e.rememberedAt + MEMORY_TTL }

  /** The entries young enough to be kept. */
  function Young<C>(m: Memory<C>, now: nat): Memory<C> { map h | h in m && !Expired(m[h], now) :: m[h] }

  predicate Oldest<C>(m: Memory<C>, h: Hash) {
    h in m && forall g <- m :: m[h].rememberedAt <= m[g].rememberedAt
  }

  /** recallMetaTx: an entry past its age is gone. */
  function Recalled<C>(m: Memory<C>, h: Hash, now: nat): Memory<C> {
    if h in m && Expired(m[h], now) then m - {h} else m
  }

  /** A transaction that is not remembered is closed all the same: nobody is known to compete for it. */
  predicate Wins<C>(m: Memory<C>, h: Hash) { h !in m || !m[h].settled }

  function Claimed<C>(m: Memory<C>, h: Hash): Memory<C> {
    if h in m then m[h := m[h].(settled := true)] else m
  }

  /** The slot the transaction still holds. */
  function SlotOf<C>(m: Memory<C>, h: Hash): Option<C> { if h in m then m[h].chain else None }

  function Taken<C>(m: Memory<C>, h: Hash): Memory<C> {
    if h in m then m[h := m[h].(chain := None)] else m
  }

  /** The transactions that still carry that chain. */
  ghost function Carrying<C>(m: Memory<C>, c: C): set<Hash> { set h | h in m && m[h].chain == Some(c) }

  /** Sent, and its result is not known. */
  predicate Unresolved<C>(m: Memory<C>, h: Hash) { h in m && !m[h].settled && m[h].chain.Some? }

  datatype InFlightMetaTx<+C> = InFlightMetaTx(hash: Hash, sentAt: nat, senderKey: Key, chain: C)

  /** The list names each unresolved transaction once, with what is remembered of it, and nothing else. */
  ghost predicate Snapshot<C>(m: Memory<C>, list: seq<InFlightMetaTx<C>>) {
    && (forall i, j | 0 <= i < j < |list| :: list[i].hash != list[j].hash)
    && (forall item <- list ::
          && Unresolved(m, item.hash) && item.sentAt == m[item.hash].rememberedAt
          && item.senderKey == m[item.hash].senderKey && Some(item.chain) == m[item.hash].chain)
    && (forall h | Unresolved(m, h) :: exists i | 0 <= i < |list| :: list[i].hash == h)
  }

  function Outside<C>(m: Memory<C>, keys: set<Hash>): Memory<C> { map h | h in m && h !in keys :: m[h] }

  class CorrelationMap<C> {
    var metaTx: Memory<C>

    constructor ()
      ensures metaTx == map[]
    {
      metaTx := map[];
    }

    /** rememberMetaTx: the memory never outgrows its bound. */
    method Remember(reqId: string, metaTxId: string, hash: Hash, senderKey: Key, chain: Option<C>, now: nat)
      returns (victim: Option<Hash>)
      requires |metaTx| <= MEMORY_MAX
      modifies this
      ensures |metaTx| <= MEMORY_MAX
      ensures metaTxId == "" && chain.None? ==> metaTx == old(metaTx)
      ensures metaTxId != "" || chain.Some? ==>
        && (victim.Some? <==> |Young(old(metaTx), now)| >= MEMORY_MAX)
        && (victim.Some? ==> Oldest(Young(old(metaTx), now), victim.value))
        && metaTx == (if victim.Some? then Young(old(metaTx), now) - {victim.value} else Young(old(metaTx), now))
                     [hash := Entry(reqId, metaTxId, now, senderKey, chain, false)]
      ensures metaTxId != "" || chain.Some? ==>
        && metaTx[hash] == Entry(reqId, metaTxId, now, senderKey, chain, false)
        && (forall h | h != hash ::
              h in metaTx <==> h in old(metaTx) && now <= old(metaTx)[h].rememberedAt + MEMORY_TTL && victim != Some(h))
        && (forall h <- metaTx | h != hash :: metaTx[h] == old(metaTx)[h])
        && (victim.Some? <==> |set h | h in old(metaTx) && now <= old(metaTx)[h].rememberedAt + MEMORY_TTL| >= MEMORY_MAX)
        && (victim.Some? ==> victim.value in old(metaTx) && now <= old(metaTx)[victim.value].rememberedAt + MEMORY_TTL)
        && (victim.Some? ==> forall g <- old(metaTx) | now <= old(metaTx)[g].rememberedAt + MEMORY_TTL ::
              old(metaTx)[victim.value].rememberedAt <= old(metaTx)[g].rememberedAt)
    {
      if metaTxId == "" && chain.None? { return None; }
      victim := EvictLocked(now);
      metaTx := metaTx[hash := Entry(reqId, metaTxId, now, senderKey, chain, false)];
    }

    /** evictLocked: first what is too old; then, if that did not make room, the oldest entry, any of a tie. */
    method EvictLocked(now: nat) returns (victim: Option<Hash>)
      requires |metaTx| <= MEMORY_MAX
      modifies this
      ensures |metaTx| < MEMORY_MAX
      ensures victim.Some? <==> |Young(old(metaTx), now)| >= MEMORY_MAX
      ensures victim.Some? ==> Oldest(Young(old(metaTx), now), victim.value)
      ensures metaTx == if victim.Some? then Young(old(metaTx), now) - {victim.value} else Young(old(metaTx), now)
      ensures forall h :: h in metaTx <==> h in old(metaTx) && now <= old(metaTx)[h].rememberedAt + MEMORY_TTL && victim != Some(h)
      ensures forall h <- metaTx :: metaTx[h] == old(metaTx)[h]
      ensures victim.Some? <==> |set h | h in old(metaTx) && now <= old(metaTx)[h].rememberedAt + MEMORY_TTL| >= MEMORY_MAX
      ensures victim.Some? ==> victim.value in old(metaTx) && now <= old(metaTx)[victim.value].rememberedAt + MEMORY_TTL
      ensures victim.Some? ==> forall g <- old(metaTx) | now <= old(metaTx)[g].rememberedAt + MEMORY_TTL ::
        old(metaTx)[victim.value].rememberedAt <= old(metaTx)[g].rememberedAt
    {
      YoungMeans(metaTx, now);
      ghost var was := metaTx;
      ForgetExpired(now);
      FewerIsSmaller(metaTx.Keys, was.Keys);
      if |metaTx| < MEMORY_MAX { return None; }
      victim := OldestEntry();
      RemovingOneIsSmaller(metaTx, victim.value);
      metaTx := metaTx - {victim.value};
    }

    /** The first loop of evictLocked. */
    method ForgetExpired(now: nat)
      modifies this
      ensures metaTx == Young(old(metaTx), now) && metaTx.Keys <= old(metaTx).Keys
    {
      var left := metaTx.Keys;
      while left != {}
        invariant left <= metaTx.Keys <= old(metaTx).Keys
        invariant forall h <- metaTx :: metaTx[h] == old(metaTx)[h]
        invariant forall h <- old(metaTx) :: h in metaTx <==> h in left || !Expired(old(metaTx)[h], now)
      {
        var hash :| hash in left;
        left := left - {hash};
        if now > metaTx[hash].rememberedAt + MEMORY_TTL {
          metaTx := metaTx - {hash};
        }
      }
    }

    /** The second loop of evictLocked. */
    method OldestEntry() returns (oldest: Option<Hash>)
      ensures oldest.Some? <==> metaTx != map[]
      ensures oldest.Some? ==> Oldest(metaTx, oldest.value)
    {
      oldest := None;
      var left := metaTx.Keys;
      while left != {}
        invariant left <= metaTx.Keys
        invariant oldest.None? ==> left == metaTx.Keys
        invariant oldest.Some? ==> oldest.value in metaTx
        invariant forall h <- metaTx | h !in left :: oldest.Some? && metaTx[oldest.value].rememberedAt <= metaTx[h].rememberedAt
      {
        var hash :| hash in left;
        left := left - {hash};
        if oldest.None? || metaTx[hash].rememberedAt < metaTx[oldest.value].rememberedAt {
          oldest := Some(hash);
        }
      }
    }

    /** recallMetaTx: the identifiers of the request that relayed it, if they are still remembered. */
    method Recall(hash: Hash, now: nat) returns (ids: Option<(string, string)>)
      modifies this
      ensures metaTx == Recalled(old(metaTx), hash, now)
      ensures forall h :: h in metaTx <==> h in old(metaTx) && (h != hash || now <= old(metaTx)[h].rememberedAt + MEMORY_TTL)
      ensures forall h <- metaTx :: metaTx[h] == old(metaTx)[h]
      ensures ids == if hash in metaTx then Some((metaTx[hash].reqId, metaTx[hash].metaTxId)) else None
    {
      if hash !in metaTx { return None; }
      if now > metaTx[hash].rememberedAt + MEMORY_TTL {
        metaTx := metaTx - {hash};
        return None;
      }
      ids := Some((metaTx[hash].reqId, metaTx[hash].metaTxId));
    }

    method ClaimSettled(hash: Hash) returns (won: bool)
      modifies this
      ensures won == Wins(old(metaTx), hash) && (won <==> hash !in old(metaTx) || !old(metaTx)[hash].settled)
      ensures metaTx == Claimed(old(metaTx), hash)
      ensures hash !in old(metaTx) ==> metaTx == old(metaTx)
      ensures hash in old(metaTx) ==> metaTx == old(metaTx)[hash := old(metaTx)[hash].(settled := true)]
    {
      if hash !in metaTx { return true; }
      if metaTx[hash].settled {
        assert metaTx[hash].(settled := true) == metaTx[hash];
        return false;
      }
      metaTx := metaTx[hash := metaTx[hash].(settled := true)];
      won := true;
    }

    /** The part of releaseSent under this lock: the slot is handed to the caller and to nobody after it. */
    method TakeSlot(hash: Hash) returns (key: Key, chain: Option<C>)
      modifies this
      ensures chain == SlotOf(old(metaTx), hash) && (hash in old(metaTx) ==> key == old(metaTx)[hash].senderKey)
      ensures hash !in old(metaTx) ==> key == ""
      ensures metaTx == Taken(old(metaTx), hash)
      ensures hash in old(metaTx) ==> chain == old(metaTx)[hash].chain && metaTx == old(metaTx)[hash := old(metaTx)[hash].(chain := None)]
      ensures hash !in old(metaTx) ==> chain == None && metaTx == old(metaTx)
    {
      key, chain := "", None;
      if hash in metaTx {
        key, chain := metaTx[hash].senderKey, metaTx[hash].chain;
        metaTx := metaTx[hash := metaTx[hash].(chain := None)];
      }
    }

    /** inFlight: in whatever order the map yields them. */
    method InFlight() returns (pending: seq<InFlightMetaTx<C>>)
      ensures Snapshot(metaTx, pending)
      ensures forall h <- metaTx :: !metaTx[h].settled && metaTx[h].chain.Some? <==> exists item <- pending :: item.hash == h
      ensures forall item <- pending ::
        && item.hash in metaTx && item.sentAt == metaTx[item.hash].rememberedAt
        && item.senderKey == metaTx[item.hash].senderKey && Some(item.chain) == metaTx[item.hash].chain
    {
      pending := [];
      var left := metaTx.Keys;
      while left != {}
        invariant left <= metaTx.Keys
        invariant forall item <- pending :: item.hash !in left
        invariant Snapshot(Outside(metaTx, left), pending)
      {
        var hash :| hash in left;
        ghost var seen := Outside(metaTx, left);
        left := left - {hash};
        assert Outside(metaTx, left) == seen[hash := metaTx[hash]];
        var entry := metaTx[hash];
        if !entry.settled && entry.chain.Some? {
          var item := InFlightMetaTx(hash, entry.rememberedAt, entry.senderKey, entry.chain.value);
          SnapshotWithOneMore(seen, entry, pending, item);
          pending := pending + [item];
        } else {
          SnapshotWithoutIt(seen, hash, entry, pending);
        }
      }
      assert Outside(metaTx, left) == metaTx;
      SnapshotNames(metaTx, pending);
    }
  }

  lemma FewerIsSmaller<T>(a: set<T>, b: set<T>)
    requires a <= b
    ensures |a| <= |b|
  {
    assert b == a + (b - a);
  }

  lemma RemovingOneIsSmaller<C>(m: Memory<C>, h: Hash)
    requires h in m
    ensures |m - {h}| == |m| - 1
  {
  }

  lemma SnapshotWithOneMore<C>(m: Memory<C>, e: Entry<C>, list: seq<InFlightMetaTx<C>>, item: InFlightMetaTx<C>)
    requires Snapshot(m, list) && item.hash !in m
    requires !e.settled && e.chain == Some(item.chain) && e.senderKey == item.senderKey && e.rememberedAt == item.sentAt
    ensures Snapshot(m[item.hash := e], list + [item])
  {
    var m', list' := m[item.hash := e], list + [item];
    forall h | Unresolved(m', h) ensures exists i | 0 <= i < |list'| :: list'[i].hash == h {
      if h == item.hash {
        assert list'[|list|].hash == h;
      } else {
        assert Unresolved(m, h);
        var i :| 0 <= i < |list| && list[i].hash == h;
        assert list'[i].hash == h;
      }
    }
  }

  lemma SnapshotWithoutIt<C>(m: Memory<C>, h: Hash, e: Entry<C>, list: seq<InFlightMetaTx<C>>)
    requires Snapshot(m, list) && h !in m && (e.settled || e.chain.None?)
    ensures Snapshot(m[h := e], list)
  {
    var m' := m[h := e];
    forall g | Unresolved(m', g) ensures exists i | 0 <= i < |list| :: list[i].hash == g {
      assert Unresolved(m, g);
    }
  }

  /** What is kept for its age, and how many there are. */
  lemma YoungMeans<C>(m: Memory<C>, now: nat)
    ensures forall h :: h in Young(m, now) <==> h in m && now <= m[h].rememberedAt + MEMORY_TTL
    ensures forall h <- Young(m, now) :: Young(m, now)[h] == m[h]
    ensures |Young(m, now)| == |set h | h in m && now <= m[h].rememberedAt + MEMORY_TTL|
  {
    assert Young(m, now).Keys == set h | h in m && now <= m[h].rememberedAt + MEMORY_TTL;
  }

  /** What is in flight is what was sent with a slot and is not settled, each with what is remembered of it. */
  lemma SnapshotNames<C>(m: Memory<C>, list: seq<InFlightMetaTx<C>>)
    requires Snapshot(m, list)
    ensures forall h <- m :: !m[h].settled && m[h].chain.Some? <==> exists item <- list :: item.hash == h
    ensures forall item <- list ::
      && item.hash in m && item.sentAt == m[item.hash].rememberedAt
      && item.senderKey == m[item.hash].senderKey && Some(item.chain) == m[item.hash].chain
  {
    forall h <- m | !m[h].settled && m[h].chain.Some? ensures exists item <- list :: item.hash == h {
      assert Unresolved(m, h);
      var i :| 0 <= i < |list| && list[i].hash == h;
      assert list[i] in list;
    }
  }

  /** A transaction that is not remembered is closed by whoever comes, and closing it changes nothing. */
  lemma UnknownIsClosed<C>(m: Memory<C>, h: Hash)
    requires h !in m
    ensures Wins(m, h) && Claimed(m, h) == m && Taken(m, h) == m && SlotOf(m, h) == None
  {
  }
}
