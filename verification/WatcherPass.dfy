/** What one pass of the watcher guarantees: nothing overdue stays unclaimed, whether or not the node could be reached,
    and what it gave up on gave its slot back exactly once. */
module WatcherPass {
  import opened Base
  import opened ChainModel
  import opened HeldModel
  import opened Correlation
  import opened Settlement

  // ---------------------------------------------------------------- nothing overdue is left

  /** The entry is still within its age when the pass comes to it. */
  predicate InTime<C>(item: InFlightMetaTx<C>, time: Timing) { time.recalledAt <= item.sentAt + MEMORY_TTL }

  predicate Overdue<C>(item: InFlightMetaTx<C>, time: Timing, timeout: nat) { time.judgedAt >= item.sentAt + timeout }

  /** The pass is done with that transaction: its result is known, or was waited for long enough. */
  predicate Done<C>(item: InFlightMetaTx<C>, answer: Answer, time: Timing, timeout: nat) {
    answer.Receipt? || Overdue(item, time, timeout)
  }

  /** The first `n` of the list that are done with. */
  ghost function DoneOf<C>(items: seq<InFlightMetaTx<C>>, n: nat, answers: Hash -> Answer, times: Hash -> Timing, timeout: nat): set<Hash>
    requires n <= |items|
  {
    set i | 0 <= i < n && Done(items[i], answers(items[i].hash), times(items[i].hash), timeout) :: items[i].hash
  }

  function Closed<C>(e: Entry<C>): Entry<C> { e.(settled := true, chain := None) }

  /** The memory with those transactions closed and everything else as it was. */
  function ClosedIn<C>(m: Memory<C>, done: set<Hash>): Memory<C> {
    map h | h in m :: if h in done then Closed(m[h]) else m[h]
  }

  lemma ClosingOneMore<C>(m: Memory<C>, done: set<Hash>, h: Hash)
    requires h in m && h !in done
    ensures ClosedIn(m, done + {h}) == ClosedIn(m, done)[h := Closed(m[h])]
    ensures ClosedIn(m, done)[h] == m[h] && ClosedIn(m, done + {}) == ClosedIn(m, done)
  {
  }

  lemma PassedOneMemory<C, H>(s: Service<C, H>, item: InFlightMetaTx<C>, answer: Answer, time: Timing, timeout: nat, window: nat)
    requires s.Known() && InTime(item, time)
    requires Unresolved(s.memory, item.hash) && item.sentAt == s.memory[item.hash].rememberedAt
    ensures PassedOne(s, item, answer, time, timeout, window).memory ==
      if Done(item, answer, time, timeout) then s.memory[item.hash := Closed(s.memory[item.hash])] else s.memory
  {
  }

  /** For every list of what is in flight, every answer of the node and every reading of the clock within the age of
      the entries: after the pass exactly those whose result is known or overdue are closed, with their slot taken, and
      everything else is remembered as it was. */
  lemma {:induction false} PassClosesWhatIsDone<C, H>(s: Service<C, H>, items: seq<InFlightMetaTx<C>>, n: nat, answers: Hash -> Answer,
                                                      times: Hash -> Timing, timeout: nat, window: nat)
    requires s.Known() && Snapshot(s.memory, items) && n <= |items|
    requires forall item <- items :: InTime(item, times(item.hash))
    ensures Passed(s, items, n, answers, times, timeout, window).memory
         == ClosedIn(s.memory, DoneOf(items, n, answers, times, timeout))
  {
    if n > 0 {
      var item := items[n - 1];
      PassClosesWhatIsDone(s, items, n - 1, answers, times, timeout, window);
      assert item in items;
      NotYetDone(s.memory, items, n - 1, answers, times, timeout);
      ClosingOneMore(s.memory, DoneOf(items, n - 1, answers, times, timeout), item.hash);
      hide DoneOf, Snapshot, PassedOne, Done, ClosedIn;
      var before := Passed(s, items, n - 1, answers, times, timeout, window);
      PassedOneMemory(before, item, answers(item.hash), times(item.hash), timeout, window);
      DoneOfOneMore(items, n, answers, times, timeout);
    }
  }

  lemma DoneOfOneMore<C>(items: seq<InFlightMetaTx<C>>, n: nat, answers: Hash -> Answer, times: Hash -> Timing, timeout: nat)
    requires 0 < n <= |items|
    ensures var item := items[n - 1];
      DoneOf(items, n, answers, times, timeout) ==
      DoneOf(items, n - 1, answers, times, timeout) + if Done(item, answers(item.hash), times(item.hash), timeout) then {item.hash} else {}
  {
  }

  lemma DoneOfAt<C>(items: seq<InFlightMetaTx<C>>, i: nat, answers: Hash -> Answer, times: Hash -> Timing, timeout: nat)
    requires i < |items| && (forall j, k | 0 <= j < k < |items| :: items[j].hash != items[k].hash)
    ensures items[i].hash in DoneOf(items, |items|, answers, times, timeout) <==>
      Done(items[i], answers(items[i].hash), times(items[i].hash), timeout)
  {
  }

  /** Nothing that was in flight and is older than the receipt timeout is left unclaimed, node reachable or not. */
  lemma NothingOverdueIsLeft<C, H>(s: Service<C, H>, items: seq<InFlightMetaTx<C>>, reachable: bool, answers: Hash -> Answer,
                                   times: Hash -> Timing, timeout: nat, window: nat, h: Hash)
    requires s.Known() && Snapshot(s.memory, items)
    requires forall item <- items :: InTime(item, times(item.hash))
    ensures var r := Passed(s, items, |items|, if reachable then answers else Silence, times, timeout, window).memory;
      && r.Keys == s.memory.Keys
      && (Unresolved(s.memory, h) && times(h).judgedAt >= s.memory[h].rememberedAt + timeout ==> r[h].settled && r[h].chain == None)
      && (Unresolved(r, h) <==> Unresolved(s.memory, h) && times(h).judgedAt < s.memory[h].rememberedAt + timeout
                                && !(reachable && answers(h).Receipt?))
  {
    var what := if reachable then answers else Silence;
    PassClosesWhatIsDone(s, items, |items|, what, times, timeout, window);
    var r := Passed(s, items, |items|, what, times, timeout, window).memory;
    if Unresolved(s.memory, h) {
      var i :| 0 <= i < |items| && items[i].hash == h;
      assert items[i] in items;
      DoneOfAt(items, i, what, times, timeout);
    }
  }

  // ---------------------------------------------------------------- slots

  /** Every slot still carried is counted, as the conservation of slots has it. */
  ghost predicate Covered<C, H>(s: Service<C, H>)
    requires s.Known()
  {
    forall k <- s.chains.current ::
      |Carrying(s.memory, s.chains.current[k])| <= s.chains.fields[s.chains.current[k]].pending
  }

  lemma TakingUncarries<C>(m: Memory<C>, h: Hash, c: C)
    requires h in m
    ensures Carrying(Taken(Claimed(m, h), h), c) == Carrying(m, c) - {h}
  {
  }

  lemma SettledCovered<C, H>(s: Service<C, H>, h: Hash, rejected: bool, window: nat)
    requires s.Known() && Covered(s) && h in s.memory
    ensures Covered(Settled(s, h, rejected, window))
  {
    if Wins(s.memory, h) {
      var r := Settled(s, h, rejected, window);
      forall k | k in r.chains.current
        ensures |Carrying(r.memory, r.chains.current[k])| <= r.chains.fields[r.chains.current[k]].pending
      {
        var c := r.chains.current[k];
        TakingUncarries(s.memory, h, c);
      }
    }
  }

  lemma {:induction false} ForgottenCovered<C, H>(s: Service<C, H>, refused: seq<Key>)
    requires s.Known() && Covered(s)
    ensures Covered(Forgotten(s, refused))
  {
    if refused != [] { ForgottenCovered(s, refused[..|refused| - 1]); }
  }

  lemma PassedOneCovered<C, H>(s: Service<C, H>, item: InFlightMetaTx<C>, answer: Answer, time: Timing, timeout: nat, window: nat)
    requires s.Known() && Covered(s) && item.hash in s.memory && InTime(item, time) && item.sentAt == s.memory[item.hash].rememberedAt
    ensures Covered(PassedOne(s, item, answer, time, timeout, window))
  {
    hide Covered, Settled, Forgotten;
    assert Recalled(s.memory, item.hash, time.recalledAt) == s.memory;
    match answer
    case NoReceipt => SettledCovered(s, item.hash, false, window);
    case Receipt(refused, rejected) =>
      ForgottenCovered(s, refused);
      SettledCovered(Forgotten(s, refused), item.hash, rejected, window);
  }

  lemma {:induction false} PassCovered<C, H>(s: Service<C, H>, items: seq<InFlightMetaTx<C>>, n: nat, answers: Hash -> Answer,
                                             times: Hash -> Timing, timeout: nat, window: nat)
    requires s.Known() && Snapshot(s.memory, items) && n <= |items| && Covered(s)
    requires forall item <- items :: InTime(item, times(item.hash))
    ensures Covered(Passed(s, items, n, answers, times, timeout, window))
  {
    hide Covered, PassedOne, DoneOf;
    if n > 0 {
      var item := items[n - 1];
      assert item in items;
      PassCovered(s, items, n - 1, answers, times, timeout, window);
      PassClosesWhatIsDone(s, items, n - 1, answers, times, timeout, window);
      PassedOneCovered(Passed(s, items, n - 1, answers, times, timeout, window), item, answers(item.hash), times(item.hash), timeout, window);
    }
  }

  /** Each transaction the pass gives up on lowers the count of the chain it was reserved on by exactly one, if it was
      filed under a user who still has that chain, and touches no chain otherwise; no other chain ever changes. */
  lemma GivingUpLowersByOne<C, H>(s: Service<C, H>, items: seq<InFlightMetaTx<C>>, n: nat, answers: Hash -> Answer,
                                  times: Hash -> Timing, timeout: nat, window: nat)
    requires s.Known() && Snapshot(s.memory, items) && n < |items| && Covered(s)
    requires forall item <- items :: InTime(item, times(item.hash))
    requires var item := items[n]; !answers(item.hash).Receipt? && Overdue(item, times(item.hash), timeout)
    ensures var before := Passed(s, items, n, answers, times, timeout, window).chains;
      var after := Passed(s, items, n + 1, answers, times, timeout, window).chains;
      var key, c := items[n].senderKey, items[n].chain;
      if key != "" && key in before.current && before.current[key] == c then
        && before.fields[c].pending > 0 && c in after.fields
        && after.fields[c].pending == before.fields[c].pending - 1
        && (forall other <- before.fields | other != c :: other in after.fields && after.fields[other] == before.fields[other])
        && (forall k | k != key :: k in after.current <==> k in before.current)
        && (forall k <- after.current :: k in before.current && after.current[k] == before.current[k])
      else after == before
  {
    hide Snapshot, DoneOf, Covered;
    PassCovered(s, items, n, answers, times, timeout, window);
    PassClosesWhatIsDone(s, items, n, answers, times, timeout, window);
    NotYetDone(s.memory, items, n, answers, times, timeout);
    GivingUpOne(Passed(s, items, n, answers, times, timeout, window), items[n], answers(items[n].hash), times(items[n].hash), timeout, window);
  }

  lemma NotYetDone<C>(m: Memory<C>, items: seq<InFlightMetaTx<C>>, n: nat, answers: Hash -> Answer, times: Hash -> Timing, timeout: nat)
    requires Snapshot(m, items) && n < |items|
    ensures items[n].hash !in DoneOf(items, n, answers, times, timeout)
    ensures Unresolved(m, items[n].hash) && items[n].sentAt == m[items[n].hash].rememberedAt
    ensures items[n].senderKey == m[items[n].hash].senderKey && Some(items[n].chain) == m[items[n].hash].chain
  {
  }

  lemma GivingUpOne<C, H>(s: Service<C, H>, item: InFlightMetaTx<C>, answer: Answer, time: Timing, timeout: nat, window: nat)
    requires s.Known() && Covered(s) && Unresolved(s.memory, item.hash) && InTime(item, time)
    requires item.sentAt == s.memory[item.hash].rememberedAt && item.senderKey == s.memory[item.hash].senderKey
    requires Some(item.chain) == s.memory[item.hash].chain
    requires !answer.Receipt? && Overdue(item, time, timeout)
    ensures var after := PassedOne(s, item, answer, time, timeout, window).chains;
      && after == (if item.senderKey == "" then s.chains else Release(s.chains, item.senderKey, item.chain, window))
      && (item.senderKey in s.chains.current && s.chains.current[item.senderKey] == item.chain ==>
            s.chains.fields[item.chain].pending > 0)
  {
    assert item.hash in Carrying(s.memory, item.chain);
    assert Recalled(s.memory, item.hash, time.recalledAt) == s.memory;
  }

  // ---------------------------------------------------------------- among others

  /** What the other goroutines may do to the memory meanwhile: settle, take, evict, and remember new transactions. A
      listed transaction that was evicted is not remembered again, because its hash was sent once. */
  ghost predicate Meanwhile<C>(m: Memory<C>, m': Memory<C>, items: seq<InFlightMetaTx<C>>) {
    && (forall h <- m | h in m' :: m'[h].rememberedAt == m[h].rememberedAt && (m[h].settled ==> m'[h].settled))
    && (forall item <- items | item.hash in m' :: item.hash in m)
  }

  /** Its entry, if it is still there, is the one the pass listed. */
  ghost predicate Recognises<C>(m: Memory<C>, item: InFlightMetaTx<C>) {
    item.hash in m ==> m[item.hash].rememberedAt == item.sentAt
  }

  /** Even if clients settle, take, send and evict between any two turns of the pass, none of the listed transactions
      that are overdue is remembered and unclaimed: `befores` and `afters` are the memory around each turn. */
  lemma {:induction false} NothingOverdueIsLeftAmongOthers<C, H>(befores: seq<Service<C, H>>, afters: seq<Service<C, H>>,
                                                                  items: seq<InFlightMetaTx<C>>, answers: Hash -> Answer,
                                                                  times: Hash -> Timing, timeout: nat, window: nat, i: nat, n: nat)
    requires |befores| == |afters| == |items| && i < n <= |items|
    requires forall j | 0 <= j < |items| :: befores[j].Known() && Recognises(befores[j].memory, items[j])
    requires forall j | 0 <= j < |items| ::
      afters[j] == PassedOne(befores[j], items[j], answers(items[j].hash), times(items[j].hash), timeout, window)
    requires forall j | 0 <= j < |items| - 1 :: Meanwhile(afters[j].memory, befores[j + 1].memory, items)
    requires Done(items[i], answers(items[i].hash), times(items[i].hash), timeout)
    ensures items[i].hash in afters[n - 1].memory ==> afters[n - 1].memory[items[i].hash].settled
  {
    TurnKeepsClaims(befores[n - 1], items[n - 1], answers(items[n - 1].hash), times(items[n - 1].hash), timeout, window, items[i].hash);
    if i < n - 1 {
      NothingOverdueIsLeftAmongOthers(befores, afters, items, answers, times, timeout, window, i, n - 1);
      assert Meanwhile(afters[n - 2].memory, befores[n - 1].memory, items) && items[i] in items;
    }
  }

  lemma TurnKeepsClaims<C, H>(s: Service<C, H>, item: InFlightMetaTx<C>, answer: Answer, time: Timing, timeout: nat, window: nat, h: Hash)
    requires s.Known() && Recognises(s.memory, item)
    ensures var m := PassedOne(s, item, answer, time, timeout, window).memory;
      && (h in m ==> h in s.memory && (s.memory[h].settled ==> m[h].settled))
      && (h == item.hash && Done(item, answer, time, timeout) ==> h in m ==> m[h].settled)
  {
  }

  // ---------------------------------------------------------------- past its age

  /** The age matters: an entry past it is forgotten by the pass itself, which then closes the transaction without
      giving its slot back. */
  lemma PastItsAgeTheSlotIsLost<C, H>(s: Service<C, H>, item: InFlightMetaTx<C>, time: Timing, timeout: nat, window: nat)
    requires s.Known() && item.hash in s.memory && s.memory[item.hash].rememberedAt == item.sentAt
    requires !InTime(item, time)
    ensures var r := PassedOne(s, item, NoReceipt, time, timeout, window);
      item.hash !in r.memory && r.chains == s.chains && r.held == s.held
  {
  }
}
