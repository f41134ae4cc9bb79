/** How a burst that went over the quota comes back to it: the held metatx re-evaluate in any order, and each
    expels itself only if it is the highest one while there is an excess. */
module Quota {
  import opened Base
  import opened HeldModel

  /** The held metatx of one user, and those that saw themselves in excess and are on their way out. */
  datatype Crowd<H> = Crowd(list: seq<H>, leaving: set<H>)

  /** A held metatx compares itself with the quota, or unregisters after having found itself in excess. */
  datatype Move<H> = Check(h: H) | Leave(h: H)

  /** How many of the held ones do not fit. */
  function Excess<H>(list: seq<H>, pending: nat, max: nat): nat { Max(|list| + pending - max, 0) }

  function Step<H(==)>(c: Crowd<H>, waiters: map<H, Waiter>, pending: nat, max: nat, move: Move<H>): (c': Crowd<H>)
    requires forall g <- c.list :: g in waiters
    ensures forall g <- c'.list :: g in c.list
  {
    match move
    case Check(h) =>
      if h in c.list && InExcess(c.list, waiters, h, pending, max) then c.(leaving := c.leaving + {h}) else c
    case Leave(h) =>
      if h in c.leaving then Crowd(Without(c.list, h), c.leaving - {h}) else c
  }

  function Play<H(==)>(c: Crowd<H>, waiters: map<H, Waiter>, pending: nat, max: nat, schedule: seq<Move<H>>): (c': Crowd<H>)
    requires forall g <- c.list :: g in waiters
    ensures forall g <- c'.list :: g in c.list
    decreases |schedule|
  {
    if schedule == [] then c
    else
      var last := |schedule| - 1;
      Step(Play(c, waiters, pending, max, schedule[..last]), waiters, pending, max, schedule[last])
  }

  /** The list without the entry at that place. */
  function Cut<T>(list: seq<T>, at: nat): (rest: seq<T>)
    requires at < |list|
    ensures |rest| == |list| - 1
    ensures forall g <- rest :: g in list
  {
    list[..at] + list[at + 1..]
  }

  /** The list after the highest `n` have left. */
  function Trim<H(==)>(list: seq<H>, waiters: map<H, Waiter>, n: nat): (rest: seq<H>)
    requires n <= |list| && forall g <- list :: g in waiters
    ensures |rest| == |list| - n
    ensures forall g <- rest :: g in list
  {
    if n == 0 then list
    else
      var before := Trim(list, waiters, n - 1);
      Cut(before, HighestAt(before, waiters))
  }

  lemma CutKeepsDistinct<T>(list: seq<T>, at: nat)
    requires Distinct(list) && at < |list|
    ensures Distinct(Cut(list, at))
  {
  }

  lemma {:induction false} TrimKeepsDistinct<H>(list: seq<H>, waiters: map<H, Waiter>, n: nat)
    requires n <= |list| && Distinct(list) && forall g <- list :: g in waiters
    ensures Distinct(Trim(list, waiters, n))
  {
    if n > 0 {
      TrimKeepsDistinct(list, waiters, n - 1);
      var before := Trim(list, waiters, n - 1);
      hide Distinct, Cut;
      CutKeepsDistinct(before, HighestAt(before, waiters));
    }
  }

  // ---------------------------------------------------------------- convergence

  /** Whatever the schedule so far, the highest `n` have left and at most the next highest is on its way out. */
  ghost predicate Trimmed<H>(list: seq<H>, c: Crowd<H>, waiters: map<H, Waiter>, pending: nat, max: nat, n: nat)
    requires forall g <- list :: g in waiters
  {
    && n <= Min(Excess(list, pending, max), |list|)
    && c.list == Trim(list, waiters, n)
    && (forall h <- c.leaving :: InExcess(c.list, waiters, h, pending, max))
  }

  lemma WithoutIsCut<H>(list: seq<H>, at: nat)
    requires Distinct(list) && at < |list|
    ensures Without(list, list[at]) == Cut(list, at)
  {
    WithoutAt(list, at);
  }

  lemma LeaverIsTheHighest<H>(list: seq<H>, c: Crowd<H>, waiters: map<H, Waiter>, pending: nat, max: nat, n: nat, h: H)
    requires (forall g <- list :: g in waiters) && Trimmed(list, c, waiters, pending, max, n) && h in c.leaving
    ensures InExcess(c.list, waiters, h, pending, max) && c.leaving == {h}
  {
    hide HighestAt, Trim;
    assert forall g <- c.leaving :: InExcess(c.list, waiters, g, pending, max);
  }

  lemma LeavingTrims<H>(list: seq<H>, c: Crowd<H>, waiters: map<H, Waiter>, pending: nat, max: nat, n: nat, h: H)
    requires Distinct(list) && (forall g <- list :: g in waiters) && Trimmed(list, c, waiters, pending, max, n)
    requires h in c.leaving
    ensures Trimmed(list, Step(c, waiters, pending, max, Leave(h)), waiters, pending, max, n + 1)
    ensures c.list != [] && c.list[HighestAt(c.list, waiters)] == h && c.leaving == {h}
  {
    hide Distinct, HighestAt, Without, Cut;
    LeaverIsTheHighest(list, c, waiters, pending, max, n, h);
    TrimKeepsDistinct(list, waiters, n);
    WithoutIsCut(c.list, HighestAt(c.list, waiters));
    assert Trim(list, waiters, n + 1) == Cut(c.list, HighestAt(c.list, waiters));
    hide Trim;
  }

  lemma StepTrims<H>(list: seq<H>, c: Crowd<H>, waiters: map<H, Waiter>, pending: nat, max: nat, n: nat, move: Move<H>) returns (n': nat)
    requires Distinct(list) && (forall g <- list :: g in waiters) && Trimmed(list, c, waiters, pending, max, n)
    ensures Trimmed(list, Step(c, waiters, pending, max, move), waiters, pending, max, n')
    ensures n' == n + if move.Leave? && move.h in c.leaving then 1 else 0
  {
    hide Distinct, Trim, HighestAt;
    n' := n;
    if move.Leave? && move.h in c.leaving {
      LeavingTrims(list, c, waiters, pending, max, n, move.h);
      n' := n + 1;
    }
  }

  lemma {:induction false} PlayTrims<H>(list: seq<H>, waiters: map<H, Waiter>, pending: nat, max: nat, schedule: seq<Move<H>>) returns (n: nat)
    requires Distinct(list) && forall g <- list :: g in waiters
    ensures Trimmed(list, Play(Crowd(list, {}), waiters, pending, max, schedule), waiters, pending, max, n)
    decreases |schedule|
  {
    if schedule == [] { n := 0; }
    else {
      var last := |schedule| - 1;
      n := PlayTrims(list, waiters, pending, max, schedule[..last]);
      n := StepTrims(list, Play(Crowd(list, {}), waiters, pending, max, schedule[..last]), waiters, pending, max, n, schedule[last]);
    }
  }

  /** Nobody is on his way out, and nobody who re-evaluates would leave. */
  ghost predicate AtRest<H>(c: Crowd<H>, waiters: map<H, Waiter>, pending: nat, max: nat)
    requires forall g <- c.list :: g in waiters
  {
    c.leaving == {} && forall h <- c.list :: !InExcess(c.list, waiters, h, pending, max)
  }

  lemma RestIsFull<H>(list: seq<H>, c: Crowd<H>, waiters: map<H, Waiter>, pending: nat, max: nat, n: nat)
    requires (forall g <- list :: g in waiters) && Trimmed(list, c, waiters, pending, max, n)
    requires AtRest(c, waiters, pending, max)
    ensures n == Min(Excess(list, pending, max), |list|)
  {
    hide HighestAt;
    if c.list != [] {
      var h := c.list[HighestAt(c.list, waiters)];
      assert h in c.list && !InExcess(c.list, waiters, h, pending, max);
    }
  }

  /** With no arrivals and the pending count fixed, any schedule that settles has removed exactly the highest
      min(excess, held): the survivors do not depend on the order in which the held ones woke up. */
  lemma SurvivorsDoNotDependOnTheSchedule<H>(list: seq<H>, waiters: map<H, Waiter>, pending: nat, max: nat, schedule: seq<Move<H>>)
    requires Distinct(list) && forall g <- list :: g in waiters
    requires AtRest(Play(Crowd(list, {}), waiters, pending, max, schedule), waiters, pending, max)
    ensures Play(Crowd(list, {}), waiters, pending, max, schedule).list
            == Trim(list, waiters, Min(Excess(list, pending, max), |list|))
  {
    var n := PlayTrims(list, waiters, pending, max, schedule);
    RestIsFull(list, Play(Crowd(list, {}), waiters, pending, max, schedule), waiters, pending, max, n);
  }

  /** Whoever is on its way out is the highest, alone, and when it goes the excess shrinks by one. */
  lemma EachDepartureShrinksTheExcess<H>(list: seq<H>, waiters: map<H, Waiter>, pending: nat, max: nat, schedule: seq<Move<H>>, h: H)
    requires Distinct(list) && forall g <- list :: g in waiters
    requires var c := Play(Crowd(list, {}), waiters, pending, max, schedule); h in c.leaving
    ensures var c := Play(Crowd(list, {}), waiters, pending, max, schedule);
      var c' := Step(c, waiters, pending, max, Leave(h));
      && Excess(c'.list, pending, max) == Excess(c.list, pending, max) - 1
      && c.list[HighestAt(c.list, waiters)] == h && c'.leaving == {}
  {
    var n := PlayTrims(list, waiters, pending, max, schedule);
    var c := Play(Crowd(list, {}), waiters, pending, max, schedule);
    TrimKeepsDistinct(list, waiters, n);
    WithoutAt(c.list, HighestAt(c.list, waiters));
  }

  // ---------------------------------------------------------------- which ones are the highest

  /** `g` arrived before `h`. */
  ghost predicate Earlier<H>(list: seq<H>, g: H, h: H) {
    exists i, j | 0 <= i < j < |list| :: list[i] == g && list[j] == h
  }

  /** The order in which held metatx are worth keeping: by nonce, and among equals by arrival. */
  ghost predicate Before<H>(list: seq<H>, waiters: map<H, Waiter>, g: H, h: H)
    requires g in waiters && h in waiters
  {
    waiters[g].nonce < waiters[h].nonce
    || (waiters[g].nonce == waiters[h].nonce && Earlier(list, g, h))
  }

  /** Those that stay keep their order of arrival. */
  ghost predicate KeepsOrder<H>(list: seq<H>, rest: seq<H>) {
    forall i, j | 0 <= i < j < |rest| :: Earlier(list, rest[i], rest[j])
  }

  /** Removing one entry leaves the others in order. */
  lemma DroppingKeepsOrder<H>(list: seq<H>, before: seq<H>, at: nat)
    requires KeepsOrder(list, before) && at < |before|
    ensures KeepsOrder(list, Cut(before, at))
  {
  }

  /** What was removed comes after everything that stayed. */
  ghost predicate RemovesTheLast<H(!new)>(list: seq<H>, waiters: map<H, Waiter>, rest: seq<H>)
    requires forall g <- list :: g in waiters
  {
    forall g, h | g in rest && g in list && h in list && h !in rest :: Before(list, waiters, g, h)
  }

  lemma DroppingTheHighestRemovesTheLast<H(!new)>(list: seq<H>, before: seq<H>, waiters: map<H, Waiter>)
    requires (forall g <- list :: g in waiters) && before != [] && (forall g <- before :: g in list) && Distinct(before)
    requires KeepsOrder(list, before) && RemovesTheLast(list, waiters, before)
    ensures var at := HighestAt(before, waiters); RemovesTheLast(list, waiters, Cut(before, at))
  {
  }

  /** What is left of a list when its last entries, by nonce and arrival, are gone, and nobody else is disturbed. */
  ghost predicate TopRemoved<H(!new)>(list: seq<H>, waiters: map<H, Waiter>, rest: seq<H>)
    requires forall g <- list :: g in waiters
  {
    (forall g <- rest :: g in list) && Distinct(rest) && KeepsOrder(list, rest) && RemovesTheLast(list, waiters, rest)
  }

  lemma RemovingOneMore<H(!new)>(list: seq<H>, before: seq<H>, waiters: map<H, Waiter>)
    requires (forall g <- list :: g in waiters) && before != [] && TopRemoved(list, waiters, before)
    ensures TopRemoved(list, waiters, Cut(before, HighestAt(before, waiters)))
  {
    hide Earlier, Before, KeepsOrder, RemovesTheLast, Distinct, Cut, HighestAt;
    CutKeepsDistinct(before, HighestAt(before, waiters));
    DroppingKeepsOrder(list, before, HighestAt(before, waiters));
    DroppingTheHighestRemovesTheLast(list, before, waiters);
  }

  /** Trimming removes the last ones by nonce and arrival, and disturbs nobody else. */
  lemma {:induction false} TrimRemovesTheHighest<H(!new)>(list: seq<H>, waiters: map<H, Waiter>, n: nat)
    requires n <= |list| && Distinct(list) && forall g <- list :: g in waiters
    ensures |Trim(list, waiters, n)| == |list| - n && TopRemoved(list, waiters, Trim(list, waiters, n))
  {
    if n == 0 {
      NothingRemoved(list, waiters);
    } else {
      TrimRemovesTheHighest(list, waiters, n - 1);
      hide TopRemoved, Cut, HighestAt;
      RemovingOneMore(list, Trim(list, waiters, n - 1), waiters);
    }
  }

  lemma NothingRemoved<H(!new)>(list: seq<H>, waiters: map<H, Waiter>)
    requires forall g <- list :: g in waiters
    requires Distinct(list)
    ensures TopRemoved(list, waiters, list)
  {
    assert forall i, j | 0 <= i < j < |list| :: Earlier(list, list[i], list[j]);
  }
}
