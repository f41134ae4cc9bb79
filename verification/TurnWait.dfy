/** The wait loop of one early metatx and its renewable deadline. What the loop observes, round by round, is an
    arbitrary input: the expected nonce (which may fall as well as rise), the clock, the quota and how it woke. */
module TurnWait {
  import opened Base
  import opened Waiting

  /** One round: the expected nonce, the clock when the deadline may be renewed and when it is compared, the count
      if the metatx is in excess, how the sleep ended, and the count if it was evicted meanwhile. */
  datatype Round = Round(
    expected: Option<nat>, renewedAt: nat, comparedAt: nat, surplus: Option<nat>, wakeup: Wakeup, evicted: Option<nat>)

  /** How far the wait got: the metatx left it in some round, or is still there after the last one. */
  datatype Turn = Left(result: Result, round: nat) | StillWaiting

  /** The metatx is early in that round. */
  predicate Early(nonce: nat, r: Round) { r.expected.Some? && r.expected.value < nonce }

  predicate AllEarly(nonce: nat, rounds: seq<Round>, n: nat)
    requires n <= |rounds|
  {
    forall i | 0 <= i < n :: Early(nonce, rounds[i])
  }

  /** The round that set the deadline in force after round `n`: the first to have seen the highest expected nonce. */
  function Renewal(nonce: nat, rounds: seq<Round>, n: nat): (at: nat)
    requires n < |rounds| && AllEarly(nonce, rounds, n + 1)
    ensures at <= n
    ensures forall i | 0 <= i <= n :: rounds[i].expected.value <= rounds[at].expected.value
    ensures forall i | 0 <= i < at :: rounds[i].expected.value < rounds[at].expected.value
  {
    if n == 0 then 0
    else
      var before := Renewal(nonce, rounds, n - 1);
      if rounds[n].expected.value > rounds[before].expected.value then n else before
  }

  function Deadline(nonce: nat, window: nat, rounds: seq<Round>, n: nat): nat
    requires n < |rounds| && AllEarly(nonce, rounds, n + 1)
  {
    rounds[Renewal(nonce, rounds, n)].renewedAt + window
  }

  lemma DeadlineMoves(nonce: nat, window: nat, rounds: seq<Round>, n: nat)
    requires n < |rounds| && AllEarly(nonce, rounds, n + 1)
    ensures var highest := n == 0 || rounds[n].expected.value > rounds[Renewal(nonce, rounds, n - 1)].expected.value;
      && rounds[Renewal(nonce, rounds, n)].expected.value
         == (if highest then rounds[n].expected.value else rounds[Renewal(nonce, rounds, n - 1)].expected.value)
      && Deadline(nonce, window, rounds, n)
         == if highest then rounds[n].renewedAt + window else Deadline(nonce, window, rounds, n - 1)
  {
  }

  /** awaitTurn, against whatever it may observe. */
  method AwaitTurn(nonce: nat, window: nat, start: nat, rounds: seq<Round>) returns (turn: Turn, held: bool)
    ensures var n := if turn.Left? then turn.round else |rounds|;
      && n <= |rounds| && (turn.Left? ==> n < |rounds|)
      && AllEarly(nonce, rounds, n)
      && (forall i | 0 <= i < n :: rounds[i].expected.Some? && rounds[i].expected.value < nonce
                                   && rounds[i].comparedAt < Deadline(nonce, window, rounds, i) && rounds[i].surplus.None?
                                   && !rounds[i].wakeup.ContextDone? && rounds[i].evicted.None?)
      && (held <==> n > 0 || (turn.Left? && rounds[0].expected.Some? && rounds[0].expected.value < nonce))
    ensures turn.Left? && turn.result.NodeFailed? <==> turn.Left? && rounds[turn.round].expected.None?
    ensures turn.Left? && turn.result.InTurn? <==>
      turn.Left? && rounds[turn.round].expected.Some? && rounds[turn.round].expected.value >= nonce
    ensures turn.Left? && turn.result.WindowExpired? <==>
      turn.Left? && Early(nonce, rounds[turn.round])
      && rounds[turn.round].comparedAt >= Deadline(nonce, window, rounds, turn.round)
    ensures turn.Left? && turn.result.TooMany? ==>
      var r := rounds[turn.round];
      Early(nonce, r) && r.comparedAt < Deadline(nonce, window, rounds, turn.round)
      && (r.surplus == Some(turn.result.count)
          || (r.surplus.None? && !r.wakeup.ContextDone? && r.evicted == Some(turn.result.count)))
    ensures turn.Left? && turn.result.ClientGone? ==>
      var r := rounds[turn.round];
      Early(nonce, r) && r.comparedAt < Deadline(nonce, window, rounds, turn.round)
      && r.surplus.None? && r.wakeup.ContextDone?
  {
    hide Renewal, Deadline;
    var deadline := start + window;
    var lastExpected, seenExpected := 0, false;
    held := false;
    var i := 0;
    while i < |rounds|
      invariant i <= |rounds| && AllEarly(nonce, rounds, i)
      invariant forall k | 0 <= k < i ::
        && rounds[k].expected.Some? && rounds[k].expected.value < nonce
        && rounds[k].comparedAt < Deadline(nonce, window, rounds, k) && rounds[k].surplus.None?
        && !rounds[k].wakeup.ContextDone? && rounds[k].evicted.None?
      invariant seenExpected == held == (i > 0)
      invariant i > 0 ==> lastExpected == rounds[Renewal(nonce, rounds, i - 1)].expected.value
      invariant i > 0 ==> deadline == Deadline(nonce, window, rounds, i - 1)
    {
      var r := rounds[i];
      if r.expected.None? { return Left(NodeFailed, i), held; }
      var expected := r.expected.value;
      if nonce <= expected { return Left(InTurn, i), held; }
      held := true;
      DeadlineMoves(nonce, window, rounds, i);
      if !seenExpected || expected > lastExpected {
        seenExpected, lastExpected := true, expected;
        deadline := r.renewedAt + window;
      }
      if deadline <= r.comparedAt { return Left(WindowExpired, i), held; }
      if r.surplus.Some? { return Left(TooMany(r.surplus.value), i), held; }
      if r.wakeup.ContextDone? { return Left(ClientGone, i), held; }
      if r.evicted.Some? { return Left(TooMany(r.evicted.value), i), held; }
      i := i + 1;
    }
    turn := StillWaiting;
  }

  // ---------------------------------------------------------------- stagnation

  /** The clock does not run backwards, and a sleeper is back at most `late` after its deadline. */
  ghost predicate Timely(nonce: nat, window: nat, late: nat, rounds: seq<Round>, n: nat)
    requires n < |rounds| && AllEarly(nonce, rounds, n)
  {
    && (forall i | 0 <= i <= n :: rounds[i].renewedAt <= rounds[i].comparedAt)
    && (forall i | 0 <= i < n :: rounds[i].comparedAt <= rounds[i + 1].renewedAt <= Deadline(nonce, window, rounds, i) + late)
  }

  function Laps(n: nat, lap: nat): nat { n * lap }

  lemma OneMoreFits(less: nat, more: nat, lap: nat)
    requires less < more
    ensures Laps(less, lap) + lap <= Laps(more, lap)
  {
    var rest: nat := more - less - 1;
    assert more * lap == (less + 1 + rest) * lap == less * lap + lap + rest * lap;
  }

  /** Each renewal of the deadline is paid for by a new highest expected nonce. */
  lemma {:induction false} RenewalsArePaid(nonce: nat, window: nat, late: nat, rounds: seq<Round>, n: nat)
    requires n < |rounds| && AllEarly(nonce, rounds, n + 1) && Timely(nonce, window, late, rounds, n)
    ensures var gained := rounds[Renewal(nonce, rounds, n)].expected.value - rounds[0].expected.value;
      0 <= gained && Deadline(nonce, window, rounds, n) <= rounds[0].renewedAt + window + Laps(gained, window + late)
  {
    hide Laps;
    if n > 0 {
      RenewalsArePaid(nonce, window, late, rounds, n - 1);
      var before, now := Renewal(nonce, rounds, n - 1), Renewal(nonce, rounds, n);
      if now == n {
        var gained := rounds[before].expected.value - rounds[0].expected.value;
        var more := rounds[now].expected.value - rounds[0].expected.value;
        OneMoreFits(gained, more, window + late);
      }
    }
  }

  /** A metatx first held `gap` nonces early is held at most `gap` windows, plus what the timers are late: the
      deadline measures stagnation, and the expected nonce can only reach a new maximum below the metatx's own
      `gap` times, however often it falls back in between. */
  lemma HeldAtMostGapWindows(nonce: nat, window: nat, late: nat, rounds: seq<Round>, n: nat)
    requires 0 < n < |rounds| && AllEarly(nonce, rounds, n) && Timely(nonce, window, late, rounds, n)
    ensures var gap := nonce - rounds[0].expected.value;
      rounds[n].renewedAt <= rounds[0].renewedAt + gap * (window + late)
  {
    RenewalsArePaid(nonce, window, late, rounds, n - 1);
    var gap := nonce - rounds[0].expected.value;
    var gained := rounds[Renewal(nonce, rounds, n - 1)].expected.value - rounds[0].expected.value;
    OneMoreFits(gained, gap, window + late);
    assert Laps(gap, window + late) == gap * (window + late);
  }

  /** A wait that ends by its window saw no new maximum for a whole window, and its metatx was still early. */
  lemma ExpiryIsStagnation(nonce: nat, window: nat, rounds: seq<Round>, n: nat)
    requires n < |rounds| && AllEarly(nonce, rounds, n + 1)
    requires rounds[n].comparedAt >= Deadline(nonce, window, rounds, n)
    ensures exists at :: 0 <= at <= n && rounds[n].comparedAt - rounds[at].renewedAt >= window && (forall i | at <= i <= n :: rounds[i].expected.value <= rounds[at].expected.value < nonce)
  {
  }
}
