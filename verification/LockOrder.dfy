/** The locks every kind of goroutine takes, in program order, and why no set of them can block one another: user
    lock, then global lock, then one leaf lock at a time, at most with the console's lock inside, and nobody sleeps on a
    channel with a lock in hand. */
module LockOrder {
  import opened Base

  /** `LogWriter` is the lock of the structured log, taken after that of the event bus for each event; `Console` is the
      one inside the plain logger, which the gas window takes while it counts. */
  datatype Leaf = Senders | MetaTx | UserLocksMap | Handouts | GasWindow | EventBus | LogWriter | Console

  datatype Lock = User(key: Key) | Relay | Small(leaf: Leaf)

  datatype Instr = Acquire(lock: Lock) | Release(lock: Lock) | Sleep

  type Program = seq<Instr>

  function Rank(lock: Lock): nat {
    match lock
    case User(_) => 0
    case Relay => 1
    case Small(leaf) => if leaf.Console? then 3 else 2
  }

  /** Taking a lock, doing something, and giving it back. */
  function Guarded(lock: Lock, body: Program): Program { [Acquire(lock)] + body + [Release(lock)] }

  /** A critical section of a leaf lock: only the gas window prints inside. */
  function Section(leaf: Leaf): Program {
    Guarded(Small(leaf), if leaf.GasWindow? then Guarded(Small(Console), []) else [])
  }

  function Sections(leaves: seq<Leaf>): Program {
    if leaves == [] then [] else Section(leaves[0]) + Sections(leaves[1..])
  }

  // ---------------------------------------------------------------- what the source does

  /** How the send under the user lock ends. */
  datatype Ending = NonceUnknown | NonceMismatch | GasUnknown | NoGas | SendFailed | Sent(closesTicket: bool)

  /** What a goroutine does: a send that ends while it waits, after `rounds` sleeps and some more critical sections;
      a send that goes through; reading a receipt; closing metatx, as the watcher or as a client; asking for a
      nonce; or a single critical section of a timer, a reader or a publisher. */
  datatype Path =
    | SendLeftWaiting(rounds: nat, more: seq<Leaf>)
    | SendReordered(key: Key, rounds: nat, ending: Ending)
    | ReadReceipt(rejections: nat)
    | Settle(snapshot: bool, entries: nat, rejections: nat)
    | HandOut(waits: bool)
    | Single(leaf: Leaf)

  /** One round of awaitTurn: the expected nonce, the registration the first time, the quota, the wake channel, the
      sleep, and what it learns on waking. */
  function Round(first: bool): Program {
    Sections([Senders] + (if first then [Senders, EventBus, LogWriter] else []) + [Senders, Senders]) + [Sleep] + Sections([Senders])
  }

  function LaterRounds(n: nat): Program { if n == 0 then [] else Round(false) + LaterRounds(n - 1) }

  /** makeRoomFor, and the rounds of awaitTurn that ended with another one. */
  function Wait(rounds: nat): Program {
    Sections([Senders]) + (if rounds == 0 then [] else Round(true) + LaterRounds(rounds - 1))
  }

  /** The last look at the expected nonce, and the release of a metatx that was held. */
  function EndOfWait(rounds: nat): Program {
    Sections([Senders] + if rounds == 0 then [] else [Senders, EventBus, LogWriter])
  }

  /** What reserveGasAndSend does with the global lock in hand: the gas is checked, which may fail before anything is
      counted, and when the send went out it is noted and remembered, and told. */
  function WithGlobalLock(ending: Ending): Program {
    match ending
    case NoGas => Sections([Console, GasWindow])
    case SendFailed => Sections([Console, GasWindow])
    case Sent(closes) =>
      Sections([Console, GasWindow, Handouts]) + (if closes then Sections([Handouts]) else [])
      + Sections([Senders, MetaTx, Console, EventBus, LogWriter])
    case _ => []
  }

  function GlobalSection(ending: Ending): Program { Guarded(Relay, WithGlobalLock(ending)) }

  /** What sendReordered does with the user lock in hand. */
  function WithUserLock(ending: Ending): Program {
    Sections([Senders])
    + match ending
      case NonceUnknown => []
      case NonceMismatch => Sections([Senders])
      case GasUnknown => GlobalSection(ending) + Sections([Senders])
      case NoGas => GlobalSection(ending) + Sections([Senders])
      case SendFailed => GlobalSection(ending) + Sections([Senders])
      case Sent(_) => GlobalSection(ending)
  }

  /** sendReordered from lockUser on. */
  function UnderUserLock(key: Key, ending: Ending): Program {
    Sections([UserLocksMap]) + Guarded(User(key), WithUserLock(ending)) + Sections([UserLocksMap])
  }

  /** Reading the verdict of one metatx, claiming it, telling so, and releasing what it held. */
  function SettleOne(rejections: nat): Program {
    Sections([MetaTx]) + Rejections(rejections) + Sections([MetaTx, EventBus, LogWriter, MetaTx, Senders])
  }

  function Rejections(n: nat): Program { if n == 0 then [] else Sections([Senders, Console, EventBus, LogWriter]) + Rejections(n - 1) }

  function SettleAll(entries: nat, rejections: nat): Program {
    if entries == 0 then [] else SettleOne(rejections) + SettleAll(entries - 1, rejections)
  }

  function ProgramOf(path: Path): Program {
    match path
    case SendLeftWaiting(rounds, more) => Wait(rounds) + Sections(more)
    case SendReordered(key, rounds, ending) => Wait(rounds) + EndOfWait(rounds) + UnderUserLock(key, ending)
    case ReadReceipt(rejections) => Sections([MetaTx]) + Rejections(rejections)
    case Settle(snapshot, entries, rejections) => (if snapshot then Sections([MetaTx]) else []) + SettleAll(entries, rejections)
    case HandOut(waits) => Sections([Handouts]) + (if waits then [Sleep] else []) + Sections([Senders, Handouts])
    case Single(leaf) => Sections([leaf])
  }

  /** A goroutine may do several things in a row, such as sending and then closing what it sent. */
  function ProgramsOf(paths: seq<Path>): Program {
    if paths == [] then [] else ProgramOf(paths[0]) + ProgramsOf(paths[1..])
  }

  // ---------------------------------------------------------------- the discipline

  /** What a thread holds after running a program, or None if it breaks the discipline on the way. */
  function After(p: Program, held: set<Lock>): Option<set<Lock>> {
    if p == [] then Some(held)
    else
      match p[0]
      case Acquire(l) => if forall h <- held :: Rank(h) < Rank(l) then After(p[1..], held + {l}) else None
      case Release(l) => if l in held then After(p[1..], held - {l}) else None
      case Sleep => if held == {} then After(p[1..], held) else None
  }

  /** The rest of a thread's program respects the order and gives back everything it holds. */
  predicate Disciplined(p: Program, held: set<Lock>) { After(p, held) == Some({}) }

  lemma {:induction false} AfterConcat(p: Program, q: Program, held: set<Lock>)
    ensures After(p + q, held) == (match After(p, held) case None => None case Some(h) => After(q, h))
  {
    if p == [] {
      assert p + q == q;
    } else {
      assert (p + q)[1..] == p[1..] + q;
      match p[0]
      case Acquire(l) => AfterConcat(p[1..], q, held + {l});
      case Release(l) => AfterConcat(p[1..], q, held - {l});
      case Sleep => AfterConcat(p[1..], q, held);
    }
  }

  predicate NoLeaf(held: set<Lock>) { forall h <- held :: Rank(h) < 2 }

  /** A section guarded by one more lock of a higher rank gives that lock back. */
  lemma GuardedKeeps(lock: Lock, body: Program, held: set<Lock>)
    requires (forall h <- held :: Rank(h) < Rank(lock)) && After(body, held + {lock}) == Some(held + {lock})
    ensures After(Guarded(lock, body), held) == Some(held)
  {
    assert lock !in held;
    assert After([Release(lock)], held + {lock}) == Some(held) by {
      assert [Release(lock)][1..] == [];
      assert held + {lock} - {lock} == held;
    }
    AfterConcat(body, [Release(lock)], held + {lock});
    assert ([Acquire(lock)] + (body + [Release(lock)]))[1..] == body + [Release(lock)];
    assert [Acquire(lock)] + body + [Release(lock)] == [Acquire(lock)] + (body + [Release(lock)]);
  }

  lemma SectionKeeps(leaf: Leaf, held: set<Lock>)
    requires NoLeaf(held)
    ensures After(Section(leaf), held) == Some(held)
  {
    var inside := held + {Small(leaf)};
    if leaf.GasWindow? { GuardedKeeps(Small(Console), [], inside); }
    hide After;
    EmptyKeeps(inside);
    GuardedKeeps(Small(leaf), if leaf.GasWindow? then Guarded(Small(Console), []) else [], held);
  }

  lemma EmptyKeeps(held: set<Lock>)
    ensures After([], held) == Some(held)
  {
  }

  lemma {:induction false} SectionsKeepHeld(leaves: seq<Leaf>, held: set<Lock>)
    requires NoLeaf(held)
    ensures After(Sections(leaves), held) == Some(held)
  {
    if leaves != [] {
      SectionKeeps(leaves[0], held);
      SectionsKeepHeld(leaves[1..], held);
      AfterConcat(Section(leaves[0]), Sections(leaves[1..]), held);
    }
  }

  lemma {:induction false} LaterRoundsKeep(n: nat)
    ensures After(LaterRounds(n), {}) == Some({})
  {
    if n > 0 {
      RoundKeeps(false);
      LaterRoundsKeep(n - 1);
      AfterConcat(Round(false), LaterRounds(n - 1), {});
    }
  }

  lemma RoundKeeps(first: bool)
    ensures After(Round(first), {}) == Some({})
  {
    var before := Sections([Senders] + (if first then [Senders, EventBus, LogWriter] else []) + [Senders, Senders]);
    SectionsKeepHeld([Senders] + (if first then [Senders, EventBus, LogWriter] else []) + [Senders, Senders], {});
    SectionsKeepHeld([Senders], {});
    AfterConcat(before, [Sleep], {});
    AfterConcat(before + [Sleep], Sections([Senders]), {});
  }

  lemma WaitKeeps(rounds: nat)
    ensures After(Wait(rounds), {}) == Some({})
  {
    SectionsKeepHeld([Senders], {});
    if rounds > 0 {
      RoundKeeps(true);
      LaterRoundsKeep(rounds - 1);
      AfterConcat(Round(true), LaterRounds(rounds - 1), {});
    }
    AfterConcat(Sections([Senders]), if rounds == 0 then [] else Round(true) + LaterRounds(rounds - 1), {});
  }

  lemma {:induction false} RejectionsKeep(n: nat)
    ensures After(Rejections(n), {}) == Some({})
  {
    if n > 0 {
      SectionsKeepHeld([Senders, Console, EventBus, LogWriter], {});
      RejectionsKeep(n - 1);
      AfterConcat(Sections([Senders, Console, EventBus, LogWriter]), Rejections(n - 1), {});
    }
  }

  lemma {:induction false} SettleAllKeeps(entries: nat, rejections: nat)
    ensures After(SettleAll(entries, rejections), {}) == Some({})
  {
    if entries > 0 {
      SectionsKeepHeld([MetaTx], {});
      RejectionsKeep(rejections);
      SectionsKeepHeld([MetaTx, EventBus, LogWriter, MetaTx, Senders], {});
      AfterConcat(Sections([MetaTx]), Rejections(rejections), {});
      AfterConcat(Sections([MetaTx]) + Rejections(rejections), Sections([MetaTx, EventBus, LogWriter, MetaTx, Senders]), {});
      SettleAllKeeps(entries - 1, rejections);
      AfterConcat(SettleOne(rejections), SettleAll(entries - 1, rejections), {});
    }
  }

  lemma GlobalSectionKeeps(ending: Ending, held: set<Lock>)
    requires forall h <- held :: Rank(h) < 1
    ensures After(GlobalSection(ending), held) == Some(held)
  {
    var inside := held + {Relay};
    forall leaves ensures After(Sections(leaves), inside) == Some(inside) { SectionsKeepHeld(leaves, inside); }
    EmptyKeeps(inside);
    if ending.Sent? {
      var closing := if ending.closesTicket then Sections([Handouts]) else [];
      AfterConcat(Sections([Console, GasWindow, Handouts]), closing, inside);
      AfterConcat(Sections([Console, GasWindow, Handouts]) + closing, Sections([Senders, MetaTx, Console, EventBus, LogWriter]), inside);
    }
    hide After, Sections;
    GuardedKeeps(Relay, WithGlobalLock(ending), held);
  }

  lemma WithUserLockKeeps(ending: Ending, held: set<Lock>)
    requires forall h <- held :: Rank(h) < 1
    ensures After(WithUserLock(ending), held) == Some(held)
  {
    SectionsKeepHeld([Senders], held);
    GlobalSectionKeeps(ending, held);
    hide GlobalSection;
    var rest :=
      match ending
      case NonceUnknown => []
      case NonceMismatch => Sections([Senders])
      case GasUnknown => GlobalSection(ending) + Sections([Senders])
      case NoGas => GlobalSection(ending) + Sections([Senders])
      case SendFailed => GlobalSection(ending) + Sections([Senders])
      case Sent(_) => GlobalSection(ending);
    AfterConcat(GlobalSection(ending), Sections([Senders]), held);
    AfterConcat(Sections([Senders]), rest, held);
  }

  lemma UnderUserLockKeeps(key: Key, ending: Ending)
    ensures After(UnderUserLock(key, ending), {}) == Some({})
  {
    WithUserLockKeeps(ending, {} + {User(key)});
    GuardedKeeps(User(key), WithUserLock(ending), {});
    SectionsKeepHeld([UserLocksMap], {});
    hide WithUserLock, After;
    var guarded := Guarded(User(key), WithUserLock(ending));
    AfterConcat(Sections([UserLocksMap]), guarded, {});
    AfterConcat(Sections([UserLocksMap]) + guarded, Sections([UserLocksMap]), {});
  }

  lemma SendReorderedKeeps(key: Key, rounds: nat, ending: Ending)
    ensures After(ProgramOf(SendReordered(key, rounds, ending)), {}) == Some({})
  {
    hide After, Sections, Wait, UnderUserLock;
    WaitKeeps(rounds);
    UnderUserLockKeeps(key, ending);
    AfterConcat(Wait(rounds), EndOfWait(rounds), {});
    AfterConcat(Wait(rounds) + EndOfWait(rounds), UnderUserLock(key, ending), {});
    forall leaves ensures After(Sections(leaves), {}) == Some({}) { SectionsKeepHeld(leaves, {}); }
  }

  /** Everything a goroutine of the service does keeps the order: it takes locks upwards only, sleeps with empty
      hands, and ends with empty hands. */
  lemma EveryPathIsDisciplined(path: Path)
    ensures Disciplined(ProgramOf(path), {})
  {
    forall leaves ensures After(Sections(leaves), {}) == Some({}) { SectionsKeepHeld(leaves, {}); }
    match path
    case SendLeftWaiting(rounds, more) =>
      WaitKeeps(rounds);
      AfterConcat(Wait(rounds), Sections(more), {});
    case SendReordered(key, rounds, ending) => SendReorderedKeeps(key, rounds, ending);
    case ReadReceipt(rejections) =>
      RejectionsKeep(rejections);
      AfterConcat(Sections([MetaTx]), Rejections(rejections), {});
    case Settle(snapshot, entries, rejections) =>
      SettleAllKeeps(entries, rejections);
      AfterConcat(if snapshot then Sections([MetaTx]) else [], SettleAll(entries, rejections), {});
    case HandOut(waits) =>
      var pause := if waits then [Sleep] else [];
      AfterConcat(Sections([Handouts]), pause, {});
      AfterConcat(Sections([Handouts]) + pause, Sections([Senders, Handouts]), {});
    case Single(_) =>
  }

  lemma {:induction false} EveryGoroutineIsDisciplined(paths: seq<Path>)
    ensures Disciplined(ProgramsOf(paths), {})
  {
    if paths != [] {
      EveryPathIsDisciplined(paths[0]);
      EveryGoroutineIsDisciplined(paths[1..]);
      AfterConcat(ProgramOf(paths[0]), ProgramsOf(paths[1..]), {});
    }
  }

  // ---------------------------------------------------------------- the goroutines together

  type Thread = nat

  /** What a goroutine still has to do, and the locks in its hands. */
  datatype Rest = Rest(program: Program, held: set<Lock>)

  type State = map<Thread, Rest>

  datatype Step = Start(t: Thread, paths: seq<Path>) | Go(t: Thread)

  predicate IsHeld(s: State, l: Lock) { exists t <- s :: l in s[t].held }

  /** The goroutine wants a lock that another one has. */
  predicate WaitsFor(s: State, t: Thread, u: Thread) {
    t in s && u in s && s[t].program != [] && s[t].program[0].Acquire? && s[t].program[0].lock in s[u].held
  }

  /** A mutex is taken only when nobody has it; a sleeper wakes up on its own, by its channel or by its timer. */
  predicate CanGo(s: State, t: Thread) {
    t in s && s[t].program != [] && (s[t].program[0].Acquire? ==> !IsHeld(s, s[t].program[0].lock))
  }

  predicate Enabled(s: State, step: Step) {
    match step
    case Start(t, _) => t !in s
    case Go(t) => CanGo(s, t)
  }

  function Do(s: State, step: Step): State
    requires Enabled(s, step)
  {
    match step
    case Start(t, paths) => s[t := Rest(ProgramsOf(paths), {})]
    case Go(t) =>
      var rest := s[t];
      var held :=
        match rest.program[0]
        case Acquire(l) => rest.held + {l}
        case Release(l) => rest.held - {l}
        case Sleep => rest.held;
      s[t := Rest(rest.program[1..], held)]
  }

  ghost predicate Inv(s: State) {
    && (forall t <- s :: Disciplined(s[t].program, s[t].held))
    && (forall t, u, l | t in s && u in s && l in s[t].held && l in s[u].held :: t == u)
  }

  lemma StepKeeps(s: State, step: Step)
    requires Inv(s) && Enabled(s, step)
    ensures Inv(Do(s, step))
  {
    match step
    case Start(t, paths) => EveryGoroutineIsDisciplined(paths);
    case Go(t) =>
  }

  ghost predicate Run(states: seq<State>, steps: seq<Step>) {
    && |states| == |steps| + 1
    && states[0] == map[]
    && (forall i | 0 <= i < |steps| :: Enabled(states[i], steps[i]) && states[i + 1] == Do(states[i], steps[i]))
  }

  lemma {:induction false} RunKeeps(states: seq<State>, steps: seq<Step>, i: nat)
    requires Run(states, steps) && i < |states|
    ensures Inv(states[i])
  {
    if i > 0 {
      hide Inv, Do;
      RunKeeps(states, steps, i - 1);
      StepKeeps(states[i - 1], steps[i - 1]);
    }
  }

  /** A chain of goroutines, each waiting for a lock the next one has. */
  ghost predicate WaitChain(s: State, chain: seq<Thread>) {
    forall i | 0 <= i < |chain| - 1 :: WaitsFor(s, chain[i], chain[i + 1])
  }

  /** The rank of the lock a goroutine is about to take, or above all of them if it takes none. */
  function Wanted(s: State, t: Thread): nat {
    if t in s && s[t].program != [] && s[t].program[0].Acquire? then Rank(s[t].program[0].lock) else 4
  }

  /** Whoever is waited for wants something higher, and neither sleeps nor is done. */
  lemma WaitingGoesUp(s: State, t: Thread, u: Thread)
    requires Inv(s) && WaitsFor(s, t, u)
    ensures s[u].program != [] && !s[u].program[0].Sleep? && Wanted(s, t) < Wanted(s, u)
  {
  }

  /** Along a chain of waiters the wanted locks only go up. */
  lemma {:induction false} RanksRise(s: State, chain: seq<Thread>, i: nat, j: nat)
    requires Inv(s) && WaitChain(s, chain) && i < j < |chain|
    ensures Wanted(s, chain[i]) < Wanted(s, chain[j])
    decreases j
  {
    WaitingGoesUp(s, chain[j - 1], chain[j]);
    if i < j - 1 { RanksRise(s, chain, i, j - 1); }
  }

  /** No reachable state has goroutines that wait for one another in a circle, and nobody who is waited for
      sleeps or is done. */
  lemma NoDeadlock(states: seq<State>, steps: seq<Step>, n: nat, chain: seq<Thread>)
    requires Run(states, steps) && n < |states| && |chain| > 1 && WaitChain(states[n], chain)
    ensures chain[0] != chain[|chain| - 1]
    ensures var s, last := states[n], chain[|chain| - 1];
      last in s && s[last].program != [] && !s[last].program[0].Sleep?
  {
    RunKeeps(states, steps, n);
    var end := |chain| - 1;
    RanksRise(states[n], chain, 0, end);
    WaitingGoesUp(states[n], chain[end - 1], chain[end]);
  }

  /** The goroutine has something to do and is not asleep. */
  predicate Busy(s: State, t: Thread) { t in s && s[t].program != [] && !s[t].program[0].Sleep? }

  lemma {:induction false} Unblocked(s: State, t: Thread) returns (u: Thread)
    requires Inv(s) && Busy(s, t)
    ensures Busy(s, u) && CanGo(s, u)
    decreases 4 - Wanted(s, t)
  {
    if CanGo(s, t) { return t; }
    var v :| v in s && s[t].program[0].lock in s[v].held;
    WaitingGoesUp(s, t, v);
    u := Unblocked(s, v);
  }

  /** While some goroutine is busy, a busy one can go on: progress never depends on a sleeper waking up. */
  lemma SomebodyCanGo(states: seq<State>, steps: seq<Step>, n: nat, t: Thread) returns (u: Thread)
    requires Run(states, steps) && n < |states| && Busy(states[n], t)
    ensures Busy(states[n], u) && CanGo(states[n], u)
  {
    RunKeeps(states, steps, n);
    u := Unblocked(states[n], t);
  }
}
