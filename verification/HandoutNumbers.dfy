/** Which numbers the queue hands out: exactly when two requests of a user get the same one, and why. */
module HandoutNumbers {
  import opened Base
  import opened Handout

  // ---------------------------------------------------------------- what changes the expected nonce

  /** What the service expects of that user does not move by itself: his chain is dropped only when the hub has caught up
      with it, as when it is forgotten by grace, and the hub neither goes back nor gets ahead of the chain. */
  predicate Steady(s: State, step: Step, key: Key) {
    match step
    case Drop(k) => k != key || Next(s, key) == HubOf(s, key)
    case Abort(i) => i in s.sends && (s.sends[i].key != key || Next(s, key) == HubOf(s, key))
    case HubMoves(k, n) => k != key || HubOf(s, key) <= n <= Next(s, key)
    case _ => true
  }

  /** The step is the end of a send of that user: the expected nonce advances. */
  predicate Advances(s: State, step: Step, key: Key) {
    (step.Advance? || step.NoteAtOnce?) && step.send in s.sends && s.sends[step.send].key == key
  }

  /** The send of that user, if there is one, carries the nonce that is expected of him, and the hub is not ahead. */
  ghost predicate InStep(s: State, key: Key) {
    HubOf(s, key) <= Next(s, key) && forall i <- s.sends | s.sends[i].key == key :: s.sends[i].nonce == Next(s, key)
  }

  /** A stretch of a run that is steady for that user. What happened before it does not matter. */
  ghost predicate SteadyBetween(states: seq<State>, steps: seq<Step>, a: nat, b: nat, key: Key) {
    Run(states, steps) && a <= b < |states| && InStep(states[a], key) && forall i | a <= i < b :: Steady(states[i], steps[i], key)
  }

  lemma StepAdvances(s: State, step: Step, key: Key)
    requires Inv(s) && InStep(s, key) && Enabled(s, step) && Steady(s, step, key)
    ensures InStep(Do(s, step), key)
    ensures Next(Do(s, step), key) == Next(s, key) + if Advances(s, step, key) then 1 else 0
    ensures HubOf(Do(s, step), key) >= HubOf(s, key)
  {
    hide InvLast, InvQueue, InvTurns, CleanUp;
  }

  lemma StaysInStep(states: seq<State>, steps: seq<Step>, a: nat, b: nat, i: nat, key: Key)
    requires SteadyBetween(states, steps, a, b, key) && a <= i < b && InStep(states[i], key)
    ensures InStep(states[i + 1], key)
    ensures Next(states[i + 1], key) == Next(states[i], key) + if Advances(states[i], steps[i], key) then 1 else 0
    ensures HubOf(states[i + 1], key) >= HubOf(states[i], key)
  {
    hide Inv, InStep, Next, Advances, HubOf, Do, Enabled;
    RunKeeps(states, steps, i);
    assert Steady(states[i], steps[i], key);
    StepAdvances(states[i], steps[i], key);
  }

  lemma {:induction false} StretchIsInStep(states: seq<State>, steps: seq<Step>, a: nat, b: nat, i: nat, key: Key)
    requires SteadyBetween(states, steps, a, b, key) && a <= i <= b
    ensures InStep(states[i], key)
    decreases i
  {
    hide Run, InStep, Steady, Do, Enabled, Next, HubOf, Advances;
    if a < i {
      StretchIsInStep(states, steps, a, b, i - 1, key);
      StaysInStep(states, steps, a, b, i - 1, key);
    }
  }

  lemma ExpectedMoves(states: seq<State>, steps: seq<Step>, a: nat, b: nat, i: nat, key: Key)
    requires SteadyBetween(states, steps, a, b, key) && a <= i < b
    ensures Next(states[i + 1], key) == Next(states[i], key) + if Advances(states[i], steps[i], key) then 1 else 0
    ensures HubOf(states[i + 1], key) >= HubOf(states[i], key)
  {
    StretchIsInStep(states, steps, a, b, i, key);
    StaysInStep(states, steps, a, b, i, key);
  }

  /** How many sends of that user ended in the steps `a`, ..., `b`-1. */
  ghost function Sent(states: seq<State>, steps: seq<Step>, a: nat, b: nat, key: Key): nat
    requires b <= |steps| && b <= |states|
    decreases b
  {
    if b <= a then 0 else Sent(states, steps, a, b - 1, key) + if Advances(states[b - 1], steps[b - 1], key) then 1 else 0
  }

  /** In a steady stretch, what is expected of a user rises by exactly his sends that ended in it. */
  lemma {:induction false} ExpectedCountsSends(states: seq<State>, steps: seq<Step>, a: nat, b: nat, i: nat, j: nat, key: Key)
    requires SteadyBetween(states, steps, a, b, key) && a <= i <= j <= b
    ensures Next(states[j], key) == Next(states[i], key) + Sent(states, steps, i, j, key)
    ensures HubOf(states[j], key) >= HubOf(states[i], key)
    decreases j
  {
    hide Next, HubOf, Advances, Steady, Enabled, Do, InStep;
    if i < j {
      ExpectedCountsSends(states, steps, a, b, i, j - 1, key);
      ExpectedMoves(states, steps, a, b, j - 1, key);
    }
  }

  /** None of his sends ended in those steps. */
  ghost predicate NothingSent(states: seq<State>, steps: seq<Step>, a: nat, b: nat, key: Key)
    requires b <= |steps| && b <= |states|
  {
    forall j | a <= j < b :: !Advances(states[j], steps[j], key)
  }

  lemma {:induction false} NothingSentIff(states: seq<State>, steps: seq<Step>, a: nat, b: nat, key: Key)
    requires b <= |steps| && b <= |states|
    ensures Sent(states, steps, a, b, key) == 0 <==> NothingSent(states, steps, a, b, key)
    decreases b
  {
    if a < b { NothingSentIff(states, steps, a, b - 1, key); }
  }

  // ---------------------------------------------------------------- what a request is told

  /** A request looks for the chain in step `looked`. If it finds none it asks the hub, and hears it in `answered`. */
  datatype Reading = Reading(t: Ticket, looked: nat, answered: nat)

  ghost predicate Answered(states: seq<State>, steps: seq<Step>, r: Reading, key: Key) {
    && |states| == |steps| + 1 && r.looked <= r.answered < |steps|
    && steps[r.looked] == Read(r.t) && r.t in states[r.looked].requests && states[r.looked].requests[r.t].key == key
    && if key in states[r.looked].chains then r.answered == r.looked else r.looked < r.answered && steps[r.answered] == HearHub(r.t)
  }

  /** How far the hub moved while it was being asked. */
  function Rise(states: seq<State>, r: Reading, key: Key): int
    requires r.looked < |states| && r.answered < |states|
  {
    HubOf(states[r.answered], key) - HubOf(states[r.looked], key)
  }

  /** The number that request got. */
  function HandedOut(states: seq<State>, r: Reading): nat
    requires r.answered + 1 < |states| && HasNumber(states[r.answered + 1], r.t)
  {
    NumberOf(states[r.answered + 1], r.t)
  }

  /** How far a request got. */
  function Stage(pc: Pc): nat {
    match pc
    case Queued => 0
    case Reading => 1
    case Asking => 2
    case Holding(_) => 3
    case Opened(_) => 4
    case Failed => 5
  }

  lemma {:induction false} StageOnlyRises(states: seq<State>, steps: seq<Step>, i: nat, j: nat, t: Ticket)
    requires Run(states, steps) && i <= j < |states| && t in states[i].requests
    ensures t in states[j].requests && states[j].requests[t].key == states[i].requests[t].key
    ensures Stage(states[j].requests[t].pc) >= Stage(states[i].requests[t].pc)
    decreases j - i
  {
    hide Do, Enabled, Stage;
    if i < j {
      StageOnlyRises(states, steps, i, j - 1, t);
      StageStep(states[j - 1], steps[j - 1], t);
    }
  }

  lemma StageStep(s: State, step: Step, t: Ticket)
    requires Enabled(s, step) && t in s.requests
    ensures t in Do(s, step).requests && Do(s, step).requests[t].key == s.requests[t].key
    ensures Stage(Do(s, step).requests[t].pc) >= Stage(s.requests[t].pc)
  {
  }

  /** What a request is told: what was expected when it looked, and as much more as the hub moved while it was asked. */
  lemma AnswerIs(states: seq<State>, steps: seq<Step>, r: Reading, key: Key)
    requires Run(states, steps) && Answered(states, steps, r, key)
    ensures HasNumber(states[r.answered + 1], r.t) && states[r.answered + 1].requests[r.t].key == key
    ensures HandedOut(states, r) == Next(states[r.looked], key) + Rise(states, r, key)
  {
    StageOnlyRises(states, steps, r.looked, r.answered, r.t);
    assert Enabled(states[r.answered], steps[r.answered]);
  }

  // ---------------------------------------------------------------- when a number is repeated

  /** Of two requests of a user, the one that looks later gets a number that is higher by his sends that ended between
      the two looks, and by as much as the hub moved while it was asked, less as much as it moved for the other one. So if
      the hub did not move while they asked, it is the same number exactly when none of his sends ended in between. */
  lemma RepeatedIffNothingWasSent(states: seq<State>, steps: seq<Step>, r: Reading, q: Reading, key: Key)
    requires Answered(states, steps, r, key) && Answered(states, steps, q, key) && r.looked < q.looked
    requires SteadyBetween(states, steps, r.looked, q.looked, key)
    ensures HasNumber(states[r.answered + 1], r.t) && HasNumber(states[q.answered + 1], q.t)
    ensures HandedOut(states, q) - HandedOut(states, r)
         == Sent(states, steps, r.looked, q.looked, key) + Rise(states, q, key) - Rise(states, r, key)
    ensures Rise(states, r, key) == Rise(states, q, key) ==>
      (HandedOut(states, q) == HandedOut(states, r) <==> NothingSent(states, steps, r.looked, q.looked, key))
  {
    AnswerIs(states, steps, r, key);
    AnswerIs(states, steps, q, key);
    ExpectedCountsSends(states, steps, r.looked, q.looked, r.looked, q.looked, key);
    NothingSentIff(states, steps, r.looked, q.looked, key);
  }

  /** A send that closed ticket `t` has not advanced the expected nonce yet. */
  ghost predicate ClosedBySend(s: State, i: nat, t: Ticket, key: Key) {
    i in s.sends && s.sends[i].key == key && s.sends[i].phase == Reserving(Some(t))
  }

  /** The ticket is open, or the send that closed it has not advanced yet. */
  ghost predicate StillDue(s: State, t: Ticket, key: Key) {
    t in s.closed ==> exists i <- s.sends :: ClosedBySend(s, i, t, key)
  }

  /** Only by advancing does a send that looked up the ticket end. */
  lemma ReservingStays(s: State, step: Step, i: nat, key: Key)
    requires Enabled(s, step) && i in s.sends && s.sends[i].key == key && s.sends[i].phase.Reserving?
    requires !Advances(s, step, key)
    ensures i in Do(s, step).sends && Do(s, step).sends[i] == s.sends[i]
  {
    match step
    case Abort(j) => assert j != i;
    case Advance(j) => assert j != i;
    case _ =>
  }

  lemma StepKeepsDue(s: State, step: Step, t: Ticket, key: Key)
    requires Inv(s) && Enabled(s, step) && HasNumber(s, t) && s.requests[t].key == key && StillDue(s, t, key)
    requires step != Expire(t) && !step.NoteAtOnce? && !Advances(s, step, key)
    ensures var s' := Do(s, step);
      HasNumber(s', t) && s'.requests[t].key == key && NumberOf(s', t) == NumberOf(s, t) && StillDue(s', t, key)
  {
    hide InvLast, InvQueue, InvTurns;
    var s' := Do(s, step);
    if t in s'.closed {
      if t in s.closed {
        var i :| i in s.sends && ClosedBySend(s, i, t, key);
        ReservingStays(s, step, i, key);
        assert ClosedBySend(s', i, t, key);
      } else {
        assert step.CloseFound? && ClosedBySend(s', step.send, t, key);
      }
    }
  }

  /** In those steps the ticket does not expire, and no send is noted at once. */
  ghost predicate InTwoSteps(steps: seq<Step>, a: nat, b: nat, t: Ticket)
    requires b <= |steps|
  {
    forall j | a <= j < b :: steps[j] != Expire(t) && !steps[j].NoteAtOnce?
  }

  lemma {:induction false} StaysDue(states: seq<State>, steps: seq<Step>, a: nat, b: nat, t: Ticket, key: Key)
    requires Run(states, steps) && a <= b < |states|
    requires HasNumber(states[a], t) && states[a].requests[t].key == key && StillDue(states[a], t, key)
    requires InTwoSteps(steps, a, b, t) && NothingSent(states, steps, a, b, key)
    ensures HasNumber(states[b], t) && states[b].requests[t].key == key
    ensures NumberOf(states[b], t) == NumberOf(states[a], t) && StillDue(states[b], t, key)
    decreases b
  {
    hide Inv, StillDue, Advances, Do, Enabled, HasNumber;
    if a < b {
      StaysDue(states, steps, a, b - 1, t, key);
      RunKeeps(states, steps, b - 1);
      StepKeepsDue(states[b - 1], steps[b - 1], t, key);
    }
  }

  /** Whoever looks later for a user comes behind in his queue: the earlier one has its answer, and its ticket is closed. */
  lemma EarlierIsServed(states: seq<State>, steps: seq<Step>, r: Reading, q: Reading, key: Key)
    requires Run(states, steps) && Answered(states, steps, r, key) && Answered(states, steps, q, key) && r.looked < q.looked
    ensures r.answered < q.looked && r.t in states[q.looked].closed
  {
    hide Inv;
    RunKeeps(states, steps, r.looked);
    RunKeeps(states, steps, q.looked);
    assert Enabled(states[r.looked], steps[r.looked]) && Enabled(states[q.looked], steps[q.looked]);
    assert Enabled(states[r.answered], steps[r.answered]);
    ReadOnce(states, steps, r, q, key);
    ClosedIsAnswered(states[q.looked], r.t, q.t);
    if r.answered >= q.looked {
      StageOnlyRises(states, steps, q.looked, r.answered, r.t);
    }
  }

  /** Two requests of one user are in the queue in the order in which they look. */
  lemma ReadOnce(states: seq<State>, steps: seq<Step>, r: Reading, q: Reading, key: Key)
    requires Run(states, steps) && Answered(states, steps, r, key) && Answered(states, steps, q, key) && r.looked < q.looked
    requires Inv(states[r.looked])
    ensures r.t < q.t && r.t in states[q.looked].requests && states[q.looked].requests[r.t].key == key
  {
    assert Enabled(states[r.looked], steps[r.looked]) && Enabled(states[q.looked], steps[q.looked]);
    StageOnlyRises(states, steps, r.looked + 1, q.looked, r.t);
    StageOnlyRises(states, steps, r.looked, q.looked, r.t);
    assert r.t != q.t;
    if q.t in states[r.looked].requests && q.t < r.t {
      StageOnlyRises(states, steps, r.looked, q.looked, q.t);
      ClosedIsAnswered(states[r.looked], q.t, r.t);
    } else if q.t !in states[r.looked].requests {
      LaterTicketsAreHigher(states, steps, r.looked, q.looked, q.t);
      RequestsAreBelow(states[r.looked], r.t);
    }
  }

  lemma RequestsAreBelow(s: State, t: Ticket)
    requires Inv(s) && t in s.requests
    ensures t < s.nextId
  {
  }

  lemma {:induction false} LaterTicketsAreHigher(states: seq<State>, steps: seq<Step>, i: nat, j: nat, t: Ticket)
    requires Run(states, steps) && i <= j < |states| && t !in states[i].requests
    ensures states[i].nextId <= states[j].nextId && (t in states[j].requests ==> states[i].nextId <= t)
    decreases j - i
  {
    hide Do, Enabled;
    if i < j {
      LaterTicketsAreHigher(states, steps, i, j - 1, t);
      NewTicketIsNext(states[j - 1], steps[j - 1], t);
    }
  }

  lemma NewTicketIsNext(s: State, step: Step, t: Ticket)
    requires Enabled(s, step)
    ensures s.nextId <= Do(s, step).nextId && (t in Do(s, step).requests && t !in s.requests ==> t == s.nextId)
  {
  }

  /** Before a request looks, every earlier one of its user has its answer and its ticket closed. */
  lemma ClosedIsAnswered(s: State, t: Ticket, u: Ticket)
    requires Inv(s) && t in s.requests && u in s.requests && s.requests[t].key == s.requests[u].key && t < u
    requires !s.requests[u].pc.Queued?
    ensures t in s.closed && Stage(s.requests[t].pc) >= 4
  {
    AnsweredInTurn(s, u);
  }

  /** Without expiry, exactly when a number is repeated: the hub did not move while the later request asked it, and that
      request looked while the very send that carries the number had closed its ticket and had not advanced the expected
      nonce yet. */
  lemma RepeatedIffReadWithinNoteSent(states: seq<State>, steps: seq<Step>, r: Reading, q: Reading, key: Key)
    requires Answered(states, steps, r, key) && Answered(states, steps, q, key) && r.looked < q.looked
    requires SteadyBetween(states, steps, r.looked, q.answered, key)
    requires InTwoSteps(steps, r.answered + 1, q.looked, r.t)
    ensures HasNumber(states[r.answered + 1], r.t) && HasNumber(states[q.answered + 1], q.t)
    ensures HandedOut(states, q) == HandedOut(states, r)
            <==> Rise(states, q, key) == 0 && ClosedByItsSend(states[q.looked], r.t, HandedOut(states, r), key)
  {
    AnswerIs(states, steps, r, key);
    AnswerIs(states, steps, q, key);
    hide Steady, Do, Enabled;
    EarlierIsServed(states, steps, r, q, key);
    StretchIsInStep(states, steps, r.looked, q.answered, q.looked, key);
    if HandedOut(states, q) == HandedOut(states, r) { RepeatedIsWithin(states, steps, r, q, key); }
    hide Run, Answered, SteadyBetween, Next, Rise, HasNumber, NumberOf;
  }

  /** The send that carries that number has closed the ticket it was given for, and has not advanced the expected nonce. */
  ghost predicate ClosedByItsSend(s: State, t: Ticket, number: nat, key: Key) {
    exists i <- s.sends :: ClosedBySend(s, i, t, key) && s.sends[i].nonce == number
  }

  lemma RepeatedIsWithin(states: seq<State>, steps: seq<Step>, r: Reading, q: Reading, key: Key)
    requires Answered(states, steps, r, key) && Answered(states, steps, q, key) && r.looked <= r.answered < q.looked
    requires SteadyBetween(states, steps, r.looked, q.answered, key)
    requires InTwoSteps(steps, r.answered + 1, q.looked, r.t)
    requires HasNumber(states[r.answered + 1], r.t) && states[r.answered + 1].requests[r.t].key == key && HasNumber(states[q.answered + 1], q.t)
    requires HandedOut(states, q) == HandedOut(states, r) && r.t in states[q.looked].closed && InStep(states[q.looked], key)
    ensures Rise(states, q, key) == 0 && ClosedByItsSend(states[q.looked], r.t, HandedOut(states, r), key)
  {
    hide *;
    NothingInBetween(states, steps, r, q, key);
    SendIsStillThere(states, steps, r, q, key);
  }

  lemma SendIsStillThere(states: seq<State>, steps: seq<Step>, r: Reading, q: Reading, key: Key)
    requires Answered(states, steps, r, key) && Answered(states, steps, q, key) && r.looked <= r.answered < q.looked
    requires SteadyBetween(states, steps, r.looked, q.answered, key)
    requires HasNumber(states[r.answered + 1], r.t) && states[r.answered + 1].requests[r.t].key == key
    requires r.t in states[q.looked].closed && InStep(states[q.looked], key)
    requires InTwoSteps(steps, r.answered + 1, q.looked, r.t) && NothingSent(states, steps, r.answered + 1, q.looked, key)
    ensures ClosedByItsSend(states[q.looked], r.t, Next(states[q.looked], key), key)
  {
    OpenOnceAnswered(states, steps, r, key);
    StaysDue(states, steps, r.answered + 1, q.looked, r.t, key);
    hide Run, Answered, HasNumber, Next, HubOf;
    var i :| i in states[q.looked].sends && ClosedBySend(states[q.looked], i, r.t, key);
    assert states[q.looked].sends[i].nonce == Next(states[q.looked], key);
  }

  lemma NothingInBetween(states: seq<State>, steps: seq<Step>, r: Reading, q: Reading, key: Key)
    requires Answered(states, steps, r, key) && Answered(states, steps, q, key) && r.looked <= r.answered < q.looked
    requires SteadyBetween(states, steps, r.looked, q.answered, key)
    requires HasNumber(states[r.answered + 1], r.t) && HasNumber(states[q.answered + 1], q.t)
    requires HandedOut(states, q) == HandedOut(states, r)
    ensures Rise(states, q, key) == 0 && Next(states[q.looked], key) == HandedOut(states, r)
    ensures NothingSent(states, steps, r.answered + 1, q.looked, key)
  {
    hide InStep, Steady, Next, HubOf, Advances, Do, Enabled, Rise, NumberOf, HasNumber;
    AnswerIs(states, steps, q, key);
    HubDoesNotFall(states, steps, r, q, key);
    AtMostExpected(states, steps, r, q.answered, key);
    ExpectedCountsSends(states, steps, r.looked, q.answered, r.answered + 1, q.looked, key);
    NothingSentIff(states, steps, r.answered + 1, q.looked, key);
    hide *;
  }

  lemma HubDoesNotFall(states: seq<State>, steps: seq<Step>, r: Reading, q: Reading, key: Key)
    requires Answered(states, steps, q, key) && r.looked <= q.looked && SteadyBetween(states, steps, r.looked, q.answered, key)
    ensures Rise(states, q, key) >= 0
  {
    ExpectedCountsSends(states, steps, r.looked, q.answered, q.looked, q.answered, key);
  }

  /** Nobody is told more than is expected by the time he is told. */
  lemma AtMostExpected(states: seq<State>, steps: seq<Step>, r: Reading, b: nat, key: Key)
    requires Answered(states, steps, r, key) && r.answered < b && SteadyBetween(states, steps, r.looked, b, key)
    requires HasNumber(states[r.answered + 1], r.t)
    ensures HandedOut(states, r) <= Next(states[r.answered + 1], key)
  {
    AnswerIs(states, steps, r, key);
    ExpectedMoves(states, steps, r.looked, b, r.answered, key);
    StretchIsInStep(states, steps, r.looked, b, r.answered, key);
  }

  lemma OpenOnceAnswered(states: seq<State>, steps: seq<Step>, r: Reading, key: Key)
    requires Run(states, steps) && Answered(states, steps, r, key)
    ensures r.t !in states[r.answered + 1].closed
  {
    RunKeeps(states, steps, r.answered);
    assert Enabled(states[r.answered], steps[r.answered]);
  }

  // ---------------------------------------------------------------- a run in which it happens

  /** No ticket expires, no read fails, no send fails, no chain is replaced and the hub does not move. */
  predicate Smooth(step: Step) {
    !step.Expire? && !step.FailToRead? && !step.Abort? && !step.Drop? && !step.HubMoves? && !step.NoteAtOnce?
  }

  /** A run of smooth steps that ends in that state. */
  ghost predicate LeadsTo(states: seq<State>, steps: seq<Step>, s: State) {
    Run(states, steps) && states[|steps|] == s && forall j | 0 <= j < |steps| :: Smooth(steps[j])
  }

  lemma Then(states: seq<State>, steps: seq<Step>, s: State, step: Step) returns (states': seq<State>, steps': seq<Step>)
    requires LeadsTo(states, steps, s) && Enabled(s, step) && Smooth(step)
    ensures LeadsTo(states', steps', Do(s, step))
  {
    states', steps' := states + [Do(s, step)], steps + [step];
  }

  /** One user: his first number is out, perhaps another request waits behind it, and perhaps a send is on its way. */
  function OneUser(second: bool, closed: set<Ticket>, sends: map<nat, Handout.Send>): State {
    State(Desk(map["user" := if second then 1 else 0], map["user" := 0]),
          if second then map[0 := Request("user", None, Opened(0)), 1 := Request("user", Some(0), Queued)]
          else map[0 := Request("user", None, Opened(0))],
          if second then 2 else 1, closed, sends, map[], map[])
  }

  lemma FirstIsServed() returns (states: seq<State>, steps: seq<Step>)
    ensures LeadsTo(states, steps, OneUser(false, {}, map[]))
  {
    states, steps := [Init(map[])], [];
    assert LeadsTo(states, steps, Init(map[]));
    hide LeadsTo;
    var s := Init(map[]);
    states, steps := Then(states, steps, s, Join("user"));
    s := Do(s, Join("user"));
    states, steps := Then(states, steps, s, Pass(0));
    s := Do(s, Pass(0));
    states, steps := Then(states, steps, s, Read(0));
    s := Do(s, Read(0));
    states, steps := Then(states, steps, s, HearHub(0));
    s := Do(s, HearHub(0));
    states, steps := Then(states, steps, s, Display(0));
    s := Do(s, Display(0));
    assert s.requests == map[0 := Request("user", None, Opened(0))];
    assert s == OneUser(false, {}, map[]);
  }

  lemma SecondWaits() returns (states: seq<State>, steps: seq<Step>)
    ensures LeadsTo(states, steps, OneUser(true, {}, map[0 := Handout.Send("user", 0, Compared)]))
  {
    states, steps := FirstIsServed();
    hide LeadsTo;
    var s := OneUser(false, {}, map[]);
    states, steps := Then(states, steps, s, Join("user"));
    assert Do(s, Join("user")) == OneUser(true, {}, map[]);
    s := OneUser(true, {}, map[]);
    states, steps := Then(states, steps, s, Compare(0, "user"));
    assert Do(s, Compare(0, "user")) == OneUser(true, {}, map[0 := Handout.Send("user", 0, Compared)]);
  }

  lemma TicketIsClosed() returns (states: seq<State>, steps: seq<Step>)
    ensures LeadsTo(states, steps, OneUser(true, {0}, map[0 := Handout.Send("user", 0, Reserving(Some(0)))]))
  {
    states, steps := SecondWaits();
    hide LeadsTo;
    var s := OneUser(true, {}, map[0 := Handout.Send("user", 0, Compared)]);
    states, steps := Then(states, steps, s, LookUp(0));
    assert Do(s, LookUp(0)) == OneUser(true, {}, map[0 := Handout.Send("user", 0, Closing(0))]);
    s := OneUser(true, {}, map[0 := Handout.Send("user", 0, Closing(0))]);
    states, steps := Then(states, steps, s, CloseFound(0));
    assert Do(s, CloseFound(0)) == OneUser(true, {0}, map[0 := Handout.Send("user", 0, Reserving(Some(0)))]);
  }

  /** As it is, a send closes the ticket first: two requests can be given the same number although no ticket
      expired, nothing failed and no chain was replaced. */
  lemma TwoRequestsOneNumber() returns (states: seq<State>, steps: seq<Step>, s: State)
    ensures LeadsTo(states, steps, s)
    ensures HasNumber(s, 0) && HasNumber(s, 1) && s.requests[0].key == s.requests[1].key && NumberOf(s, 0) == NumberOf(s, 1)
  {
    states, steps := TicketIsClosed();
    s := OneUser(true, {0}, map[0 := Handout.Send("user", 0, Reserving(Some(0)))]);
    hide LeadsTo;
    states, steps := Then(states, steps, s, Pass(1));
    s := Do(s, Pass(1));
    states, steps := Then(states, steps, s, Read(1));
    s := Do(s, Read(1));
    states, steps := Then(states, steps, s, HearHub(1));
    s := Do(s, HearHub(1));
  }

  // ---------------------------------------------------------------- if noting were one step

  /** No ticket of that user expires, what is expected of him does not move by itself, and his sends close the ticket and
      advance it in one step. */
  predicate AtOnce(s: State, step: Step, key: Key) {
    && Steady(s, step, key)
    && (step.Expire? ==> step.t in s.requests && s.requests[step.t].key != key)
    && (step.LookUp? ==> step.send in s.sends && s.sends[step.send].key != key)
  }

  predicate Mine(s: State, t: Ticket, key: Key) { t in s.requests && s.requests[t].key == key && HasNumber(s, t) }

  /** No number is beyond what is expected, and those of closed tickets were used; whoever asks the hub will be told
      more than anybody was. */
  ghost predicate Used(s: State, key: Key) {
    && (forall i <- s.sends | s.sends[i].key == key :: s.sends[i].phase.Compared?)
    && (forall t | Mine(s, t, key) :: NumberOf(s, t) <= Next(s, key) && (t in s.closed ==> NumberOf(s, t) < Next(s, key)))
    && (forall t, u | Mine(s, t, key) && At(s, u, Asking) && s.requests[u].key == key :: NumberOf(s, t) < HubOf(s, key))
  }

  /** Numbers grow along the queue. */
  ghost predicate Growing(s: State, key: Key) {
    forall t: Ticket, u: Ticket | t < u && Mine(s, t, key) && Mine(s, u, key) :: NumberOf(s, t) < NumberOf(s, u)
  }

  /** While a request looks or asks, everybody before it is served and closed, and nobody behind it has a number. */
  lemma AloneInTheFront(s: State, t: Ticket)
    requires Inv(s) && t in s.requests && (s.requests[t].pc.Reading? || s.requests[t].pc.Asking?)
    ensures t !in s.closed
    ensures forall u: Ticket | Mine(s, u, s.requests[t].key) :: u < t && u in s.closed
    ensures forall u <- s.requests | u != t && s.requests[u].key == s.requests[t].key && !s.requests[u].pc.Queued? :: u in s.closed
  {
    forall u <- s.requests | u != t && s.requests[u].key == s.requests[t].key && !s.requests[u].pc.Queued? ensures u < t && u in s.closed {
      if u < t { ClosedIsAnswered(s, u, t); } else { ClosedIsAnswered(s, t, u); }
    }
  }

  lemma LookingUses(s: State, t: Ticket, key: Key)
    requires Inv(s) && InStep(s, key) && Used(s, key) && Growing(s, key) && Enabled(s, Read(t)) && s.requests[t].key == key
    ensures Used(Do(s, Read(t)), key) && Growing(Do(s, Read(t)), key)
  {
    hide Inv;
    AloneInTheFront(s, t);
    OthersDoNotAsk(s, t);
    LookingTells(s, t, key);
    if key in s.chains { FoundIsHighest(s, Do(s, Read(t)), t, key); } else { AskerIsHighest(s, Do(s, Read(t)), t, key); }
  }

  lemma LookingTells(s: State, t: Ticket, key: Key)
    requires Enabled(s, Read(t)) && s.requests[t].key == key
    requires forall u | At(s, u, Asking) && s.requests[u].key == key :: u == t
    ensures var s' := Do(s, Read(t));
      && (key in s.chains ==> Mine(s', t, key) && NumberOf(s', t) == Next(s, key))
      && (key !in s.chains ==> !Mine(s', t, key) && At(s', t, Asking))
      && (forall u | Mine(s', u, key) && u != t :: Mine(s, u, key) && NumberOf(s', u) == NumberOf(s, u))
      && (forall u | At(s', u, Asking) && s'.requests[u].key == key :: u == t && key !in s.chains)
  {
  }

  lemma FoundIsHighest(s: State, s': State, t: Ticket, key: Key)
    requires Used(s, key) && Growing(s, key) && t !in s.closed
    requires s'.sends == s.sends && s'.chains == s.chains && s'.hub == s.hub && s'.closed == s.closed
    requires Mine(s', t, key) && NumberOf(s', t) == Next(s, key)
    requires forall u | Mine(s', u, key) && u != t :: Mine(s, u, key) && NumberOf(s', u) == NumberOf(s, u)
    requires forall u: Ticket | Mine(s, u, key) :: u < t && u in s.closed
    requires forall u | At(s', u, Asking) :: s'.requests[u].key != key
    ensures Used(s', key) && Growing(s', key)
  {
    assert Next(s', key) == Next(s, key);
    hide Mine, NumberOf, Next, HubOf;
  }

  lemma AskerIsHighest(s: State, s': State, t: Ticket, key: Key)
    requires Used(s, key) && Growing(s, key) && key !in s.chains
    requires s'.sends == s.sends && s'.chains == s.chains && s'.hub == s.hub && s'.closed == s.closed
    requires !Mine(s', t, key)
    requires forall u | Mine(s', u, key) && u != t :: Mine(s, u, key) && NumberOf(s', u) == NumberOf(s, u)
    requires forall u: Ticket | Mine(s, u, key) :: u in s.closed
    ensures Used(s', key) && Growing(s', key)
  {
    assert Next(s', key) == Next(s, key) == HubOf(s', key);
    hide Mine, NumberOf, Next, HubOf;
  }

  lemma HearingUses(s: State, t: Ticket, key: Key)
    requires Inv(s) && InStep(s, key) && Used(s, key) && Growing(s, key) && Enabled(s, HearHub(t)) && s.requests[t].key == key
    ensures Used(Do(s, HearHub(t)), key) && Growing(Do(s, HearHub(t)), key)
  {
    AloneInTheFront(s, t);
    OthersDoNotAsk(s, t);
    hide Inv;
    NumberIsHeard(s, t, key);
    HeardIsHighest(s, Do(s, HearHub(t)), t, key);
  }

  lemma NumberIsHeard(s: State, t: Ticket, key: Key)
    requires Enabled(s, HearHub(t)) && s.requests[t].key == key
    ensures var s' := Do(s, HearHub(t));
      && Mine(s', t, key) && NumberOf(s', t) == HubOf(s, key)
      && (forall u | Mine(s', u, key) && u != t :: Mine(s, u, key) && NumberOf(s', u) == NumberOf(s, u))
      && (forall u | At(s', u, Asking) && s'.requests[u].key == key :: u != t && At(s, u, Asking) && s.requests[u].key == key)
  {
  }

  lemma HeardIsHighest(s: State, s': State, t: Ticket, key: Key)
    requires InStep(s, key) && Used(s, key) && Growing(s, key) && At(s, t, Asking) && s.requests[t].key == key && t !in s.closed
    requires s'.sends == s.sends && s'.chains == s.chains && s'.hub == s.hub && s'.closed == s.closed
    requires Mine(s', t, key) && NumberOf(s', t) == HubOf(s, key)
    requires forall u | Mine(s', u, key) && u != t :: Mine(s, u, key) && NumberOf(s', u) == NumberOf(s, u)
    requires forall u: Ticket | Mine(s, u, key) :: u < t
    requires forall u | At(s', u, Asking) :: s'.requests[u].key != key
    ensures Used(s', key) && Growing(s', key)
  {
    assert Next(s', key) == Next(s, key) && HubOf(s', key) == HubOf(s, key);
    hide Mine, NumberOf, Next, HubOf;
  }

  lemma OthersDoNotAsk(s: State, t: Ticket)
    requires Inv(s) && t in s.requests && (s.requests[t].pc.Reading? || s.requests[t].pc.Asking?)
    ensures forall u | At(s, u, Asking) && s.requests[u].key == s.requests[t].key :: u == t
  {
    AloneInTheFront(s, t);
    hide InvLast, InvQueue, InvDisplay;
  }

  lemma NotingUses(s: State, i: nat, key: Key)
    requires Inv(s) && InStep(s, key) && Used(s, key) && Growing(s, key) && Enabled(s, NoteAtOnce(i)) && s.sends[i].key == key
    ensures Used(Do(s, NoteAtOnce(i)), key) && Growing(Do(s, NoteAtOnce(i)), key)
  {
    hide InvQueue, InvLast, InvTurns;
    var s' := Do(s, NoteAtOnce(i));
    assert forall u | Mine(s', u, key) :: Mine(s, u, key) && NumberOf(s', u) == NumberOf(s, u);
  }

  /** Nobody of that user got a number or started to ask, and no numbered ticket of his was closed. */
  ghost predicate SameNumbers(s: State, s': State, key: Key) {
    && (forall t | Mine(s', t, key) :: Mine(s, t, key) && NumberOf(s', t) == NumberOf(s, t) && (t in s'.closed ==> t in s.closed))
    && (forall t | At(s', t, Asking) && s'.requests[t].key == key :: At(s, t, Asking) && s.requests[t].key == key)
    && Next(s', key) == Next(s, key) && HubOf(s', key) >= HubOf(s, key)
    && (forall i <- s'.sends | s'.sends[i].key == key :: s'.sends[i].phase.Compared?)
  }

  lemma SameNumbersUse(s: State, s': State, key: Key)
    requires Used(s, key) && Growing(s, key) && SameNumbers(s, s', key)
    ensures Used(s', key) && Growing(s', key)
  {
  }

  /** The step tells nobody of that user his number. */
  predicate Quiet(s: State, step: Step, key: Key) {
    && !Advances(s, step, key)
    && (step.Read? || step.HearHub? ==> step.t in s.requests && s.requests[step.t].key != key)
  }

  lemma KeepsTicketNumbers(s: State, step: Step, key: Key)
    requires Inv(s) && Used(s, key) && Enabled(s, step) && AtOnce(s, step, key) && Quiet(s, step, key)
    ensures var s' := Do(s, step);
      forall t | Mine(s', t, key) :: Mine(s, t, key) && NumberOf(s', t) == NumberOf(s, t) && (t in s'.closed ==> t in s.closed)
  {
    hide InvQueue, InvLast, InvTurns, Reserved, CleanUp;
  }

  lemma KeepsAskers(s: State, step: Step, key: Key)
    requires Enabled(s, step) && Quiet(s, step, key)
    ensures var s' := Do(s, step);
      forall t | At(s', t, Asking) && s'.requests[t].key == key :: At(s, t, Asking) && s.requests[t].key == key
  {
    hide Reserved, CleanUp;
  }

  lemma KeepsSends(s: State, step: Step, key: Key)
    requires Used(s, key) && Enabled(s, step) && AtOnce(s, step, key)
    ensures var s' := Do(s, step); forall i <- s'.sends | s'.sends[i].key == key :: s'.sends[i].phase.Compared?
  {
    hide CleanUp, Reserved;
  }

  lemma KeepsNumbers(s: State, step: Step, key: Key)
    requires Inv(s) && InStep(s, key) && Used(s, key) && Enabled(s, step) && AtOnce(s, step, key) && Quiet(s, step, key)
    ensures SameNumbers(s, Do(s, step), key)
  {
    StepAdvances(s, step, key);
    hide Inv, Used, Do, InStep;
    KeepsTicketNumbers(s, step, key);
    KeepsAskers(s, step, key);
    KeepsSends(s, step, key);
  }

  lemma StepUses(s: State, step: Step, key: Key)
    requires Inv(s) && InStep(s, key) && Used(s, key) && Growing(s, key) && Enabled(s, step) && AtOnce(s, step, key)
    ensures Used(Do(s, step), key) && Growing(Do(s, step), key)
  {
    if step.Read? && s.requests[step.t].key == key {
      LookingUses(s, step.t, key);
    } else if step.HearHub? && s.requests[step.t].key == key {
      HearingUses(s, step.t, key);
    } else if Advances(s, step, key) {
      assert step.NoteAtOnce?;
      hide Inv, Used, Growing, InStep, Do;
      NotingUses(s, step.send, key);
    } else {
      hide Inv, Used, Growing, InStep, SameNumbers, Do;
      KeepsNumbers(s, step, key);
      SameNumbersUse(s, Do(s, step), key);
    }
  }

  ghost predicate AtOnceRun(states: seq<State>, steps: seq<Step>, key: Key) {
    Run(states, steps) && forall j | 0 <= j < |steps| :: AtOnce(states[j], steps[j], key)
  }

  lemma {:induction false} RunUses(states: seq<State>, steps: seq<Step>, i: nat, key: Key)
    requires AtOnceRun(states, steps, key) && i < |states|
    ensures InStep(states[i], key) && Used(states[i], key) && Growing(states[i], key)
  {
    if i > 0 {
      hide Inv, Used, Growing, InStep, Do, Steady;
      RunUses(states, steps, i - 1, key);
      RunKeeps(states, steps, i - 1);
      assert AtOnce(states[i - 1], steps[i - 1], key);
      StepAdvances(states[i - 1], steps[i - 1], key);
      StepUses(states[i - 1], steps[i - 1], key);
    }
  }

  /** If a send closed the ticket and advanced the expected nonce in one step, every hand-out would get its own
      number, growing along the queue, also across chains that are forgotten by grace. */
  lemma DistinctWhenNotedAtOnce(states: seq<State>, steps: seq<Step>, i: nat, t: Ticket, u: Ticket, key: Key)
    requires AtOnceRun(states, steps, key) && i < |states|
    requires t < u && HasNumber(states[i], t) && HasNumber(states[i], u)
    requires states[i].requests[t].key == states[i].requests[u].key == key
    ensures NumberOf(states[i], t) < NumberOf(states[i], u)
  {
    RunUses(states, steps, i, key);
    assert Mine(states[i], t, key) && Mine(states[i], u, key);
  }
}
