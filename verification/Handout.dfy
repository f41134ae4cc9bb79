/** The queue of requests for a nonce: each takes a ticket and waits for the previous one to be closed. The
    critical sections as functions, the state machine of the requests, and the maps themselves. */
module Handout {
  import opened Base

  /** The last ticket of each user's queue, and the ticket whose number is out and waits for its metatx.
      `T` is the identity of a ticket. */
  datatype Desk<T(==)> = Desk(last: map<Key, T>, open: map<Key, T>)

  /** The second half of closeTicket: a closed ticket leaves the maps only where it is the one filed. */
  function CleanUp<T(==)>(d: Desk<T>, key: Key, t: T): Desk<T> {
    Desk(if key in d.last && d.last[key] == t then d.last - {key} else d.last,
         if key in d.open && d.open[key] == t then d.open - {key} else d.open)
  }

  /** It leaves both maps where it is the one filed, and nothing else leaves either of them. */
  lemma CleaningUpMeans<T>(d: Desk<T>, key: Key, t: T)
    ensures var r := CleanUp(d, key, t);
      && (forall k :: k in r.last <==> k in d.last && !(k == key && d.last[k] == t))
      && (forall k <- r.last :: r.last[k] == d.last[k])
      && (forall k :: k in r.open <==> k in d.open && !(k == key && d.open[k] == t))
      && (forall k <- r.open :: r.open[k] == d.open[k])
  {
  }

  // ---------------------------------------------------------------- the requests

  /** Tickets are numbered in the order in which they joined the queues. */
  type Ticket = nat

  /** Where the request of a ticket stands: waiting for the previous one, about to look for the user's chain, asking
      the hub because there was none, with a number in hand, with its ticket on display, or without an answer. */
  datatype Pc = Queued | Reading | Asking | Holding(nonce: nat) | Opened(nonce: nat) | Failed

  datatype Request = Request(key: Key, previous: Option<Ticket>, pc: Pc)

  /** A send of that user that was found in turn, with the nonce it carries: not on the wire yet or about to be noted,
      with the open ticket in hand, or with that ticket closed and the expected nonce not advanced yet. */
  datatype Phase = Compared | Closing(ticket: Ticket) | Reserving(closed: Option<Ticket>)

  datatype Send = Send(key: Key, nonce: nat, phase: Phase)

  /** `chains` is what each user's chain expects, `hub` what the hub reports for those who have none. */
  datatype State = State(
    desk: Desk<Ticket>, requests: map<Ticket, Request>, nextId: Ticket, closed: set<Ticket>,
    sends: map<nat, Send>, chains: map<Key, nat>, hub: map<Key, nat>)

  datatype Step =
    // a request for a nonce
    | Join(key: Key)
    | Pass(t: Ticket)
    | Read(t: Ticket)
    | HearHub(t: Ticket)
    | FailToRead(t: Ticket)
    | Display(t: Ticket)
    | Expire(t: Ticket)
    | Clean(t: Ticket)
    // a send, with the user's lock in hand
    | Compare(send: nat, key: Key)
    | Abort(send: nat)
    | LookUp(send: nat)
    | CloseFound(send: nat)
    | Advance(send: nat)
    // closing the open ticket and advancing the expected nonce in one step, as noteSent does not
    | NoteAtOnce(send: nat)
    // everything else that changes the expected nonce
    | Drop(key: Key)
    | HubMoves(key: Key, nonce: nat)

  /** The service starts with nothing in memory; users may have any history at the hub. */
  function Init(hub: map<Key, nat>): State { State(Desk(map[], map[]), map[], 0, {}, map[], map[], hub) }

  function HubOf(s: State, key: Key): nat { if key in s.hub then s.hub[key] else 0 }

  /** What the service expects of that user. */
  function Next(s: State, key: Key): nat { if key in s.chains then s.chains[key] else HubOf(s, key) }

  predicate At(s: State, t: Ticket, pc: Pc) { t in s.requests && s.requests[t].pc == pc }

  predicate Enabled(s: State, step: Step) {
    match step
    case Join(_) => s.nextId !in s.requests
    case Pass(t) => At(s, t, Queued) && (s.requests[t].previous.Some? ==> s.requests[t].previous.value in s.closed)
    case Read(t) => At(s, t, Reading)
    case HearHub(t) => At(s, t, Asking)
    case FailToRead(t) => At(s, t, Asking)
    case Display(t) => t in s.requests && s.requests[t].pc.Holding?
    case Expire(t) => t in s.requests && s.requests[t].pc.Opened?
    case Compare(i, key) => i !in s.sends && (forall j <- s.sends :: s.sends[j].key != key)
    case Abort(i) => i in s.sends && s.sends[i].phase.Compared?
    case LookUp(i) => i in s.sends && s.sends[i].phase.Compared?
    case CloseFound(i) => i in s.sends && s.sends[i].phase.Closing?
    case Advance(i) => i in s.sends && s.sends[i].phase.Reserving?
    case NoteAtOnce(i) => i in s.sends && s.sends[i].phase.Compared?
    case Clean(t) => t in s.requests && t in s.closed
    case _ => true
  }

  /** reserveLocked: a chain that is ahead stays ahead, a new one starts behind the nonce just used. */
  function Reserved(s: State, send: Send): map<Key, nat> {
    s.chains[send.key := if send.key in s.chains then Max(send.nonce + 1, s.chains[send.key]) else send.nonce + 1]
  }

  function Do(s: State, step: Step): State
    requires Enabled(s, step)
  {
    match step
    case Join(key) =>
      s.(requests := s.requests[s.nextId := Request(key, if key in s.desk.last then Some(s.desk.last[key]) else None, Queued)],
         desk := s.desk.(last := s.desk.last[key := s.nextId]), nextId := s.nextId + 1)
    case Pass(t) => s.(requests := s.requests[t := s.requests[t].(pc := Reading)])
    case Read(t) =>
      var key := s.requests[t].key;
      s.(requests := s.requests[t := s.requests[t].(pc := if key in s.chains then Holding(s.chains[key]) else Asking)])
    case HearHub(t) => s.(requests := s.requests[t := s.requests[t].(pc := Holding(HubOf(s, s.requests[t].key)))])
    case FailToRead(t) => s.(requests := s.requests[t := s.requests[t].(pc := Failed)], closed := s.closed + {t})
    case Display(t) =>
      s.(requests := s.requests[t := s.requests[t].(pc := Opened(s.requests[t].pc.nonce))],
         desk := s.desk.(open := s.desk.open[s.requests[t].key := t]))
    case Expire(t) => s.(closed := s.closed + {t})
    case Clean(t) => s.(desk := CleanUp(s.desk, s.requests[t].key, t))
    case Compare(i, key) => s.(sends := s.sends[i := Send(key, Next(s, key), Compared)])
    case Abort(i) => s.(sends := s.sends - {i}, chains := s.chains - {s.sends[i].key})
    case LookUp(i) =>
      var key := s.sends[i].key;
      s.(sends := s.sends[i := s.sends[i].(phase := if key in s.desk.open then Closing(s.desk.open[key]) else Reserving(None))])
    case CloseFound(i) =>
      var t := s.sends[i].phase.ticket;
      s.(closed := s.closed + {t}, sends := s.sends[i := s.sends[i].(phase := Reserving(Some(t)))])
    case Advance(i) => s.(chains := Reserved(s, s.sends[i]), sends := s.sends - {i})
    case NoteAtOnce(i) =>
      var key := s.sends[i].key;
      s.(chains := Reserved(s, s.sends[i]), sends := s.sends - {i},
         closed := if key in s.desk.open then s.closed + {s.desk.open[key]} else s.closed)
    case Drop(key) => s.(chains := s.chains - {key})
    case HubMoves(key, nonce) => s.(hub := s.hub[key := nonce])
  }

  /** An answer that fails and a window that passes close the ticket of that request, a send closes the one it found on
      display, and no other step closes any. */
  lemma ClosingMeans(s: State, step: Step)
    requires Enabled(s, step) && !step.NoteAtOnce?
    ensures Do(s, step).closed == s.closed +
      if step.FailToRead? || step.Expire? then {step.t} else if step.CloseFound? then {s.sends[step.send].phase.ticket} else {}
  {
  }

  // ---------------------------------------------------------------- invariants

  /** Every ticket of that user taken before `t` is closed. */
  ghost predicate AllBeforeClosed(requests: map<Ticket, Request>, closed: set<Ticket>, key: Key, t: Ticket) {
    forall u <- requests | requests[u].key == key && u < t :: u in closed
  }

  /** The last ticket filed for a user is his newest; a user without one has all his tickets closed. */
  ghost predicate InvLast(desk: Desk<Ticket>, requests: map<Ticket, Request>, closed: set<Ticket>, nextId: Ticket) {
    && (forall t <- requests :: t < nextId)
    && (forall k <- desk.last :: desk.last[k] in requests && requests[desk.last[k]].key == k)
    && (forall t <- requests ::
          if requests[t].key in desk.last then t <= desk.last[requests[t].key] else t in closed)
  }

  /** A request waits for the ticket taken just before its own. */
  ghost predicate InvQueue(requests: map<Ticket, Request>, closed: set<Ticket>) {
    forall t <- requests ::
      match requests[t].previous
      case None => AllBeforeClosed(requests, closed, requests[t].key, t)
      case Some(p) =>
        && p in requests && p < t && requests[p].key == requests[t].key
        && (forall u <- requests | requests[u].key == requests[t].key && u < t :: u <= p)
  }

  /** Only a ticket that was answered is closed, and nobody is answered before all who came earlier are closed. */
  ghost predicate InvTurns(requests: map<Ticket, Request>, closed: set<Ticket>) {
    && (forall t <- closed :: t in requests && (requests[t].pc.Opened? || requests[t].pc.Failed?))
    && (forall t <- requests | !requests[t].pc.Queued? :: AllBeforeClosed(requests, closed, requests[t].key, t))
  }

  /** Only a ticket on display is found by a send of its user, and a user has one send at a time. */
  ghost predicate InvDisplay(desk: Desk<Ticket>, requests: map<Ticket, Request>, sends: map<nat, Send>) {
    && (forall k <- desk.open :: desk.open[k] in requests && requests[desk.open[k]].key == k && requests[desk.open[k]].pc.Opened?)
    && (forall i <- sends | sends[i].phase.Closing? ::
          var t := sends[i].phase.ticket; t in requests && requests[t].key == sends[i].key && requests[t].pc.Opened?)
    && (forall i, j | i in sends && j in sends && sends[i].key == sends[j].key :: i == j)
  }

  ghost predicate Inv(s: State) {
    && InvLast(s.desk, s.requests, s.closed, s.nextId) && InvQueue(s.requests, s.closed)
    && InvTurns(s.requests, s.closed) && InvDisplay(s.desk, s.requests, s.sends)
  }

  lemma JoinKeepsQueue(s: State, key: Key)
    requires Inv(s) && s.nextId !in s.requests
    ensures InvQueue(Do(s, Join(key)).requests, s.closed)
  {
  }

  lemma JoinKeepsLast(s: State, key: Key)
    requires Inv(s) && s.nextId !in s.requests
    ensures var s' := Do(s, Join(key)); InvLast(s'.desk, s'.requests, s'.closed, s'.nextId)
  {
    hide InvQueue, InvTurns, InvDisplay;
  }

  lemma JoinKeepsRest(s: State, key: Key)
    requires Inv(s) && s.nextId !in s.requests
    ensures var s' := Do(s, Join(key)); InvTurns(s'.requests, s'.closed) && InvDisplay(s'.desk, s'.requests, s'.sends)
  {
    hide InvQueue;
  }

  lemma JoinKeeps(s: State, key: Key)
    requires Inv(s) && s.nextId !in s.requests
    ensures Inv(Do(s, Join(key)))
  {
    hide InvLast, InvQueue, InvTurns, InvDisplay;
    JoinKeepsQueue(s, key);
    JoinKeepsLast(s, key);
    JoinKeepsRest(s, key);
  }

  /** What one request does not change about the others. */
  ghost predicate SameTickets(requests: map<Ticket, Request>, requests': map<Ticket, Request>) {
    && requests'.Keys == requests.Keys
    && forall u <- requests :: requests'[u].key == requests[u].key && requests'[u].previous == requests[u].previous
  }

  lemma QueueSurvives(requests: map<Ticket, Request>, closed: set<Ticket>, requests': map<Ticket, Request>, closed': set<Ticket>)
    requires InvQueue(requests, closed) && SameTickets(requests, requests') && closed <= closed'
    ensures InvQueue(requests', closed')
  {
  }

  lemma TurnsSurvive(requests: map<Ticket, Request>, closed: set<Ticket>, t: Ticket, pc: Pc, closed': set<Ticket>)
    requires InvTurns(requests, closed) && t in requests
    requires closed <= closed' <= closed + {t}
    requires t in closed' ==> pc.Opened? || pc.Failed?
    requires AllBeforeClosed(requests, closed, requests[t].key, t)
    ensures InvTurns(requests[t := requests[t].(pc := pc)], closed')
  {
  }

  /** Moving one request along, with its ticket perhaps closed by an answer that failed. */
  lemma MovingKeeps(s: State, t: Ticket, pc: Pc, closed: set<Ticket>)
    requires Inv(s) && t in s.requests
    requires s.closed <= closed <= s.closed + {t}
    requires t in closed ==> pc.Opened? || pc.Failed?
    requires s.requests[t].pc.Opened? ==> pc.Opened?
    requires AllBeforeClosed(s.requests, s.closed, s.requests[t].key, t)
    ensures Inv(s.(requests := s.requests[t := s.requests[t].(pc := pc)], closed := closed))
  {
    hide InvQueue, InvTurns, AllBeforeClosed;
    var requests := s.requests[t := s.requests[t].(pc := pc)];
    QueueSurvives(s.requests, s.closed, requests, closed);
    TurnsSurvive(s.requests, s.closed, t, pc, closed);
  }

  lemma ClosingKeeps(s: State, t: Ticket)
    requires Inv(s) && t in s.requests && s.requests[t].pc.Opened?
    ensures Inv(s.(closed := s.closed + {t}))
  {
  }

  /** Whoever finds the ticket before his own closed has nobody open before him. */
  lemma PassKeeps(s: State, t: Ticket)
    requires Inv(s) && Enabled(s, Pass(t))
    ensures Inv(Do(s, Pass(t)))
  {
    assert AllBeforeClosed(s.requests, s.closed, s.requests[t].key, t) by {
      if s.requests[t].previous.Some? {
        var p := s.requests[t].previous.value;
        assert AllBeforeClosed(s.requests, s.closed, s.requests[p].key, p);
      }
    }
    MovingKeeps(s, t, Reading, s.closed);
  }

  lemma AnsweredInTurn(s: State, t: Ticket)
    requires Inv(s) && t in s.requests && !s.requests[t].pc.Queued?
    ensures AllBeforeClosed(s.requests, s.closed, s.requests[t].key, t)
    ensures t in s.closed ==> s.requests[t].pc.Opened? || s.requests[t].pc.Failed?
  {
    hide AllBeforeClosed;
  }

  lemma OpeningKeeps(s: State, t: Ticket)
    requires Inv(s) && t in s.requests && s.requests[t].pc.Opened?
    ensures Inv(s.(desk := s.desk.(open := s.desk.open[s.requests[t].key := t])))
  {
    hide InvQueue, InvTurns;
  }

  lemma DisplayKeeps(s: State, t: Ticket)
    requires Inv(s) && t in s.requests && s.requests[t].pc.Holding?
    ensures Inv(Do(s, Display(t)))
  {
    hide Inv, AllBeforeClosed;
    var pc := Opened(s.requests[t].pc.nonce);
    AnsweredInTurn(s, t);
    MovingKeeps(s, t, pc, s.closed);
    OpeningKeeps(s.(requests := s.requests[t := s.requests[t].(pc := pc)]), t);
  }

  predicate IsSendStep(step: Step) {
    step.Compare? || step.Abort? || step.LookUp? || step.CloseFound? || step.Advance? || step.NoteAtOnce?
  }

  lemma SendStepKeepsDisplay(s: State, step: Step)
    requires InvDisplay(s.desk, s.requests, s.sends) && Enabled(s, step) && IsSendStep(step)
    ensures InvDisplay(s.desk, s.requests, Do(s, step).sends)
  {
    hide Reserved;
  }

  /** A send closes at most the ticket it found. */
  lemma SendStepCloses(s: State, step: Step)
    requires Inv(s) && Enabled(s, step) && IsSendStep(step)
    ensures var s' := Do(s, step);
      && s'.desk == s.desk && s'.requests == s.requests && s'.nextId == s.nextId
      && Inv(s.(closed := s'.closed))
  {
    hide InvLast, InvQueue, InvTurns, Reserved;
    match step
    case CloseFound(i) => ClosingKeeps(s, s.sends[i].phase.ticket);
    case NoteAtOnce(i) => if s.sends[i].key in s.desk.open { ClosingKeeps(s, s.desk.open[s.sends[i].key]); }
    case _ =>
  }

  lemma SendStepKeeps(s: State, step: Step)
    requires Inv(s) && Enabled(s, step) && IsSendStep(step)
    ensures Inv(Do(s, step))
  {
    hide InvLast, InvQueue, InvTurns, InvDisplay, Do, Enabled;
    SendStepCloses(s, step);
    SendStepKeepsDisplay(s, step);
  }

  lemma CleaningKeeps(s: State, t: Ticket)
    requires Inv(s) && Enabled(s, Clean(t))
    ensures Inv(Do(s, Clean(t)))
  {
    AnsweredInTurn(s, t);
    hide InvQueue, InvTurns;
  }

  lemma StepKeeps(s: State, step: Step)
    requires Inv(s) && Enabled(s, step)
    ensures Inv(Do(s, step))
  {
    if IsSendStep(step) {
      SendStepKeeps(s, step);
    } else {
      RequestStepKeeps(s, step);
    }
  }

  lemma RequestStepKeeps(s: State, step: Step)
    requires Inv(s) && Enabled(s, step) && !IsSendStep(step)
    ensures Inv(Do(s, step))
  {
    match step
    case Join(key) =>
      hide Inv;
      JoinKeeps(s, key);
    case Pass(t) =>
      hide Inv;
      PassKeeps(s, t);
    case Read(t) =>
      AnsweredInTurn(s, t);
      hide Inv, AllBeforeClosed;
      MovingKeeps(s, t, Do(s, Read(t)).requests[t].pc, s.closed);
    case HearHub(t) =>
      AnsweredInTurn(s, t);
      hide Inv, AllBeforeClosed;
      MovingKeeps(s, t, Holding(HubOf(s, s.requests[t].key)), s.closed);
    case FailToRead(t) =>
      AnsweredInTurn(s, t);
      hide Inv, AllBeforeClosed;
      MovingKeeps(s, t, Failed, s.closed + {t});
    case Display(t) =>
      hide Inv;
      DisplayKeeps(s, t);
    case Expire(t) =>
      hide Inv;
      ClosingKeeps(s, t);
    case Clean(t) =>
      hide Inv;
      CleaningKeeps(s, t);
    case _ =>
  }

  ghost predicate Run(states: seq<State>, steps: seq<Step>) {
    && |states| == |steps| + 1
    && states[0] == Init(states[0].hub)
    && (forall i | 0 <= i < |steps| :: Enabled(states[i], steps[i]) && states[i + 1] == Do(states[i], steps[i]))
  }

  lemma {:induction false} RunKeeps(states: seq<State>, steps: seq<Step>, i: nat)
    requires Run(states, steps) && i < |states|
    ensures Inv(states[i])
  {
    if i > 0 {
      hide Inv, Do;
      RunKeeps(states, steps, i - 1);
      StepKeeps(states[i - 1], steps[i - 1]);
    }
  }

  // ---------------------------------------------------------------- what the queue promises

  /** The request has been given a number. */
  predicate HasNumber(s: State, t: Ticket) {
    t in s.requests && (s.requests[t].pc.Holding? || s.requests[t].pc.Opened?)
  }

  function NumberOf(s: State, t: Ticket): nat
    requires HasNumber(s, t)
  {
    s.requests[t].pc.nonce
  }

  /** Per user, numbers are handed out in the order of the queue: a hand-out reads the expected nonce only after
      every earlier ticket was answered and closed, so at most one number is out at a time. */
  lemma HandedOutInOrder(states: seq<State>, steps: seq<Step>, i: nat, t: Ticket, u: Ticket)
    requires Run(states, steps) && i < |states|
    requires t in states[i].requests && u in states[i].requests && states[i].requests[t].key == states[i].requests[u].key
    requires t < u && !states[i].requests[u].pc.Queued?
    ensures t in states[i].closed && (HasNumber(states[i], t) || states[i].requests[t].pc.Failed?)
    ensures HasNumber(states[i], t) ==> states[i].requests[t].pc.Opened?
  {
    RunKeeps(states, steps, i);
    assert AllBeforeClosed(states[i].requests, states[i].closed, states[i].requests[u].key, u);
  }

  /** A request waits only for one that joined before it, and every ticket joined in between is another user's:
      the queue of a user is a line, and waiting in it cannot close a circle. */
  lemma WaitsForTheOneBefore(states: seq<State>, steps: seq<Step>, i: nat, t: Ticket)
    requires Run(states, steps) && i < |states| && t in states[i].requests && states[i].requests[t].previous.Some?
    ensures var s := states[i]; var p := s.requests[t].previous.value;
      p < t && p in s.requests && s.requests[p].key == s.requests[t].key
      && forall u <- s.requests | p < u < t :: s.requests[u].key != s.requests[t].key
  {
    RunKeeps(states, steps, i);
  }

  /** Cleaning up after a ticket, stale or not, leaves every other ticket where it is; and a user whose queue has
      no ticket filed has nobody to wait for. */
  lemma CleaningSparesTheOthers(states: seq<State>, steps: seq<Step>, i: nat)
    requires Run(states, steps) && i < |steps| && steps[i].Clean?
    ensures var d, d' := states[i].desk, states[i + 1].desk;
      && (forall k <- d.last | d.last[k] != steps[i].t :: k in d'.last && d'.last[k] == d.last[k])
      && (forall k <- d.open | d.open[k] != steps[i].t :: k in d'.open && d'.open[k] == d.open[k])
      && (forall u <- states[i].requests | states[i].requests[u].key !in d'.last :: u in states[i].closed)
  {
    RunKeeps(states, steps, i);
    RunKeeps(states, steps, i + 1);
  }

  // ---------------------------------------------------------------- the maps

  /** A number handed out and not used yet. Closing it again does nothing. */
  class HandoutTicket {
    var closed: bool

    constructor ()
      ensures !closed
    {
      closed := false;
    }

    method Close()
      modifies this
      ensures closed
    {
      closed := true;
    }
  }

  class Handouts {
    var handouts: map<Key, HandoutTicket>
    var openTickets: map<Key, HandoutTicket>

    constructor ()
      ensures Tickets() == Desk(map[], map[])
    {
      handouts, openTickets := map[], map[];
    }

    ghost function Tickets(): Desk<HandoutTicket>
      reads this
    {
      Desk(handouts, openTickets)
    }

    /** The request takes its place in the queue of its user: it has to wait until `previous` is closed. */
    method Enqueue(key: Key) returns (previous: Option<HandoutTicket>, mine: HandoutTicket)
      modifies this`handouts
      ensures fresh(mine) && !mine.closed
      ensures previous == if key in old(handouts) then Some(old(handouts)[key]) else None
      ensures Tickets() == old(Tickets()).(last := old(handouts)[key := mine])
    {
      previous := if key in handouts then Some(handouts[key]) else None;
      mine := new HandoutTicket();
      handouts := handouts[key := mine];
    }

    /** The number is known: this is the ticket its metatx will close. */
    method Display(key: Key, mine: HandoutTicket)
      modifies this`openTickets
      ensures Tickets() == old(Tickets()).(open := old(openTickets)[key := mine])
    {
      openTickets := openTickets[key := mine];
    }

    method CloseTicket(key: Key, ticket: HandoutTicket)
      modifies this, ticket
      ensures ticket.closed && Tickets() == CleanUp(old(Tickets()), key, ticket)
    {
      ticket.Close();
      if key in handouts && handouts[key] == ticket {
        handouts := handouts - {key};
      }
      if key in openTickets && openTickets[key] == ticket {
        openTickets := openTickets - {key};
      }
    }

    /** The metatx of the open ticket arrived. */
    method CloseOpenTicket(key: Key)
      modifies this, if key in openTickets then {openTickets[key]} else {}
      ensures key in old(openTickets) ==>
        old(openTickets)[key].closed && Tickets() == CleanUp(old(Tickets()), key, old(openTickets)[key])
      ensures key !in old(openTickets) ==> Tickets() == old(Tickets())
    {
      if key in openTickets {
        CloseTicket(key, openTickets[key]);
      }
    }
  }
}
