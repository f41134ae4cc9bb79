/** Whole runs of the event bus: what each observer is replayed and sent, over every interleaving of publishing,
    subscribing, cancelling and delivering. */
module BusRuns {
  import opened Base
  import opened EventBus

  datatype Setup = Setup(enabled: bool, capacity: nat)

  /** `base` and `end` count the events published when the observer joined and when it was cancelled. `sent` and
      `missed` are history: the positions put in its channel, and those that were not, with how many events the
      channel held at that moment. */
  datatype Observer = Observer(after: nat, base: nat, retained: seq<Event>, delivered: seq<Event>, channel: seq<Event>,
                               live: bool, end: nat, sent: seq<nat>, missed: map<nat, nat>)

  datatype State = State(lines: seq<Line>, observers: seq<Observer>)

  /** Delivering happens on a goroutine of the observer, also after it was cancelled. */
  datatype Action = Publish(line: Line) | Subscribe(after: nat) | Cancel(who: nat) | Deliver(who: nat)

  function Informed(o: Observer, event: Event, position: nat): Observer {
    if !o.live then o
    else
      var full := |o.channel| >= SUBSCRIBER_BUFFER;
      o.(channel := Offered(o.channel, event),
         sent := if full then o.sent else o.sent + [position],
         missed := if full then o.missed[position := |o.channel|] else o.missed)
  }

  function Joined(lines: seq<Line>, after: nat, setup: Setup): Observer {
    var retained := if after != NO_REPLAY then After(Last(History(lines), setup.capacity), after) else [];
    Observer(after, |lines|, retained, [], [], true, 0, [], map[])
  }

  function Cancelled(o: Observer, published: nat): Observer {
    if o.live then o.(live := false, end := published) else o
  }

  function Drained(o: Observer): Observer {
    if o.channel == [] then o else o.(delivered := o.delivered + [o.channel[0]], channel := o.channel[1..])
  }

  function Do(s: State, a: Action, setup: Setup): State {
    match a
    case Publish(line) =>
      if !setup.enabled then s
      else
        var n := |s.lines| + 1;
        State(s.lines + [line],
              seq(|s.observers|, i requires 0 <= i < |s.observers| => Informed(s.observers[i], Event(SeqOf(n), line), n)))
    case Subscribe(after) => s.(observers := s.observers + [Joined(s.lines, after, setup)])
    case Cancel(who) =>
      if who < |s.observers| then s.(observers := s.observers[who := Cancelled(s.observers[who], |s.lines|)]) else s
    case Deliver(who) =>
      if who < |s.observers| then s.(observers := s.observers[who := Drained(s.observers[who])]) else s
  }

  function Run(actions: seq<Action>, setup: Setup): State {
    if actions == [] then State([], []) else Do(Run(actions[..|actions| - 1], setup), actions[|actions| - 1], setup)
  }

  // ---------------------------------------------------------------- what every observer keeps

  function Until(o: Observer, lines: seq<Line>): nat { if o.live then |lines| else o.end }

  ghost predicate Increasing(s: seq<nat>) { forall i, j | 0 <= i < j < |s| :: s[i] < s[j] }

  ghost predicate Within(s: seq<nat>, low: nat, high: nat) { forall p <- s :: low < p <= high }

  /** The events at those positions of the history. */
  function Picked(lines: seq<Line>, positions: seq<nat>): (r: seq<Event>)
    requires Within(positions, 0, |lines|)
    ensures |r| == |positions|
  {
    seq(|positions|, i requires 0 <= i < |positions| =>
      assert positions[i] in positions; Event(SeqOf(positions[i]), lines[positions[i] - 1]))
  }

  ghost predicate Window(o: Observer, lines: seq<Line>) {
    && o.base <= Until(o, lines) <= |lines|
    && Within(o.sent, o.base, Until(o, lines))
    && Increasing(o.sent)
    && (forall p <- o.missed :: o.base < p <= Until(o, lines) && o.missed[p] == SUBSCRIBER_BUFFER)
  }

  ghost predicate Sound(o: Observer, lines: seq<Line>, setup: Setup) {
    && Window(o, lines)
    && |o.channel| <= SUBSCRIBER_BUFFER
    && o.delivered + o.channel == Picked(lines, o.sent)
    && (forall p | o.base < p <= Until(o, lines) :: p in o.sent <==> p !in o.missed)
    && o.retained == After(Last(History(lines[..o.base]), setup.capacity), o.after)
  }

  ghost predicate Inv(s: State, setup: Setup) {
    forall i | 0 <= i < |s.observers| :: Sound(s.observers[i], s.lines, setup)
  }

  lemma PickedGrows(lines: seq<Line>, line: Line, positions: seq<nat>)
    requires Within(positions, 0, |lines|)
    ensures Within(positions, 0, |lines| + 1) && Picked(lines + [line], positions) == Picked(lines, positions)
  {
    forall i | 0 <= i < |positions| ensures Picked(lines + [line], positions)[i] == Picked(lines, positions)[i] {
      assert positions[i] in positions;
    }
  }

  lemma PickedOneMore(lines: seq<Line>, line: Line, positions: seq<nat>)
    requires Within(positions, 0, |lines|)
    ensures var n := |lines| + 1;
      Within(positions + [n], 0, n) && Picked(lines + [line], positions + [n]) == Picked(lines, positions) + [Event(SeqOf(n), line)]
  {
    hide SeqOf;
    var n := |lines| + 1;
    PickedGrows(lines, line, positions);
    forall i | 0 <= i < n && i < |positions| + 1
      ensures i < |positions| ==> Picked(lines + [line], positions + [n])[i] == Picked(lines + [line], positions)[i]
    {
      assert (positions + [n])[i] in positions + [n];
    }
  }

  lemma PublishKeeps(o: Observer, lines: seq<Line>, line: Line, setup: Setup)
    requires Sound(o, lines, setup)
    ensures Sound(Informed(o, Event(SeqOf(|lines| + 1), line), |lines| + 1), lines + [line], setup)
  {
    hide SeqOf, History, Last, After, Picked;
    var n := |lines| + 1;
    var o' := Informed(o, Event(SeqOf(n), line), n);
    PickedGrows(lines, line, o.sent);
    PickedOneMore(lines, line, o.sent);
    assert (lines + [line])[..o.base] == lines[..o.base];
    assert n !in o.sent && n !in o.missed;
    assert o'.delivered + o'.channel == o.delivered + o.channel + if o.live && |o.channel| < SUBSCRIBER_BUFFER then [Event(SeqOf(n), line)] else [];
    forall p | o'.base < p <= Until(o', lines + [line]) ensures p in o'.sent <==> p !in o'.missed {
      assert p != n ==> (p in o.sent <==> p in o'.sent);
    }
    forall i | 0 <= i < |o.sent| ensures o.sent[i] < n {
      assert o.sent[i] in o.sent;
    }
  }

  lemma JoinKeeps(lines: seq<Line>, after: nat, setup: Setup)
    ensures Sound(Joined(lines, after, setup), lines, setup)
  {
    assert lines[..|lines|] == lines;
    if after == NO_REPLAY { NothingAfterTheLastNumber(Last(History(lines), setup.capacity)); }
  }

  lemma DrainKeeps(o: Observer, lines: seq<Line>, setup: Setup)
    requires Sound(o, lines, setup)
    ensures Sound(Drained(o), lines, setup)
  {
  }

  lemma DoKeeps(s: State, a: Action, setup: Setup)
    requires Inv(s, setup)
    ensures Inv(Do(s, a, setup), setup)
  {
    hide Sound, Joined, Informed, Drained;
    match a
    case Publish(line) =>
      forall i | 0 <= i < |s.observers|
        ensures Sound(Informed(s.observers[i], Event(SeqOf(|s.lines| + 1), line), |s.lines| + 1), s.lines + [line], setup)
      {
        PublishKeeps(s.observers[i], s.lines, line, setup);
      }
    case Subscribe(after) => JoinKeeps(s.lines, after, setup);
    case Cancel(who) => if who < |s.observers| { CancelKeeps(s.observers[who], s.lines, setup); }
    case Deliver(who) => if who < |s.observers| { DrainKeeps(s.observers[who], s.lines, setup); }
  }

  lemma CancelKeeps(o: Observer, lines: seq<Line>, setup: Setup)
    requires Sound(o, lines, setup)
    ensures Sound(Cancelled(o, |lines|), lines, setup)
  {
  }

  lemma {:induction false} RunKeeps(actions: seq<Action>, setup: Setup)
    ensures Inv(Run(actions, setup), setup)
  {
    if actions != [] {
      RunKeeps(actions[..|actions| - 1], setup);
      DoKeeps(Run(actions[..|actions| - 1], setup), actions[|actions| - 1], setup);
    }
  }

  // ---------------------------------------------------------------- until cancelled

  lemma NobodyLeaves(s: State, a: Action, setup: Setup)
    ensures |s.observers| <= |Do(s, a, setup).observers|
  {
  }

  lemma {:induction false} ObserversStay(actions: seq<Action>, setup: Setup, i: nat)
    requires i <= |actions|
    ensures |Run(actions[..i], setup).observers| <= |Run(actions, setup).observers|
    decreases |actions|
  {
    hide Do;
    if i < |actions| {
      var last := |actions| - 1;
      ObserversStay(actions[..last], setup, i);
      PrefixOfPrefix(actions, last, i);
      NobodyLeaves(Run(actions[..last], setup), actions[last], setup);
    } else {
      assert actions[..i] == actions;
    }
  }

  /** Action `i` cancelled it while it was live, and it ends with what was published then. */
  ghost predicate EndsIt(actions: seq<Action>, setup: Setup, who: nat, i: nat)
    requires i < |actions| && who < |Run(actions, setup).observers|
  {
    && actions[i] == Cancel(who) && who < |Run(actions[..i], setup).observers|
    && Run(actions[..i], setup).observers[who].live
    && Run(actions, setup).observers[who].end == |Run(actions[..i], setup).lines|
  }

  lemma ActionMeans(s: State, a: Action, setup: Setup, who: nat)
    requires who < |Do(s, a, setup).observers|
    ensures var o := Do(s, a, setup).observers[who];
      if who >= |s.observers| then o.live
      else if a == Cancel(who) && s.observers[who].live then !o.live && o.end == |s.lines|
      else o.live == s.observers[who].live && o.end == s.observers[who].end
  {
    hide Offered, After, Last, History;
  }

  lemma LastActionMeans(actions: seq<Action>, setup: Setup, who: nat)
    requires actions != [] && who < |Run(actions, setup).observers|
    ensures var last := |actions| - 1; var before, o := Run(actions[..last], setup), Run(actions, setup).observers[who];
      if who >= |before.observers| then o.live
      else if actions[last] == Cancel(who) && before.observers[who].live then !o.live && o.end == |before.lines|
      else o.live == before.observers[who].live && o.end == before.observers[who].end
  {
    hide Do;
    ActionMeans(Run(actions[..|actions| - 1], setup), actions[|actions| - 1], setup, who);
  }

  lemma PrefixOfPrefix(actions: seq<Action>, n: nat, i: nat)
    requires i <= n <= |actions|
    ensures actions[..n][..i] == actions[..i]
  {
  }

  lemma EndsLater(actions: seq<Action>, setup: Setup, who: nat, i: nat)
    requires actions != [] && i < |actions| - 1 && who < |Run(actions[..|actions| - 1], setup).observers|
    requires who < |Run(actions, setup).observers|
    requires Run(actions, setup).observers[who].end == Run(actions[..|actions| - 1], setup).observers[who].end
    requires EndsIt(actions[..|actions| - 1], setup, who, i)
    ensures EndsIt(actions, setup, who, i)
  {
    PrefixOfPrefix(actions, |actions| - 1, i);
    hide Run;
  }

  /** Once it is not live, an observer has been cancelled, and what it gets ends with what was published at that time. */
  lemma {:induction false} EndedByItsCancel(actions: seq<Action>, setup: Setup, who: nat)
    requires who < |Run(actions, setup).observers| && !Run(actions, setup).observers[who].live
    ensures exists i :: 0 <= i < |actions| && EndsIt(actions, setup, who, i)
    decreases |actions|
  {
    if actions != [] {
      hide Run;
      var last := |actions| - 1;
      LastActionMeans(actions, setup, who);
      var before := Run(actions[..last], setup);
      if before.observers[who].live {
        assert EndsIt(actions, setup, who, last);
      } else {
        EndedByItsCancel(actions[..last], setup, who);
        var i :| 0 <= i < last && EndsIt(actions[..last], setup, who, i);
        EndsLater(actions, setup, who, i);
      }
    }
  }

  /** And from its cancellation on it is not live. */
  lemma {:induction false} CancelledForGood(actions: seq<Action>, setup: Setup, who: nat, i: nat)
    requires i < |actions| && actions[i] == Cancel(who) && who < |Run(actions[..i], setup).observers|
    ensures who < |Run(actions, setup).observers| && !Run(actions, setup).observers[who].live
    decreases |actions|
  {
    hide Run;
    var last := |actions| - 1;
    ObserversStay(actions, setup, i);
    ObserversStay(actions, setup, last);
    LastActionMeans(actions, setup, who);
    if i < last {
      PrefixOfPrefix(actions, last, i);
      CancelledForGood(actions[..last], setup, who, i);
    }
  }

  /** Whoever subscribes joins behind what was published, live and with nothing sent to it yet. */
  lemma JoiningMeans(s: State, after: nat, setup: Setup)
    ensures var s' := Do(s, Subscribe(after), setup); var o := Joined(s.lines, after, setup);
      && s' == s.(observers := s.observers + [o])
      && o.after == after && o.base == |s.lines| && o.live && o.delivered == [] && o.channel == [] && o.sent == [] && o.missed == map[]
  {
  }

  /** A delivery hands over the oldest event of the channel, if there is one. */
  lemma DeliveringMeans(s: State, who: nat, setup: Setup)
    requires who < |s.observers|
    ensures var s' := Do(s, Deliver(who), setup); var o, o' := s.observers[who], s'.observers[who];
      && s'.lines == s.lines && |s'.observers| == |s.observers|
      && (forall i | 0 <= i < |s.observers| && i != who :: s'.observers[i] == s.observers[i])
      && (if o.channel == [] then o' == o
          else o'.delivered == o.delivered + [o.channel[0]] && o'.channel == o.channel[1..] && o'.live == o.live)
  {
  }

  // ---------------------------------------------------------------- replayed and sent partition the history

  /** Everything that reached the observer or is in its channel, in the order it gets it. */
  function Seen(o: Observer): seq<Event> { o.retained + o.delivered + o.channel }

  ghost predicate Ordered(events: seq<Event>) { forall i, j | 0 <= i < j < |events| :: events[i].seqNo < events[j].seqNo }

  lemma {:induction false} AfterKeepsOrder(events: seq<Event>, after: nat)
    requires Ordered(events)
    ensures Ordered(After(events, after))
    ensures forall e :: e in After(events, after) <==> e in events && e.seqNo > after
  {
    hide After;
    if events == [] {
      NothingAfterNothing(after);
    } else {
      var last := |events| - 1;
      AfterKeepsOrder(events[..last], after);
      assert events == events[..last] + [events[last]];
      AfterOneMore(events[..last], events[last], after);
    }
  }

  /** Until the 64-bit number wraps, the number of an event is its position. */
  function EventAt(lines: seq<Line>, p: nat): Event
    requires 0 < p <= |lines|
  {
    Event(p, lines[p - 1])
  }

  ghost predicate Genuine(events: seq<Event>, lines: seq<Line>) {
    forall e <- events :: 0 < e.seqNo <= |lines| && e == EventAt(lines, e.seqNo)
  }

  lemma KeptAt(lines: seq<Line>, base: nat, capacity: nat)
    requires base <= |lines| < WIDTH
    ensures var kept, skipped := Last(History(lines[..base]), capacity), Max(base - capacity, 0);
      |kept| == base - skipped && forall i | 0 <= i < |kept| :: kept[i] == EventAt(lines, skipped + i + 1)
  {
    var kept, skipped := Last(History(lines[..base]), capacity), Max(base - capacity, 0);
    forall i | 0 <= i < |kept| ensures kept[i] == EventAt(lines, skipped + i + 1) {
      assert lines[..base][skipped + i] == lines[skipped + i];
    }
  }

  lemma KeptExactly(lines: seq<Line>, base: nat, capacity: nat)
    requires base <= |lines| < WIDTH
    ensures var kept := Last(History(lines[..base]), capacity);
      && Ordered(kept) && Genuine(kept, lines)
      && (forall p | 0 < p <= |lines| :: EventAt(lines, p) in kept <==> base - capacity < p <= base)
  {
    hide History, Last;
    var skipped := Max(base - capacity, 0);
    var kept := Last(History(lines[..base]), capacity);
    KeptAt(lines, base, capacity);
    forall p | skipped < p <= base ensures EventAt(lines, p) in kept {
      assert kept[p - 1 - skipped] in kept;
    }
  }

  /** What is replayed: the events numbered after `after` among the last `capacity` ones at that moment. */
  lemma ReplayedExactly(lines: seq<Line>, base: nat, after: nat, capacity: nat)
    requires base <= |lines| < WIDTH
    ensures var r := After(Last(History(lines[..base]), capacity), after);
      && Ordered(r) && Genuine(r, lines)
      && (forall p | 0 < p <= |lines| :: EventAt(lines, p) in r <==> base - capacity < p <= base && p > after)
  {
    KeptExactly(lines, base, capacity);
    var kept := Last(History(lines[..base]), capacity);
    AfterKeepsOrder(kept, after);
    hide History, Last, After;
  }

  lemma SentExactly(lines: seq<Line>, positions: seq<nat>, base: nat)
    requires |lines| < WIDTH && Within(positions, base, |lines|) && Increasing(positions)
    ensures Within(positions, 0, |lines|)
    ensures var r := Picked(lines, positions);
      && Ordered(r) && Genuine(r, lines)
      && (forall p | 0 < p <= |lines| :: EventAt(lines, p) in r <==> p in positions)
  {
    var r := Picked(lines, positions);
    forall i | 0 <= i < |positions| ensures 0 < positions[i] <= |lines| && r[i] == EventAt(lines, positions[i]) {
      assert positions[i] in positions;
    }
    hide Picked;
    forall p | p in positions ensures EventAt(lines, p) in r {
      var i :| 0 <= i < |positions| && positions[i] == p;
      assert r[i] in r;
    }
  }

  /** What an observer gets, as the invariant leaves it. */
  ghost predicate GetsExactly(o: Observer, lines: seq<Line>, setup: Setup) {
    && Ordered(Seen(o))
    && Genuine(Seen(o), lines)
    && (forall e <- o.retained :: e.seqNo <= o.base)
    && (forall e <- o.delivered + o.channel :: o.base < e.seqNo <= Until(o, lines))
    && (forall p | 0 < p <= |lines| :: EventAt(lines, p) in Seen(o) <==>
          || (o.base - setup.capacity < p <= o.base && p > o.after)
          || (o.base < p <= Until(o, lines) && p !in o.missed))
    && (forall p <- o.missed :: o.missed[p] == SUBSCRIBER_BUFFER)
  }

  /** In every run in which the number has not wrapped, an observer gets, in strictly increasing order and so each at
      most once: first the events it asked for that were still retained when it joined, then every event published
      until it was cancelled, except those that found its channel full. Nothing else. */
  lemma ReplayAndSubscriptionPartition(actions: seq<Action>, setup: Setup, who: nat)
    requires |Run(actions, setup).lines| < WIDTH && who < |Run(actions, setup).observers|
    ensures GetsExactly(Run(actions, setup).observers[who], Run(actions, setup).lines, setup)
  {
    RunKeeps(actions, setup);
    var s := Run(actions, setup);
    hide Run, Sound, GetsExactly;
    SeenExactly(s.observers[who], s.lines, setup);
  }

  lemma SeenExactly(o: Observer, lines: seq<Line>, setup: Setup)
    requires Sound(o, lines, setup) && |lines| < WIDTH
    ensures GetsExactly(o, lines, setup)
  {
    hide History, Last, After, Picked;
    ReplayedExactly(lines, o.base, o.after, setup.capacity);
    SentExactly(lines, o.sent, o.base);
    var live := o.delivered + o.channel;
    assert Seen(o) == o.retained + live;
    forall e <- o.retained ensures e.seqNo <= o.base {
      assert EventAt(lines, e.seqNo) in o.retained;
    }
    forall e <- live ensures o.base < e.seqNo <= Until(o, lines) {
      assert EventAt(lines, e.seqNo) in live;
    }
  }
}
