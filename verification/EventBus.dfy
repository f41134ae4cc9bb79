/** The in-memory event bus: a fixed ring that must agree with the whole history, and subscribers that join it
    without a gap between what they are replayed and what they are sent. */
module EventBus {
  import opened Base

  type Line(!new) = string

  /** Sequence numbers are 64 bits wide. */
  const WIDTH: nat := 0x1_0000_0000_0000_0000

  /** Asked for by an observer that wants nothing replayed. */
  const NO_REPLAY: nat := WIDTH - 1

  /** How many events the channel of a subscriber holds. */
  const SUBSCRIBER_BUFFER: nat := 256

  datatype Event = Event(seqNo: nat, line: Line)

  /** The number of the `n`-th event ever published, counting from 1. */
  function SeqOf(n: nat): nat { n % WIDTH }

  lemma NumbersWrap(n: nat)
    ensures (SeqOf(n) + 1) % WIDTH == SeqOf(n + 1)
  {
  }

  /** The whole history of `n` publishes, in order. */
  function History(lines: seq<Line>): (h: seq<Event>)
    ensures |h| == |lines|
    ensures forall i | 0 <= i < |h| :: h[i] == Event(SeqOf(i + 1), lines[i])
  {
    seq(|lines|, i requires 0 <= i < |lines| => Event(SeqOf(i + 1), lines[i]))
  }

  /** The last `n` events. */
  function Last<T>(s: seq<T>, n: nat): seq<T> { s[Max(|s| - n, 0)..] }

  /** The events numbered after `after`, in order. */
  function After(events: seq<Event>, after: nat): seq<Event> {
    if events == [] then []
    else
      var last := |events| - 1;
      After(events[..last], after) + if events[last].seqNo > after then [events[last]] else []
  }

  lemma NothingAfterNothing(after: nat)
    ensures After([], after) == []
  {
  }

  lemma AfterOneMore(events: seq<Event>, event: Event, after: nat)
    ensures After(events + [event], after) == After(events, after) + if event.seqNo > after then [event] else []
  {
  }

  // ---------------------------------------------------------------- the ring

  /** The ring read from `start`. */
  function Unrolled(ring: seq<Event>, start: nat, size: nat): (r: seq<Event>)
    requires size <= |ring| && (|ring| > 0 ==> start < |ring|)
    ensures |r| == size
  {
    seq(size, k requires 0 <= k < size => ring[(start + k) % |ring|])
  }

  /** A channel after a send that does not block. */
  function Offered(channel: seq<Event>, event: Event): seq<Event> {
    if |channel| < SUBSCRIBER_BUFFER then channel + [event] else channel
  }

  /** One more event in the history. */
  lemma HistoryGrows(lines: seq<Line>, line: Line)
    ensures History(lines + [line]) == History(lines) + [Event(SeqOf(|lines| + 1), line)]
  {
  }

  lemma LastOfLonger(h: seq<Event>, event: Event, n: nat)
    requires n > 0
    ensures Last(Last(h, n) + [event], n) == Last(h + [event], n)
  {
  }

  lemma {:induction false} NothingAfterTheLastNumber(events: seq<Event>)
    requires forall e <- events :: e.seqNo < WIDTH
    ensures After(events, NO_REPLAY) == []
  {
    if events != [] { NothingAfterTheLastNumber(events[..|events| - 1]); }
  }

  lemma WrapsOnce(x: nat, n: nat)
    requires 0 < n && x < 2 * n
    ensures x % n == if x < n then x else x - n
  {
  }

  /** Writing behind a ring that is not full appends; writing over the oldest of a full ring shifts. */
  lemma WritingShifts(ring: seq<Event>, start: nat, size: nat, event: Event)
    requires 0 < |ring| && start < |ring| && size <= |ring|
    ensures var at := (start + size) % |ring|;
      if size < |ring| then Unrolled(ring[at := event], start, size + 1) == Unrolled(ring, start, size) + [event]
      else Unrolled(ring[at := event], (start + 1) % |ring|, size) == Unrolled(ring, start, size)[1..] + [event]
  {
    var n := |ring|;
    var at := (start + size) % n;
    WrapsOnce(start + size, n);
    var before := Unrolled(ring, start, size);
    if size < n {
      forall k | 0 <= k <= size ensures Unrolled(ring[at := event], start, size + 1)[k] == (before + [event])[k] {
        WrapsOnce(start + k, n);
      }
    } else {
      var next := (start + 1) % n;
      WrapsOnce(start + 1, n);
      forall k | 0 <= k < size ensures Unrolled(ring[at := event], next, size)[k] == (before[1..] + [event])[k] {
        WrapsOnce(next + k, n);
        WrapsOnce(start + k + 1, n);
      }
    }
  }

  class Subscriber {
    var channel: seq<Event>
    var closed: bool

    constructor ()
      ensures channel == [] && !closed
    {
      channel, closed := [], false;
    }

    /** A send that does not block: the event is dropped if the channel is full. The runtime forbids sending on a
        closed channel. */
    method Offer(event: Event)
      requires !closed && |channel| <= SUBSCRIBER_BUFFER
      modifies this
      ensures !closed && |channel| <= SUBSCRIBER_BUFFER
      ensures channel == Offered(old(channel), event)
    {
      if |channel| < SUBSCRIBER_BUFFER {
        channel := channel + [event];
      }
    }

    /** The runtime forbids closing a channel twice. */
    method Close()
      requires !closed
      modifies this`closed
      ensures closed
    {
      closed := true;
    }
  }

  class Bus {
    const enabled: bool
    const capacity: nat
    const ring: array<Event>
    var start: nat
    var size: nat
    var sequence: nat
    var subscribers: map<nat, Subscriber>
    var nextId: nat
    ghost var lines: seq<Line>
    ghost var known: set<Subscriber>

    /** New: a bus without capacity is inert. */
    constructor (enabled: bool, capacity: int)
      ensures Valid() && fresh(ring) && lines == [] && subscribers == map[] && known == {}
      ensures this.capacity == Max(capacity, 0)
      ensures this.enabled <==> enabled && capacity > 0
    {
      var room := if capacity < 0 then 0 else capacity;
      this.capacity := room;
      this.enabled := enabled && room > 0;
      ring := new Event[room](_ => Event(0, ""));
      start, size, sequence, subscribers, nextId := 0, 0, 0, map[], 0;
      lines, known := [], {};
    }

    /** The ring holds exactly the last events of the history. */
    ghost predicate RingAgrees()
      reads this`start, this`size, this`sequence, this`lines, ring
    {
      && ring.Length == capacity && size <= capacity && (capacity > 0 ==> start < capacity) && (enabled ==> capacity > 0)
      && size == Min(|lines|, capacity)
      && sequence == SeqOf(|lines|)
      && Unrolled(ring[..], start, size) == Last(History(lines), capacity)
    }

    /** The open channels are those of the subscribers, one each. */
    ghost predicate ChannelsAgree()
      reads this`subscribers, this`nextId, this`known, known
    {
      && (forall id <- subscribers :: id <= nextId && subscribers[id] in known && !subscribers[id].closed)
      && (forall id, other | id in subscribers && other in subscribers && subscribers[id] == subscribers[other] :: id == other)
      && (forall sub <- known :: |sub.channel| <= SUBSCRIBER_BUFFER)
    }

    ghost predicate Valid()
      reads this, ring, known
    {
      RingAgrees() && ChannelsAgree()
    }

    /** retain: the newest event takes the place of the oldest once the ring is full. */
    method Retain(event: Event)
      requires ring.Length == capacity > 0 && size <= capacity && start < capacity
      modifies this`start, this`size, ring
      ensures size == Min(old(size) + 1, capacity) && start < capacity
      ensures Unrolled(ring[..], start, size) == Last(old(Unrolled(ring[..], start, size)) + [event], capacity)
    {
      var index := (start + size) % capacity;
      WritingShifts(ring[..], start, size, event);
      ghost var was := ring[..];
      ring[index] := event;
      assert ring[..] == was[index := event];
      if size < capacity {
        size := size + 1;
        return;
      }
      start := (start + 1) % capacity;
    }

    /** Publish: nobody waits for a slow observer. */
    method Publish(line: Line)
      requires Valid()
      modifies this`start, this`size, this`sequence, this`lines, ring, known
      ensures Valid() && lines == if enabled then old(lines) + [line] else old(lines)
      ensures forall sub <- known :: sub.closed == old(sub.closed)
      ensures forall sub <- known ::
        sub.channel == if enabled && sub in subscribers.Values then Offered(old(sub.channel), Event(SeqOf(|lines|), line)) else old(sub.channel)
    {
      if !enabled { return; }
      var event := Record(line);
      hide *;
      Distribute(event);
    }

    /** The numbering and retention of one publish. */
    method Record(line: Line) returns (event: Event)
      requires RingAgrees() && enabled
      modifies this`start, this`size, this`sequence, this`lines, ring
      ensures RingAgrees() && lines == old(lines) + [line] && event == Event(SeqOf(|lines|), line)
    {
      hide History, Last, Unrolled, SeqOf;
      NumbersWrap(|lines|);
      sequence := (sequence + 1) % WIDTH;
      event := Event(sequence, line);
      HistoryGrows(lines, line);
      LastOfLonger(History(lines), event, capacity);
      Retain(event);
      lines := lines + [line];
    }

    /** The event goes to every subscriber, in whatever order the map yields them. */
    method Distribute(event: Event)
      requires forall id <- subscribers :: subscribers[id] in known && !subscribers[id].closed
      requires forall id, other | id in subscribers && other in subscribers && subscribers[id] == subscribers[other] :: id == other
      requires forall sub <- known :: |sub.channel| <= SUBSCRIBER_BUFFER
      modifies known
      ensures forall sub <- known :: sub.closed == old(sub.closed) && |sub.channel| <= SUBSCRIBER_BUFFER
      ensures forall sub <- known ::
        sub.channel == if sub in subscribers.Values then Offered(old(sub.channel), event) else old(sub.channel)
    {
      hide Offered;
      var left := subscribers.Keys;
      while left != {}
        invariant left <= subscribers.Keys
        invariant forall sub <- known :: sub.closed == old(sub.closed) && |sub.channel| <= SUBSCRIBER_BUFFER
        invariant forall id <- left :: subscribers[id].channel == old(subscribers[id].channel)
        invariant forall id <- subscribers | id !in left :: subscribers[id].channel == Offered(old(subscribers[id].channel), event)
        invariant forall sub <- known | sub !in subscribers.Values :: sub.channel == old(sub.channel)
      {
        var id :| id in left;
        subscribers[id].Offer(event);
        left := left - {id};
      }
    }

    /** replayLocked: the retained events numbered after `after`, in order. */
    method ReplayLocked(after: nat) returns (out: seq<Event>)
      requires Valid()
      ensures out == After(Last(History(lines), capacity), after)
    {
      out := [];
      ghost var kept := Unrolled(ring[..], start, size);
      hide After, History, Last;
      assert After([], after) == [] by { NothingAfterNothing(after); }
      for offset := 0 to size
        invariant out == After(kept[..offset], after)
      {
        var event := ring[(start + offset) % capacity];
        assert kept[offset] == event && kept[..offset + 1] == kept[..offset] + [event];
        AfterOneMore(kept[..offset], event, after);
        if event.seqNo > after {
          out := out + [event];
        }
      }
      assert kept[..size] == kept;
    }

    /** ReplayAndSubscribe: what is retained and the registration belong to the same instant. */
    method ReplayAndSubscribe(after: nat) returns (retained: seq<Event>, id: nat)
      requires Valid() && after < WIDTH
      modifies this`subscribers, this`nextId, this`known
      ensures Valid() && id in subscribers && fresh(subscribers[id]) && known == old(known) + {subscribers[id]}
      ensures id !in old(subscribers) && subscribers == old(subscribers)[id := subscribers[id]]
      ensures subscribers[id].channel == []
      ensures retained == After(Last(History(lines), capacity), after)
    {
      var sub := new Subscriber();
      if after != NO_REPLAY {
        retained := ReplayLocked(after);
      } else {
        retained := [];
        NothingAfterTheLastNumber(Last(History(lines), capacity));
      }
      nextId := nextId + 1;
      id := nextId;
      subscribers := subscribers[id := sub];
      known := known + {sub};
    }

    /** The function ReplayAndSubscribe returns, called any number of times: the channel is closed once. */
    method Cancel(id: nat)
      requires Valid()
      modifies this`subscribers, known
      ensures Valid() && subscribers == old(subscribers) - {id}
      ensures forall sub <- known :: sub.channel == old(sub.channel)
      ensures forall sub <- known :: sub.closed <==> old(sub.closed) || (id in old(subscribers) && sub == old(subscribers)[id])
    {
      if id in subscribers {
        var registered := subscribers[id];
        subscribers := subscribers - {id};
        registered.Close();
      }
    }
  }
}
