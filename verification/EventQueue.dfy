/** The bounded event queue between a sandbox execution and its one consumer, and the
    execution's pushes into it. */
module EventQueue {
  import opened Options
  import opened Strings

  const MAX_OUTPUT_QUEUE_EVENTS := 1_024
  const MAX_OUTPUT_QUEUE_BYTES := 1_048_576
  const MAX_FILE_BYTES := 1_048_576

  datatype Stream = Stdout | Stderr

  datatype Reason = HardTimeout | BackendFailure

  datatype Event =
    | Output(chunk: Text, stream: Stream, sequence: nat)
    | Exit(exitCode: int, sequence: nat)
    | Failed(reason: Reason, retryable: bool, sequence: nat)

  /** UTF-8 bytes of an output chunk; terminal events weigh nothing. */
  function Size(e: Event): nat { if e.Output? then |Encode(e.chunk)| else 0 }

  datatype Queue = Queue(
    events: seq<Event>,
    queuedBytes: int,
    ended: bool,
    wake: bool)         // a resolver is stored: the consumer is parked

  datatype Polled = Yielded(event: Event) | Parked | Done

  const EMPTY := Queue([], 0, false, false)

  predicate Refused(q: Queue, e: Event) {
    || q.ended
    || (e.Output?
        && (|q.events| >= MAX_OUTPUT_QUEUE_EVENTS || q.queuedBytes + Size(e) > MAX_OUTPUT_QUEUE_BYTES))
  }

  function Pushed(q: Queue, e: Event): Queue {
    if Refused(q, e) then q
    else q.(events := q.events + [e], queuedBytes := q.queuedBytes + Size(e), wake := false)
  }

  function ClosedQueue(q: Queue): Queue { if q.ended then q else q.(ended := true, wake := false) }

  /** The consumer runs until it yields, parks or ends. */
  function Polling(q: Queue): (Queue, Polled) {
    if q.events != [] then
      (q.(events := q.events[1..], queuedBytes := q.queuedBytes - Size(q.events[0])), Yielded(q.events[0]))
    else if q.ended then (q, Done)
    else (q.(wake := true), Parked)
  }

  class AsyncEventQueue {
    var ended: bool
    var events: seq<(Event, nat)>
    var queuedBytes: int
    var wake: bool
    var closed: bool  // the `closed` promise is resolved

    ghost predicate Valid()
      reads this
    {
      && (forall i :: 0 <= i < |events| ==> events[i].1 == Size(events[i].0))
      && closed == ended
    }

    ghost function View(): Queue
      reads this
    {
      Queue(seq(|events|, i requires 0 <= i < |events| reads this => events[i].0), queuedBytes, ended, wake)
    }

    constructor ()
      ensures Valid() && View() == EMPTY
    {
      ended, events, queuedBytes, wake, closed := false, [], 0, false, false;
    }

    method Push(event: Event) returns (accepted: bool)
      requires Valid()
      modifies this
      ensures Valid() && View() == Pushed(old(View()), event)
      ensures accepted == !Refused(old(View()), event)
    {
      if ended { return false; }
      var size := if event.Output? then |Encode(event.chunk)| else 0;
      if event.Output? && (|events| >= MAX_OUTPUT_QUEUE_EVENTS || queuedBytes + size > MAX_OUTPUT_QUEUE_BYTES) {
        return false;
      }
      events := events + [(event, size)];
      queuedBytes := queuedBytes + size;
      wake := false;
      return true;
    }

    method Close()
      requires Valid()
      modifies this
      ensures Valid() && ended && View() == ClosedQueue(old(View()))
    {
      if ended { return; }
      ended := true;
      wake := false;
      closed := true;
    }

    /** The consumer's next turn; it takes one only when it is not parked. */
    method Next() returns (result: Polled)
      requires Valid() && !wake
      modifies this
      ensures Valid() && (View(), result) == Polling(old(View()))
    {
      if ended && |events| == 0 { return Done; }
      if |events| > 0 {
        var queued := events[0];
        events := events[1..];
        queuedBytes := queuedBytes - queued.1;
        assert View().events == old(View()).events[1..];
        return Yielded(queued.0);
      }
      wake := true;
      assert View().events == old(View()).events == [];
      return Parked;
    }
  }

  // ---- Every interleaving of producer and consumer ----

  function Bytes(events: seq<Event>): nat {
    if events == [] then 0 else Size(events[0]) + Bytes(events[1..])
  }

  function Outputs(events: seq<Event>): nat {
    if events == [] then 0 else (if events[0].Output? then 1 else 0) + Outputs(events[1..])
  }

  /** A turn of one side. A parked consumer takes no turn until a push or the close wakes it. */
  datatype Turn = Pushing(event: Event) | Closing | Consuming

  datatype History = History(queue: Queue, accepted: seq<Event>, yielded: seq<Event>, finished: bool)

  const START := History(EMPTY, [], [], false)

  function Take(h: History, turn: Turn): History {
    match turn
    case Pushing(e) =>
      h.(queue := Pushed(h.queue, e), accepted := if Refused(h.queue, e) then h.accepted else h.accepted + [e])
    case Closing => h.(queue := ClosedQueue(h.queue))
    case Consuming =>
      if h.queue.wake || h.finished then h
      else var (q, polled) := Polling(h.queue);
           h.(queue := q,
              yielded := if polled.Yielded? then h.yielded + [polled.event] else h.yielded,
              finished := polled.Done?)
  }

  function TakeAll(h: History, turns: seq<Turn>): History
    decreases |turns|
  {
    if turns == [] then h else TakeAll(Take(h, turns[0]), turns[1..])
  }

  ghost predicate Good(h: History) {
    && h.yielded + h.queue.events == h.accepted
    && h.queue.queuedBytes == Bytes(h.queue.events) <= MAX_OUTPUT_QUEUE_BYTES
    && Outputs(h.queue.events) <= MAX_OUTPUT_QUEUE_EVENTS
    && (h.queue.wake ==> h.queue.events == [] && !h.queue.ended)
    && (h.finished ==> h.queue.events == [] && h.queue.ended)
  }

  lemma {:induction false} Appended(events: seq<Event>, e: Event)
    ensures Bytes(events + [e]) == Bytes(events) + Size(e)
    ensures Outputs(events + [e]) == Outputs(events) + (if e.Output? then 1 else 0)
    ensures Outputs(events) <= |events|
  {
    hide Size;
    if events == [] {
      assert events + [e] == [e];
    } else {
      assert (events + [e])[1..] == events[1..] + [e];
      Appended(events[1..], e);
    }
  }

  lemma TakeKeeps(h: History, turn: Turn)
    requires Good(h)
    ensures Good(Take(h, turn))
  {
    match turn {
      case Pushing(e) => Appended(h.queue.events, e);
      case Closing =>
      case Consuming =>
        if h.queue.events != [] {
          assert [h.queue.events[0]] + h.queue.events[1..] == h.queue.events;
        }
    }
  }

  /** In every interleaving nothing is lost, reordered or invented, both bounds hold, and a parked
      consumer has nothing to do. */
  lemma {:induction false} QueueKeeps(h: History, turns: seq<Turn>)
    requires Good(h)
    ensures Good(TakeAll(h, turns))
    decreases |turns|
  {
    hide Take, Good;
    if turns != [] {
      TakeKeeps(h, turns[0]);
      QueueKeeps(Take(h, turns[0]), turns[1..]);
    }
  }

  /** The same from a new queue, spelled out. */
  lemma QueueInOrder(turns: seq<Turn>)
    ensures var h := TakeAll(START, turns);
            && h.yielded + h.queue.events == h.accepted
            && h.queue.queuedBytes == Bytes(h.queue.events) <= MAX_OUTPUT_QUEUE_BYTES
            && Outputs(h.queue.events) <= MAX_OUTPUT_QUEUE_EVENTS
            && (h.queue.wake ==> h.queue.events == [] && !h.queue.ended)
            && (h.finished ==> h.yielded == h.accepted)
  {
    QueueKeeps(START, turns);
    hide TakeAll;
  }

  lemma {:induction false} EndedByClosing(h: History, turns: seq<Turn>)
    ensures TakeAll(h, turns).queue.ended <==> h.queue.ended || Closing in turns
    decreases |turns|
  {
    if turns != [] { EndedByClosing(Take(h, turns[0]), turns[1..]); }
  }

  /** After any turns an event is accepted exactly when the queue was not closed and, for an output, fewer than
      1,024 events are waiting and its bytes still fit; whoever was parked is then awake. */
  lemma AcceptedExactly(turns: seq<Turn>, e: Event)
    ensures var h := TakeAll(START, turns);
            && |h.yielded| <= |h.accepted|
            && var waiting, next := h.accepted[|h.yielded|..], Take(h, Pushing(e));
            && (next.accepted != h.accepted <==>
                  && Closing !in turns
                  && (e.Output? ==> |waiting| < 1_024 && Bytes(waiting) + |Encode(e.chunk)| <= 1_048_576))
            && (next.accepted != h.accepted ==> next.accepted == h.accepted + [e] && !next.queue.wake)
            && next.yielded == h.yielded
  {
    hide Encode, TakeAll;
    QueueKeeps(START, turns);
    EndedByClosing(START, turns);
    var h := TakeAll(START, turns);
    assert h.accepted[|h.yielded|..] == h.queue.events;
  }

  /** A consumer that has something to do is never stuck: its next turn yields the oldest waiting event, or ends. */
  lemma NeverStuck(turns: seq<Turn>)
    ensures var h := TakeAll(START, turns);
            var next := Take(h, Consuming);
            && (|h.yielded| < |h.accepted| ==> next.yielded == h.yielded + [h.accepted[|h.yielded|]])
            && (h.yielded == h.accepted && Closing in turns ==> next.finished)
            && (h.yielded == h.accepted && Closing !in turns ==> next.queue.wake && !next.finished)
  {
    hide TakeAll;
    QueueKeeps(START, turns);
    EndedByClosing(START, turns);
  }

  /** Nothing is accepted after the close. */
  lemma {:induction false} ClosedAcceptsNothing(h: History, turns: seq<Turn>)
    requires h.queue.ended
    ensures TakeAll(h, turns).queue.ended && TakeAll(h, turns).accepted == h.accepted
    decreases |turns|
  {
    if turns != [] {
      ClosedAcceptsNothing(Take(h, turns[0]), turns[1..]);
    }
  }

  /** A consumer that keeps taking turns on a closed queue receives every accepted event and then ends. */
  lemma {:induction false} ClosedDrains(h: History)
    requires Good(h) && h.queue.ended && !h.finished
    ensures var last := TakeAll(h, seq(|h.queue.events| + 1, _ => Consuming));
            last.finished && last.yielded == h.accepted
    decreases |h.queue.events|
  {
    var turns := seq(|h.queue.events| + 1, _ => Consuming);
    var next := Take(h, Consuming);
    TakeKeeps(h, Consuming);
    assert TakeAll(h, turns) == TakeAll(next, turns[1..]);
    if h.queue.events == [] {
      assert turns[1..] == [];
    } else {
      assert turns[1..] == seq(|next.queue.events| + 1, _ => Consuming);
      ClosedDrains(next);
    }
  }

  // ---- The execution's pushes ----

  /** `runProcess` as a producer: output callbacks, then one terminal event, then the close.
      Output callbacks may still come between the terminal event and the close, and after it. */
  datatype Producer = Producer(sequence: nat, concluded: bool, closed: bool)

  datatype Production =
    | OnOutput(text: Text, from: Stream)
    | Exits(code: int)
    | Fails(why: Reason, again: bool)
    | Finishes
    | Consumes

  /** Control flow allows the terminal event once and the close only after it. */
  predicate Allowed(p: Producer, a: Production) {
    match a
    case Exits(_) => !p.concluded
    case Fails(_, _) => !p.concluded
    case Finishes => p.concluded && !p.closed
    case _ => true
  }

  function TurnOf(p: Producer, a: Production): Turn {
    match a
    case OnOutput(text, from) => Pushing(Output(text, from, p.sequence))
    case Exits(code) => Pushing(Exit(code, p.sequence))
    case Fails(why, again) => Pushing(Failed(why, again, p.sequence))
    case Finishes => Closing
    case Consumes => Consuming
  }

  function Produce(p: Producer, h: History, a: Production): Producer {
    match a
    case OnOutput(text, from) =>
      if Refused(h.queue, Output(text, from, p.sequence)) then p else p.(sequence := p.sequence + 1)
    case Exits(_) => p.(sequence := p.sequence + 1, concluded := true)
    case Fails(_, _) => p.(sequence := p.sequence + 1, concluded := true)
    case Finishes => p.(closed := true)
    case Consumes => p
  }

  ghost predicate Produces(p: Producer, h: History, actions: seq<Production>, q: Producer, g: History)
    decreases |actions|
  {
    if actions == [] then q == p && g == h
    else
      && Allowed(p, actions[0])
      && Produces(Produce(p, h, actions[0]), Take(h, TurnOf(p, actions[0])), actions[1..], q, g)
  }

  ghost predicate Numbered(p: Producer, h: History) {
    && Good(h)
    && |h.accepted| == p.sequence
    && (forall i :: 0 <= i < |h.accepted| ==> h.accepted[i].sequence == i)
    && h.accepted == h.yielded + h.queue.events
    && |h.accepted| - Outputs(h.accepted) == (if p.concluded then 1 else 0)
    && (p.closed ==> p.concluded)
    && h.queue.ended == p.closed
  }

  lemma ProduceKeeps(p: Producer, h: History, a: Production)
    requires Numbered(p, h) && Allowed(p, a)
    ensures Numbered(Produce(p, h, a), Take(h, TurnOf(p, a)))
  {
    TakeKeeps(h, TurnOf(p, a));
    hide Good;
    match a {
      case OnOutput(text, from) => Appended(h.accepted, Output(text, from, p.sequence));
      case Exits(code) => Appended(h.accepted, Exit(code, p.sequence));
      case Fails(why, again) => Appended(h.accepted, Failed(why, again, p.sequence));
      case _ =>
    }
  }

  /** Sequence numbers of the accepted events are 0, 1, 2, …, and exactly one terminal event is accepted
      by the time the queue is closed. */
  lemma {:induction false} SequencesContiguous(p: Producer, h: History, actions: seq<Production>, q: Producer,
                                               g: History)
    requires Numbered(p, h) && Produces(p, h, actions, q, g)
    ensures Numbered(q, g)
    decreases |actions|
  {
    hide Numbered, Take, Produce;
    if actions != [] {
      ProduceKeeps(p, h, actions[0]);
      SequencesContiguous(Produce(p, h, actions[0]), Take(h, TurnOf(p, actions[0])), actions[1..], q, g);
    }
  }

  /** What a consumer that reached the end has received. */
  lemma ConsumerSees(actions: seq<Production>, q: Producer, g: History)
    requires Produces(Producer(0, false, false), START, actions, q, g) && g.finished
    ensures forall i :: 0 <= i < |g.yielded| ==> g.yielded[i].sequence == i
    ensures |g.yielded| == Outputs(g.yielded) + 1
  {
    SequencesContiguous(Producer(0, false, false), START, actions, q, g);
    assert g.yielded == g.accepted;
  }

  lemma ProducesCons(p: Producer, h: History, a: Production, p1: Producer, h1: History, rest: seq<Production>,
                     q: Producer, g: History)
    requires Allowed(p, a) && Produce(p, h, a) == p1 && Take(h, TurnOf(p, a)) == h1 && Produces(p1, h1, rest, q, g)
    ensures Produces(p, h, [a] + rest, q, g)
  {
    hide Take, Produce, TurnOf;
    assert ([a] + rest)[1..] == rest;
  }

  /** An execution that reports an output that fits and then exits: its consumer gets both, numbered, and ends. */
  lemma WholeExecution(text: Text, from: Stream, code: int)
    requires |Encode(text)| <= MAX_OUTPUT_QUEUE_BYTES
    ensures var events := [Output(text, from, 0), Exit(code, 1)];
            Produces(Producer(0, false, false), START,
                     [OnOutput(text, from)] + ([Exits(code)] + ([Finishes] + ([Consumes] + ([Consumes] + [Consumes])))),
                     Producer(2, true, true), History(Queue([], 0, true, false), events, events, true))
  {
    hide Encode, Produces;
    var output, exit := Output(text, from, 0), Exit(code, 1);
    var p0, p1, p2, p3 := Producer(0, false, false), Producer(1, false, false), Producer(2, true, false),
      Producer(2, true, true);
    var h1 := History(Queue([output], Size(output), false, false), [output], [], false);
    var h2 := History(Queue([output, exit], Size(output), false, false), [output, exit], [], false);
    var h3 := h2.(queue := h2.queue.(ended := true));
    var h4 := History(Queue([exit], 0, true, false), [output, exit], [output], false);
    var h5 := History(Queue([], 0, true, false), [output, exit], [output, exit], false);
    var last := h5.(finished := true);
    NothingProduced(p3, last);
    ProducesCons(p3, h5, Consumes, p3, last, [], p3, last);
    assert [Consumes] + [] == [Consumes];
    ProducesCons(p3, h4, Consumes, p3, h5, [Consumes], p3, last);
    ProducesCons(p3, h3, Consumes, p3, h4, [Consumes] + [Consumes], p3, last);
    ProducesCons(p2, h2, Finishes, p3, h3, [Consumes] + ([Consumes] + [Consumes]), p3, last);
    ProducesCons(p1, h1, Exits(code), p2, h2, [Finishes] + ([Consumes] + ([Consumes] + [Consumes])), p3, last);
    ProducesCons(p0, START, OnOutput(text, from), p1, h1,
                 [Exits(code)] + ([Finishes] + ([Consumes] + ([Consumes] + [Consumes]))), p3, last);
  }

  lemma NothingProduced(p: Producer, h: History)
    ensures Produces(p, h, [], p, h)
  {
  }

  /** The event carries what the execution reported. */
  predicate Carries(e: Event, a: Production) {
    match a
    case OnOutput(text, from) => e.Output? && e.chunk == text && e.stream == from
    case Exits(code) => e.Exit? && e.exitCode == code
    case Fails(why, again) => e.Failed? && e.reason == why && e.retryable == again
    case _ => false
  }

  /** Every accepted event carries one of the execution's reports, unchanged. */
  lemma {:induction false} EventsCarryReports(p: Producer, h: History, actions: seq<Production>, q: Producer,
                                              g: History)
    requires Produces(p, h, actions, q, g)
    ensures forall e :: e in g.accepted ==> e in h.accepted || exists j :: 0 <= j < |actions| && Carries(e, actions[j])
    decreases |actions|
  {
    hide Pushed, ClosedQueue, Polling, Refused, Produce;
    if actions != [] {
      var next := Take(h, TurnOf(p, actions[0]));
      EventsCarryReports(Produce(p, h, actions[0]), next, actions[1..], q, g);
      forall e | e in g.accepted && e !in h.accepted
        ensures exists j :: 0 <= j < |actions| && Carries(e, actions[j])
      {
        if e in next.accepted {
          assert Carries(e, actions[0]);
        } else {
          var j :| 0 <= j < |actions[1..]| && Carries(e, actions[1..][j]);
          assert actions[j + 1] == actions[1..][j];
        }
      }
    }
  }

  // ---- Reading a sandbox file within the adapter's limit ----

  function Total(chunks: seq<seq<Byte>>): nat {
    if chunks == [] then 0 else |chunks[0]| + Total(chunks[1..])
  }

  function Joined(chunks: seq<seq<Byte>>): seq<Byte> {
    if chunks == [] then [] else chunks[0] + Joined(chunks[1..])
  }

  lemma {:induction false} JoinedPrefix(chunks: seq<seq<Byte>>, i: nat)
    requires i < |chunks|
    ensures Joined(chunks[..i + 1]) == Joined(chunks[..i]) + chunks[i]
    ensures Total(chunks[..i + 1]) == Total(chunks[..i]) + |chunks[i]|
    ensures |Joined(chunks[..i])| == Total(chunks[..i])
    ensures |Joined(chunks[..i + 1])| == Total(chunks[..i + 1]) <= Total(chunks)
  {
    if i == 0 {
      assert chunks[..1] == [chunks[0]] && chunks[..1][1..] == [];
    } else {
      JoinedPrefix(chunks[1..], i - 1);
      assert chunks[1..][..i - 1] == chunks[..i][1..] && chunks[1..][..i] == chunks[..i + 1][1..];
    }
  }

  /** The whole stream as one array, or nothing when it is longer than the limit. */
  method CollectBounded(chunks: seq<seq<Byte>>) returns (file: Option<array<Byte>>)
    ensures file.Some? <==> Total(chunks) <= MAX_FILE_BYTES
    ensures file.Some? ==> file.value[..] == Joined(chunks)
    ensures file.Some? ==> fresh(file.value)
  {
    var size := 0;
    var n := 0;
    while n < |chunks|
      invariant 0 <= n <= |chunks|
      invariant size == Total(chunks[..n]) <= MAX_FILE_BYTES
    {
      size := size + |chunks[n]|;
      JoinedPrefix(chunks, n);
      if size > MAX_FILE_BYTES { return None; }
      n := n + 1;
    }
    assert chunks[..|chunks|] == chunks;
    var bytes := new Byte[size];
    var offset := 0;
    n := 0;
    while n < |chunks|
      invariant 0 <= n <= |chunks|
      invariant offset == Total(chunks[..n]) <= size && bytes.Length == size
      invariant bytes[..offset] == Joined(chunks[..n])
    {
      JoinedPrefix(chunks, n);
      var chunk := chunks[n];
      ghost var before := bytes[..offset];
      forall i | 0 <= i < |chunk| { bytes[offset + i] := chunk[i]; }
      assert bytes[..offset + |chunk|] == before + chunk;
      offset := offset + |chunk|;
      n := n + 1;
    }
    assert bytes[..] == bytes[..offset];
    return Some(bytes);
  }
}
