/** The clock: every message on the topic makes the node that gets it send the next one. Times in milliseconds;
    messages are delivered in order and once, each to any of the nodes. */
module Clock {
  import opened Wrappers

  const WEEK := 604800000

  datatype Kind = Init | Tick | Restart

  datatype Message = Message(kind: Kind, time: nat)

  function Floor(time: nat, precision: nat): (r: nat)
    requires precision > 0
    ensures r <= time < r + precision
  {
    FloorBounds(time, precision);
    time / precision * precision
  }

  lemma FloorBounds(time: nat, precision: nat)
    requires precision > 0
    ensures 0 <= time / precision * precision <= time < time / precision * precision + precision
  {
    assert time == precision * (time / precision) + time % precision;
  }

  /** What a node with this last tick makes of a message: what it sends, from which time on, and its last tick. Time
      zero counts as no time. */
  function Process(precision: nat, lastTick: nat, message: Message, now: nat): (Option<Message>, nat, nat)
    requires precision > 0
  {
    var time := Floor(message.time, precision);
    if time == 0 then (None, now, lastTick)
    else if time + WEEK < now then (Some(Message(Restart, Floor(now, precision))), now, lastTick)
    else if time + precision > now then (Some(Message(Tick, time + precision)), time + precision, time)
    else if time > lastTick then (Some(Message(Tick, time + precision)), now, time)
    else (None, now, lastTick)
  }

  /** A message delivered to a node at a time; what it leads to is sent then or, after waiting, later. */
  datatype Delivery = Delivery(node: nat, now: nat, sent: nat)

  /** The topic, the time each message was sent at, how many were delivered, and the last tick of each node that has
      one; a node just started has 0. */
  datatype World = World(topic: seq<Message>, sentAt: seq<nat>, delivered: nat, lastTicks: map<nat, nat>)

  ghost predicate Valid(w: World) { |w.sentAt| == |w.topic| && w.delivered <= |w.topic| }

  function LastTick(w: World, node: nat): nat { if node in w.lastTicks then w.lastTicks[node] else 0 }

  function Deliver(precision: nat, w: World, d: Delivery): World
    requires precision > 0
  {
    if w.delivered >= |w.topic| then w
    else
      var (event, from, lastTick) := Process(precision, LastTick(w, d.node), w.topic[w.delivered], d.now);
      World(if event.Some? then w.topic + [event.value] else w.topic,
            if event.Some? then w.sentAt + [d.sent] else w.sentAt,
            w.delivered + 1, w.lastTicks[d.node := lastTick])
  }

  function Started(time: nat, at: nat): World { World([Message(Init, time)], [at], 0, map[]) }

  function Run(precision: nat, start: World, deliveries: seq<Delivery>): World
    requires precision > 0
  {
    if deliveries == [] then start
    else Deliver(precision, Run(precision, start, deliveries[..|deliveries|-1]), deliveries[|deliveries|-1])
  }

  /** A message is delivered after it was sent, and its successor sent after the wait. */
  ghost predicate Timely(precision: nat, start: World, deliveries: seq<Delivery>)
    requires precision > 0 && Valid(start)
  {
    deliveries == [] ||
    var init, d := deliveries[..|deliveries|-1], deliveries[|deliveries|-1];
    var w := Run(precision, start, init);
    && Timely(precision, start, init)
    && (Valid(w) && w.delivered < |w.topic| ==>
          w.sentAt[w.delivered] <= d.now
            && Process(precision, LastTick(w, d.node), w.topic[w.delivered], d.now).1 <= d.sent)
  }

  predicate Divides(precision: nat, time: nat)
    requires precision > 0
  {
    time % precision == 0
  }

  /** How a message may follow another. */
  ghost predicate Follows(precision: nat, before: Message, after: Message, sent: nat)
    requires precision > 0
  {
    && Divides(precision, after.time) && after.time > before.time && after.time <= sent
    && match after.kind
       case Init => false
       case Tick => after.time == Floor(before.time, precision) + precision
       case Restart => Floor(before.time, precision) + WEEK < sent
  }

  /** One undelivered message, the last; each message but the first follows the one before; nodes are behind. */
  ghost predicate Ticking(precision: nat, w: World)
    requires precision > 0
  {
    && Valid(w) && |w.topic| == w.delivered + 1
    && w.topic[0].time >= precision
    && (forall k :: 1 <= k < |w.topic| ==> Follows(precision, w.topic[k-1], w.topic[k], w.sentAt[k]))
    && (forall node <- w.lastTicks :: w.lastTicks[node] < Floor(w.topic[w.delivered].time, precision))
  }

  lemma FloorOfMultiple(time: nat, precision: nat)
    requires precision > 0
    ensures Divides(precision, time) ==> Floor(time, precision) == time
    ensures Divides(precision, Floor(time, precision)) && Divides(precision, Floor(time, precision) + precision)
    ensures time >= precision ==> Floor(time, precision) >= precision
  {
    FloorIsSelf(time, precision);
    ProductDivides(time / precision, precision);
    NextProductDivides(time / precision, precision);
    FloorAtLeast(time, precision);
    hide Divides;
  }

  lemma FloorIsSelf(time: nat, precision: nat)
    requires precision > 0
    ensures Divides(precision, time) ==> Floor(time, precision) == time
  {
    assert time == precision * (time / precision) + time % precision;
  }

  lemma FloorAtLeast(time: nat, precision: nat)
    requires precision > 0
    ensures time >= precision ==> Floor(time, precision) >= precision
  {
    var q := time / precision;
    assert q == 0 ==> q * precision == 0;
    assert q >= 1 ==> q * precision >= precision;
  }

  lemma NextProductDivides(q: nat, precision: nat)
    requires precision > 0
    ensures Divides(precision, q * precision + precision)
  {
    ProductDivides(q + 1, precision);
    assert (q + 1) * precision == q * precision + precision;
  }

  lemma ProductDivides(q: nat, precision: nat)
    requires precision > 0
    ensures Divides(precision, q * precision)
  {
    var r, d := (q * precision) % precision, q - q * precision / precision;
    assert precision * d == r;
    assert d >= 1 ==> precision * d >= precision;
    assert d <= -1 ==> precision * d < 0;
  }

  lemma NextMultiple(precision: nat, a: nat, b: nat)
    requires precision > 0 && Divides(precision, a) && Divides(precision, b) && a < b
    ensures a + precision <= b
  {
    var d := b / precision - a / precision;
    assert a == precision * (a / precision) && b == precision * (b / precision);
    assert b - a == precision * d;
    assert d <= 0 ==> precision * d <= 0;
    assert d >= 1 ==> precision * d >= precision;
  }

  /** The one step: whatever branch a node takes, its message follows, and the node stays behind it. */
  lemma SuccessorFollows(precision: nat, lastTick: nat, message: Message, now: nat, sent: nat)
    requires 0 < precision <= WEEK + 1 && message.time >= precision && lastTick < Floor(message.time, precision)
    requires Process(precision, lastTick, message, now).1 <= sent
    ensures var (event, _, tick) := Process(precision, lastTick, message, now);
      && event.Some? && Follows(precision, message, event.value, sent)
      && Floor(message.time, precision) < Floor(event.value.time, precision)
      && tick <= Floor(message.time, precision)
  {
    var time := Floor(message.time, precision);
    FloorOfMultiple(message.time, precision);
    hide Floor, Divides;
    if time + WEEK < now {
      FloorOfMultiple(now, precision);
      var again := Floor(now, precision);
      NextMultiple(precision, time, again);
      FloorOfMultiple(again, precision);
      assert Follows(precision, message, Message(Restart, again), sent);
    } else {
      FloorOfMultiple(time + precision, precision);
      assert Follows(precision, message, Message(Tick, time + precision), sent);
    }
  }

  lemma TicksOn(precision: nat, w: World, d: Delivery)
    requires 0 < precision <= WEEK + 1 && Ticking(precision, w)
    requires Process(precision, LastTick(w, d.node), w.topic[w.delivered], d.now).1 <= d.sent
    ensures Ticking(precision, Deliver(precision, w, d))
  {
    var message := w.topic[w.delivered];
    if w.delivered > 0 { Grows(precision, w, w.delivered); }
    FloorOfMultiple(message.time, precision);
    hide Floor, Process, Follows, Divides;
    SuccessorFollows(precision, LastTick(w, d.node), message, d.now, d.sent);
    var next := Deliver(precision, w, d);
    forall k | 1 <= k < |next.topic| ensures Follows(precision, next.topic[k-1], next.topic[k], next.sentAt[k]) {
      if k < |w.topic| {
        assert Follows(precision, w.topic[k-1], w.topic[k], w.sentAt[k]);
      }
    }
  }

  lemma {:induction false} Grows(precision: nat, w: World, k: nat)
    requires precision > 0 && Ticking(precision, w) && 0 < k < |w.topic|
    ensures w.topic[k].time > w.topic[0].time
  {
    assert Follows(precision, w.topic[k-1], w.topic[k], w.sentAt[k]);
    if k > 1 {
      Grows(precision, w, k - 1);
    }
  }

  /** Whatever nodes the messages go to, one just started included: the topic grows by exactly one message for each
      delivery; times are multiples of the precision, strictly grow and are never sent early; none is skipped but by a
      restart after more than 7 days. */
  lemma {:induction false} ClockTicks(precision: nat, time: nat, at: nat, deliveries: seq<Delivery>)
    requires 0 < precision <= WEEK + 1 && precision <= time
    requires Timely(precision, Started(time, at), deliveries)
    ensures var w := Run(precision, Started(time, at), deliveries);
      && |w.topic| == |w.sentAt| == |deliveries| + 1
      && Ticking(precision, w)
  {
    if deliveries == [] {
      FloorOfMultiple(time, precision);
    } else {
      var init, d := deliveries[..|deliveries|-1], deliveries[|deliveries|-1];
      ClockTicks(precision, time, at, init);
      TicksOn(precision, Run(precision, Started(time, at), init), d);
    }
  }

  /** A clock started before its first tick never runs: the first message has a successor exactly when its time is at
      least the precision. */
  lemma StartsIff(precision: nat, time: nat, at: nat, d: Delivery)
    requires 0 < precision
    ensures |Deliver(precision, Started(time, at), d).topic| == 2 <==> time >= precision
  {
    FloorOfMultiple(time, precision);
    FloorBounds(time, precision);
    assert time < precision ==> time / precision == 0;
  }

  /** With a coarser precision a restart can send the same time again. */
  lemma CoarseClockRepeats(precision: nat, at: nat)
    requires precision > WEEK + 1
    ensures var d := Delivery(0, precision + WEEK + 1, precision + WEEK + 1);
      Deliver(precision, Started(precision, at), d).topic == [Message(Init, precision), Message(Restart, precision)]
  {
    FloorOfMultiple(precision, precision);
    FloorBounds(precision, precision);
    FloorBounds(precision + WEEK + 1, precision);
    var q := (precision + WEEK + 1) / precision;
    assert q >= 2 ==> q * precision >= 2 * precision;
    assert q <= 0 ==> q * precision <= 0;
    assert precision / precision == 1;
  }
}
