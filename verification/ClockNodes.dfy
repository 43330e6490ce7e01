/** The clock service of a node. */
module ClockNodes {
  import opened Wrappers
  import opened Clock

  class Topic {
    var messages: seq<Message>

    constructor ()
      ensures messages == []
    {
      messages := [];
    }

    method Send(message: Message)
      modifies this
      ensures messages == old(messages) + [message]
    {
      messages := messages + [message];
    }
  }

  class ClockNode {
    const precision: nat
    var lastTick: nat

    constructor (precision: nat)
      ensures this.precision == precision && lastTick == 0
    {
      this.precision, lastTick := precision, 0;
    }

    /** Waiting is left to the caller: the event goes out no earlier than `from`. */
    method ProcessMessage(message: Message, now: nat, topic: Topic) returns (from: nat)
      requires precision > 0
      modifies this, topic
      ensures var (event, at, tick) := Process(precision, old(lastTick), message, now);
        && from == at && lastTick == tick
        && topic.messages == old(topic.messages) + if event.Some? then [event.value] else []
    {
      from := now;
      var time := message.time / precision * precision;
      FloorBounds(message.time, precision);
      FloorBounds(now, precision);
      if time != 0 && time + WEEK < now {
        time := now / precision * precision;
        topic.Send(Message(Restart, time));
      } else if time != 0 && time + precision > now {
        from := time + precision;
        topic.Send(Message(Tick, time + precision));
        lastTick := time;
      } else if time != 0 && time > lastTick {
        topic.Send(Message(Tick, time + precision));
        lastTick := time;
      }
    }
  }
}
