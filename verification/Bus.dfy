/** The JetStream client: publishing, at-least-once delivery and settlement. */
module Bus {
  import opened Wrappers
  import opened Events

  /** A message is handed to its consumer at most this often. */
  const MAX_DELIVER := 5

  datatype Settlement = Acked | Nacked | Termed

  /** A message waiting for its consumer, with the deliveries it has left. */
  datatype Msg = Msg(topic: Topic, env: Envelope, left: nat)

  /** The subject "platform.replies." without a correlation ID is not valid, so nothing can be published there. */
  predicate ValidSubject(t: Topic) {
    t != Reply("")
  }

  /** Every topic has one consumer, except the dead letter queue, which has none. */
  function Arrival(p: Pub): multiset<Msg> {
    if p.topic == Dlq then multiset{} else multiset{Msg(p.topic, p.env, MAX_DELIVER)}
  }

  function Arrivals(pubs: seq<Pub>): multiset<Msg> {
    if pubs == [] then multiset{} else Arrivals(pubs[..|pubs| - 1]) + Arrival(pubs[|pubs| - 1])
  }

  lemma ArrivalsAppend(pubs: seq<Pub>, p: Pub)
    ensures Arrivals(pubs + [p]) == Arrivals(pubs) + Arrival(p)
  {
    assert (pubs + [p])[..|pubs|] == pubs;
  }

  lemma ArrivalsOne(p: Pub)
    ensures Arrivals([p]) == Arrival(p)
  {
    assert [p][..0] == [];
  }

  /** Each publish queues one message with all its deliveries, however often the same is published. */
  lemma {:induction false} ArrivalsCount(pubs: seq<Pub>, m: Msg)
    ensures Arrivals(pubs)[m] ==
            if m.topic != Dlq && m.left == MAX_DELIVER then multiset(pubs)[Pub(m.topic, m.env)] else 0
  {
    if pubs != [] {
      var init, p := pubs[..|pubs| - 1], pubs[|pubs| - 1];
      ArrivalsCount(init, m);
      assert pubs == init + [p];
      CountOneMore(init, p, Pub(m.topic, m.env));
    }
  }

  lemma CountOneMore(pubs: seq<Pub>, p: Pub, q: Pub)
    ensures multiset(pubs + [p])[q] == multiset(pubs)[q] + if p == q then 1 else 0
  {
  }

  lemma ArrivalsMember(pubs: seq<Pub>, m: Msg)
    ensures m in Arrivals(pubs) <==> Pub(m.topic, m.env) in pubs && m.topic != Dlq && m.left == MAX_DELIVER
  {
    ArrivalsCount(pubs, m);
  }

  /** What the server keeps of a delivered message: nothing once acknowledged or terminated; otherwise, if a
      delivery is left, the message with one delivery less. */
  function Redelivery(m: Msg, settled: Option<Settlement>): multiset<Msg> {
    if settled == Some(Acked) || settled == Some(Termed) || m.left <= 1 then multiset{}
    else multiset{m.(left := m.left - 1)}
  }

  /** A message as its handler sees it. Only the first settlement that reaches the server counts. */
  class Message {
    const env: Envelope
    const reachable: bool
    var settled: Option<Settlement>

    constructor (env: Envelope, reachable: bool)
      ensures this.env == env && this.reachable == reachable && settled == None
    {
      this.env := env;
      this.reachable := reachable;
      settled := None;
    }

    ghost function First(s: Settlement): Option<Settlement>
      reads this
    {
      if settled.None? && reachable then Some(s) else settled
    }

    method Settle(s: Settlement) returns (err: bool)
      modifies this
      ensures settled == old(First(s)) && err == (old(settled).Some? || !reachable)
    {
      if settled.Some? || !reachable {
        return true;
      }
      settled := Some(s);
      return false;
    }

    method Ack() returns (err: bool)
      modifies this
      ensures settled == old(First(Acked)) && err == (old(settled).Some? || !reachable)
    {
      err := Settle(Acked);
    }

    method Nack() returns (err: bool)
      modifies this
      ensures settled == old(First(Nacked)) && err == (old(settled).Some? || !reachable)
    {
      err := Settle(Nacked);
    }

    method Term() returns (err: bool)
      modifies this
      ensures settled == old(First(Termed)) && err == (old(settled).Some? || !reachable)
    {
      err := Settle(Termed);
    }
  }

  class Client {
    var stream: seq<Pub>
    var pending: multiset<Msg>

    constructor ()
      ensures stream == [] && pending == multiset{}
    {
      stream, pending := [], multiset{};
    }

    /** Appends to the stream and queues the message for the topic's consumer. `up` is the network's answer. */
    method Publish(topic: Topic, env: Envelope, up: bool) returns (err: bool)
      modifies this
      ensures err == !(up && ValidSubject(topic))
      ensures stream == old(stream) + (if err then [] else [Pub(topic, env)])
      ensures pending == old(pending) + Arrivals(if err then [] else [Pub(topic, env)])
    {
      if !up || topic == Reply("") {
        return true;
      }
      ArrivalsOne(Pub(topic, env));
      stream := stream + [Pub(topic, env)];
      if topic != Dlq {
        pending := pending + multiset{Msg(topic, env, MAX_DELIVER)};
      }
      return false;
    }

    /** The end of a delivery: the wrapper settles after the handler, which no longer changes anything if the
        handler's own settlement got through; then the server drops or requeues the message. */
    method Conclude(m: Msg, msg: Message, handlerErr: bool)
      requires m in pending && handlerErr == !msg.reachable
      requires msg.reachable ==> msg.settled.Some?
      modifies this`pending, msg
      ensures msg.settled == old(msg.settled)
      ensures pending == old(pending) - multiset{m} + Redelivery(m, msg.settled)
    {
      if handlerErr {
        var _ := msg.Nack();
      } else {
        var _ := msg.Ack();
      }
      pending := pending - multiset{m};
      if msg.settled != Some(Acked) && msg.settled != Some(Termed) && m.left > 1 {
        pending := pending + multiset{m.(left := m.left - 1)};
      }
    }
  }
}
