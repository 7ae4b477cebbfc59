/** Routing: the static classifier and the router's handler. */
module Router {
  import opened Wrappers
  import opened Events
  import opened Text
  import opened Bus
  import opened Environment

  datatype Decision = Forward(topic: Topic) | Drop | NoRoute

  /** The static rule engine. It never drops. */
  function Classify(env: Envelope): Decision {
    match env.typ
    case IngestRequested =>
      var p := DecodeIngest(env.data);
      Forward(RouteByContent(p.mimeType, p.blobURI))
    case SearchRequested =>
      var p := DecodeSearch(env.data);
      Forward(RouteByContent(p.mimeType, p.blobURI))
    case VisionCompleted => Forward(TaskEmbed)
    case ChunkCompleted => Forward(TaskEmbed)
    case EmbedCompleted => Forward(TaskEngine)
    case _ => NoRoute
  }

  function RouteByContent(mime: string, blob: string): (t: Topic)
    ensures t in {TaskVision, TaskChunk, TaskEmbed}
  {
    if "image/" <= mime then TaskVision
    else if blob != "" && Contains(mime, "text/") then TaskChunk
    else TaskEmbed
  }

  function React(env: Envelope, a: Answers): Reaction {
    match Classify(env)
    case NoRoute => Reaction(Attempt(Dlq, env, a.Up(0)), Termed, {})
    case Drop => Reaction([], Acked, {})
    case Forward(t) =>
      var sent := Attempt(t, env, a.Up(0));
      Reaction(sent, if sent == [] then Nacked else Acked, {})
  }

  class Service {
    const bus: Client

    constructor (bus: Client)
      ensures this.bus == bus
    {
      this.bus := bus;
    }

    method HandleEvent(msg: Message, a: Answers) returns (err: bool)
      requires msg.settled.None?
      modifies bus, msg
      ensures var r := React(msg.env, a);
              && bus.stream == old(bus.stream) + r.emits
              && bus.pending == old(bus.pending) + Arrivals(r.emits)
              && msg.settled == (if msg.reachable then Some(r.settle) else None)
      ensures err == !msg.reachable
    {
      var decision := Classify(msg.env);
      if decision == NoRoute {
        var _ := bus.Publish(Dlq, msg.env, a.Up(0));
        err := msg.Term();
        return;
      }
      if decision == Drop {
        err := msg.Ack();
        return;
      }
      var failed := bus.Publish(decision.topic, msg.env, a.Up(0));
      if failed {
        err := msg.Nack();
        return;
      }
      err := msg.Ack();
    }
  }
}
