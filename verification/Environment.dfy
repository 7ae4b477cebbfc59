/** What lies outside the program: the models, the network's answers, fresh names. */
module Environment {
  import opened Events
  import opened Bus
  import opened Blobs

  /** The vectoriser and the describer are deterministic total functions; `sqrt` is math.Sqrt. */
  datatype World = World(
    vectorise: string -> Vector, describe: string -> string, sqrt: real -> real, backend: Backend)

  /** Everything one delivery cannot decide for itself: which publishes, downloads and model calls succeed, the
      UUIDs drawn, the order ties come out in, whether the delivery fails to run, and whether its settlement is lost.
      A crashed delivery never reaches its handler's first effect, except that a chunker may have got through `cut`
      windows before it died. */
  datatype Answers = Answers(
    up: seq<bool>, getOk: bool, modelOk: bool, ids: seq<string>, results: seq<SearchResult>, uuid: string,
    crashed: bool, cut: nat, settleOk: bool)
  {
    /** How many of n windows the chunker gets through. */
    function Reached(n: nat): (k: nat)
      ensures k <= n && (!crashed ==> k == n)
    {
      if crashed && cut < n then cut else n
    }

    predicate Up(i: nat) {
      i < |up| && up[i]
    }

    function Id(i: nat): string {
      if i < |ids| then ids[i] else ""
    }
  }

  /** The ways the pipeline drops work for good. */
  datatype Loss = Unpublished(env: Envelope) | EmptyVector(env: Envelope) | Exhausted(env: Envelope)

  /** A handler's effect on the bus: what it published, how it settled, what it dropped. */
  datatype Reaction = Reaction(emits: seq<Pub>, settle: Settlement, losses: set<Loss>)

  function Attempt(topic: Topic, env: Envelope, up: bool): seq<Pub> {
    if up && ValidSubject(topic) then [Pub(topic, env)] else []
  }
}
