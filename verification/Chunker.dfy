/** The chunker worker: splits a text blob and publishes one event per non-blank window. */
module Chunker {
  import opened Wrappers
  import opened Events
  import opened Text
  import opened Windows
  import opened Bus
  import opened Blobs
  import opened Environment

  function Completed(env: Envelope, id: string, text: string, uuid: string): Envelope {
    var p := DecodeIngest(env.data);
    OrNil(NewEnvelope(env.tenantId, env.correlationId, ChunkCompleted, "worker.chunker",
                      EmbedRequestedPayload(p.documentId, id, text, p.blobURI, p.mimeType, env.typ), uuid))
  }

  function Emits(env: Envelope, texts: seq<string>, a: Answers): seq<Pub> {
    if texts == [] then []
    else
      var n := |texts| - 1;
      Emits(env, texts[..n], a) + Attempt(Ingress, Completed(env, a.Id(n), texts[n], a.uuid), a.Up(n))
  }

  function Losses(env: Envelope, texts: seq<string>, a: Answers): set<Loss> {
    set n | 0 <= n < |texts| && !a.Up(n) :: Unpublished(Completed(env, a.Id(n), texts[n], a.uuid))
  }

  /** The windows an envelope makes the worker publish. */
  function Texts(b: Backend, objects: Objects, env: Envelope): seq<string> {
    var content := Download(b, objects, DecodeIngest(env.data).blobURI);
    if env.typ != IngestRequested || content.None? then [] else Published(content.value)
  }

  function React(b: Backend, objects: Objects, env: Envelope, a: Answers): Reaction {
    if env.typ != IngestRequested then Reaction([], Acked, {})
    else
      var content := Download(b, objects, DecodeIngest(env.data).blobURI);
      if !a.getOk || content.None? then Reaction([], Nacked, {})
      else
        var all := Published(content.value);
        var texts := all[..a.Reached(|all|)];
        Reaction(Emits(env, texts, a), Acked, Losses(env, texts, a))
  }

  class Service {
    const bus: Client
    const blobs: MemoryStorage

    constructor (bus: Client, blobs: MemoryStorage)
      ensures this.bus == bus && this.blobs == blobs
    {
      this.bus := bus;
      this.blobs := blobs;
    }

    /** One window: `sent` is what this delivery has put on a bus that held `stream` and `pending` before it. */
    method PublishWindow(env: Envelope, p: Payload, text: string, n: nat, a: Answers,
                         ghost stream: seq<Pub>, ghost pending: multiset<Msg>, ghost sent: seq<Pub>)
      requires p == DecodeIngest(env.data)
      requires bus.stream == stream + sent && bus.pending == pending + Arrivals(sent)
      modifies bus
      ensures var out := Attempt(Ingress, Completed(env, a.Id(n), text, a.uuid), a.Up(n));
              bus.stream == stream + (sent + out) && bus.pending == pending + Arrivals(sent + out)
    {
      var payload := EmbedRequestedPayload(p.documentId, a.Id(n), text, p.blobURI, p.mimeType, env.typ);
      var out := NewEnvelope(env.tenantId, env.correlationId, ChunkCompleted, "worker.chunker", payload, a.uuid);
      var failed := bus.Publish(Ingress, OrNil(out), a.Up(n));
      ArrivalsAppend(sent, Pub(Ingress, OrNil(out)));
      ArrivalsOne(Pub(Ingress, OrNil(out)));
      assert sent + [] == sent;
    }

    method HandleTask(msg: Message, a: Answers) returns (err: bool)
      requires msg.settled.None?
      modifies bus, msg
      ensures var r := React(Memory, blobs.store, msg.env, a);
              && bus.stream == old(bus.stream) + r.emits
              && bus.pending == old(bus.pending) + Arrivals(r.emits)
              && msg.settled == (if msg.reachable then Some(r.settle) else None)
      ensures err == !msg.reachable
    {
      var env := msg.env;
      if env.typ != IngestRequested {
        err := msg.Ack();
        return;
      }
      var p := DecodeIngest(env.data);
      var content := blobs.Get(p.blobURI);
      if !a.getOk || content.None? {
        err := msg.Nack();
        return;
      }
      var chunks := ChunkText(content.value, CHUNK_SIZE, OVERLAP);
      PublishWindows(env, p, chunks, a);
      err := msg.Ack();
    }

    /** The loop over the windows; `n` counts those published or tried, and the loop ends where the worker dies. */
    method PublishWindows(env: Envelope, p: Payload, chunks: seq<string>, a: Answers)
      requires p == DecodeIngest(env.data)
      modifies bus
      ensures var all := NonBlank(chunks);
              var sent := Emits(env, all[..a.Reached(|all|)], a);
              bus.stream == old(bus.stream) + sent && bus.pending == old(bus.pending) + Arrivals(sent)
    {
      var i, n := 0, 0;
      NothingSent(env, chunks, a, bus.stream, bus.pending);
      while i < |chunks| && !(a.crashed && n == a.cut)
        invariant i <= |chunks| && n == |NonBlank(chunks[..i])| && (a.crashed ==> n <= a.cut)
        invariant Sent(env, chunks, i, a, old(bus.stream), old(bus.pending))
      {
        n := PublishNext(env, p, chunks, i, n, a, old(bus.stream), old(bus.pending));
        i := i + 1;
      }
      WhereItStopped(chunks, i, a);
    }

    /** The bus holds what it held before, and what became of the first i windows. */
    ghost predicate Sent(env: Envelope, chunks: seq<string>, i: nat, a: Answers, stream: seq<Pub>,
                         pending: multiset<Msg>)
      requires i <= |chunks|
      reads bus
    {
      var sent := Emits(env, NonBlank(chunks[..i]), a);
      bus.stream == stream + sent && bus.pending == pending + Arrivals(sent)
    }

    method PublishNext(env: Envelope, p: Payload, chunks: seq<string>, i: nat, n: nat, a: Answers,
                       ghost stream: seq<Pub>, ghost pending: multiset<Msg>)
      returns (k: nat)
      requires p == DecodeIngest(env.data) && i < |chunks| && n == |NonBlank(chunks[..i])|
      requires Sent(env, chunks, i, a, stream, pending)
      modifies bus
      ensures Sent(env, chunks, i + 1, a, stream, pending)
      ensures k == |NonBlank(chunks[..i + 1])| <= n + 1
    {
      OneMoreWindow(env, chunks, i, a);
      if TrimSpace(chunks[i]) == "" {
        return n;
      }
      PublishWindow(env, p, chunks[i], n, a, stream, pending, Emits(env, NonBlank(chunks[..i]), a));
      return n + 1;
    }
  }

  /** The windows handled before the loop ended are those the worker gets through. */
  lemma WhereItStopped(chunks: seq<string>, i: nat, a: Answers)
    requires i <= |chunks| && (a.crashed ==> |NonBlank(chunks[..i])| <= a.cut)
    requires i < |chunks| ==> a.crashed && |NonBlank(chunks[..i])| == a.cut
    ensures NonBlank(chunks[..i]) == NonBlank(chunks)[..a.Reached(|NonBlank(chunks)|)]
  {
    NonBlankPrefix(chunks, i);
    assert i == |chunks| ==> chunks[..i] == chunks;
  }

  lemma NothingSent(env: Envelope, chunks: seq<string>, a: Answers, stream: seq<Pub>, pending: multiset<Msg>)
    ensures NonBlank(chunks[..0]) == []
    ensures var sent := Emits(env, NonBlank(chunks[..0]), a);
            stream + sent == stream && pending + Arrivals(sent) == pending
  {
  }

  lemma OneMoreWindow(env: Envelope, chunks: seq<string>, i: nat, a: Answers)
    requires i < |chunks|
    ensures var before, after := NonBlank(chunks[..i]), NonBlank(chunks[..i + 1]);
            if TrimSpace(chunks[i]) == "" then after == before
            else
              var last := Attempt(Ingress, Completed(env, a.Id(|before|), chunks[i], a.uuid), a.Up(|before|));
              && |after| == |before| + 1
              && Emits(env, after, a) == Emits(env, before, a) + last
              && Arrivals(Emits(env, after, a)) == Arrivals(Emits(env, before, a)) + Arrivals(last)
  {
    assert chunks[..i + 1][..i] == chunks[..i];
    EmitsAppend(env, NonBlank(chunks[..i]), chunks[i], a);
  }

  lemma EmitsAppend(env: Envelope, texts: seq<string>, t: string, a: Answers)
    ensures var last := Attempt(Ingress, Completed(env, a.Id(|texts|), t, a.uuid), a.Up(|texts|));
            && Emits(env, texts + [t], a) == Emits(env, texts, a) + last
            && Arrivals(Emits(env, texts + [t], a)) == Arrivals(Emits(env, texts, a)) + Arrivals(last)
  {
    assert (texts + [t])[..|texts|] == texts;
    var head := Emits(env, texts, a);
    var last := Attempt(Ingress, Completed(env, a.Id(|texts|), t, a.uuid), a.Up(|texts|));
    if last == [] {
      assert head + last == head;
    } else {
      ArrivalsAppend(head, last[0]);
      ArrivalsOne(last[0]);
      assert last == [last[0]];
    }
  }

  /** Window n was published under the UUID drawn for it. */
  predicate SentAs(env: Envelope, texts: seq<string>, a: Answers, p: Pub, n: int) {
    0 <= n < |texts| && a.Up(n) && p == Pub(Ingress, Completed(env, a.Id(n), texts[n], a.uuid))
  }

  /** Exactly the windows whose publish succeeded are on the bus. */
  lemma {:induction false} EmitsMembers(env: Envelope, texts: seq<string>, a: Answers, p: Pub)
    ensures p in Emits(env, texts, a) <==> exists n :: SentAs(env, texts, a, p, n)
  {
    if texts != [] {
      var n := |texts| - 1;
      EmitsMembers(env, texts[..n], a, p);
      assert forall m | m != n :: SentAs(env, texts[..n], a, p, m) <==> SentAs(env, texts, a, p, m);
      assert SentAs(env, texts, a, p, n) <==>
             p in Attempt(Ingress, Completed(env, a.Id(n), texts[n], a.uuid), a.Up(n));
      assert !SentAs(env, texts[..n], a, p, n);
    }
  }
}
