/** The gateway's reply router, step by step: callers and the reply handler share a locked map of channels, and the
    handler's lookup and its send are two steps between which anything may happen. */
module ReplyRouter {
  import opened Wrappers
  import opened Events
  import opened Gateway

  /** A channel of capacity one. */
  datatype Chan = Chan(buf: Option<Envelope>, closed: bool)

  /** How far a caller is: registered, published and waiting, out of its select, entry deleted, channel closed. */
  datatype Phase = Registered | Waiting | Leaving | Deleted | Done

  datatype Caller = Caller(tenant: string, ch: nat, phase: Phase, got: Option<Envelope>)

  /** The one goroutine that handles replies. A send on a closed channel takes the process down. */
  datatype Handler = Idle | Holding(env: Envelope, ch: nat) | Panicked

  datatype State = State(
    pendingReqs: map<string, nat>, chans: seq<Chan>, callers: map<string, Caller>, handler: Handler)

  datatype Label =
    | Register(corr: string, tenant: string)
    | Publish(corr: string, ok: bool)
    | Receive(corr: string)
    | TimeOut(corr: string)
    | Delete(corr: string)
    | Close(corr: string)
    | Lookup(env: Envelope)
    | Send

  const INIT := State(map[], [], map[], Idle)

  predicate At(s: State, corr: string, phase: Phase) {
    corr in s.callers && s.callers[corr].phase == phase
  }

  function ChanAt(s: State, ch: nat): Chan {
    if ch < |s.chans| then s.chans[ch] else Chan(None, false)
  }

  function WithChan(s: State, ch: nat, c: Chan): State {
    s.(chans := if ch < |s.chans| then s.chans[ch := c] else s.chans)
  }

  /** Correlation IDs are fresh, and nobody replies to a search that has not been published. A send waits while its
      channel is full and open. */
  predicate Enabled(s: State, l: Label) {
    && s.handler != Panicked
    && match l
       case Register(corr, _) => corr !in s.callers
       case Publish(corr, _) => At(s, corr, Registered)
       case Receive(corr) => At(s, corr, Waiting) && ChanAt(s, s.callers[corr].ch).buf.Some?
       case TimeOut(corr) => At(s, corr, Waiting)
       case Delete(corr) => At(s, corr, Leaving)
       case Close(corr) => At(s, corr, Deleted)
       case Lookup(env) => s.handler.Idle? && !At(s, env.correlationId, Registered)
       case Send => s.handler.Holding? && (ChanAt(s, s.handler.ch).closed || ChanAt(s, s.handler.ch).buf.None?)
  }

  function Moved(s: State, corr: string, c: Caller): State {
    s.(callers := s.callers[corr := c])
  }

  function Next(s: State, l: Label): State
    requires Enabled(s, l)
  {
    match l
    case Register(corr, tenant) =>
      Moved(s.(pendingReqs := s.pendingReqs[corr := |s.chans|], chans := s.chans + [Chan(None, false)]),
            corr, Caller(tenant, |s.chans|, Registered, None))
    case Publish(corr, ok) => Moved(s, corr, s.callers[corr].(phase := if ok then Waiting else Leaving))
    case Receive(corr) =>
      var c := s.callers[corr];
      var ch := ChanAt(s, c.ch);
      Moved(WithChan(s, c.ch, ch.(buf := None)), corr, c.(phase := Leaving, got := ch.buf))
    case TimeOut(corr) => Moved(s, corr, s.callers[corr].(phase := Leaving))
    case Delete(corr) =>
      Moved(s.(pendingReqs := s.pendingReqs - {corr}), corr, s.callers[corr].(phase := Deleted))
    case Close(corr) =>
      var c := s.callers[corr];
      Moved(WithChan(s, c.ch, ChanAt(s, c.ch).(closed := true)), corr, c.(phase := Done))
    case Lookup(env) =>
      if env.correlationId in s.pendingReqs then s.(handler := Holding(env, s.pendingReqs[env.correlationId])) else s
    case Send =>
      var ch := ChanAt(s, s.handler.ch);
      if ch.closed then s.(handler := Panicked)
      else WithChan(s, s.handler.ch, ch.(buf := Some(s.handler.env))).(handler := Idle)
  }

  /** A caller owns its channel, which is closed last of all and only ever carries replies to that caller. */
  ghost predicate CallerOk(s: State, corr: string, c: Caller) {
    && c.ch < |s.chans|
    && (ChanAt(s, c.ch).closed <==> c.phase.Done?)
    && (corr in s.pendingReqs <==> c.phase in {Registered, Waiting, Leaving})
    && (corr in s.pendingReqs ==> s.pendingReqs[corr] == c.ch)
    && (ChanAt(s, c.ch).buf.Some? ==> ChanAt(s, c.ch).buf.value.correlationId == corr)
    && (c.got.Some? ==> c.got.value.correlationId == corr)
    && (c.phase.Registered? ==> ChanAt(s, c.ch).buf.None?)
  }

  ghost predicate HandlerOk(s: State) {
    s.handler.Holding? ==>
      && s.handler.env.correlationId in s.callers
      && s.callers[s.handler.env.correlationId].ch == s.handler.ch
      && !s.callers[s.handler.env.correlationId].phase.Registered?
  }

  ghost predicate Inv(s: State) {
    && (forall corr | corr in s.callers :: CallerOk(s, corr, s.callers[corr]))
    && (forall corr | corr in s.pendingReqs :: corr in s.callers)
    && (forall c, d | c in s.callers && d in s.callers && s.callers[c].ch == s.callers[d].ch :: c == d)
    && HandlerOk(s)
  }

  /** Whose caller record or channel a step writes. */
  function Touched(s: State, l: Label): Option<string> {
    match l
    case Lookup(_) => None
    case Send => if s.handler.Holding? then Some(s.handler.env.correlationId) else None
    case _ => Some(l.corr)
  }

  lemma Untouched(s: State, l: Label, corr: string)
    requires Inv(s) && Enabled(s, l) && corr in s.callers && Touched(s, l) != Some(corr)
    ensures var z := Next(s, l);
            && corr in z.callers && z.callers[corr] == s.callers[corr] && |s.chans| <= |z.chans|
            && ChanAt(z, s.callers[corr].ch) == ChanAt(s, s.callers[corr].ch)
            && (corr in z.pendingReqs <==> corr in s.pendingReqs)
            && (corr in s.pendingReqs ==> z.pendingReqs[corr] == s.pendingReqs[corr])
  {
    var c := s.callers[corr];
    assert CallerOk(s, corr, c);
    assert forall d | d in s.callers && d != corr :: s.callers[d].ch != c.ch;
  }

  lemma CallerOkNext(s: State, l: Label, corr: string)
    requires Inv(s) && Enabled(s, l) && corr in Next(s, l).callers
    ensures CallerOk(Next(s, l), corr, Next(s, l).callers[corr])
  {
    if corr in s.callers {
      assert CallerOk(s, corr, s.callers[corr]);
      if Touched(s, l) != Some(corr) {
        Untouched(s, l, corr);
      }
    }
  }

  lemma OwnersNext(s: State, l: Label)
    requires Inv(s) && Enabled(s, l)
    ensures var z := Next(s, l);
            && (forall corr | corr in z.pendingReqs :: corr in z.callers)
            && (forall c, d | c in z.callers && d in z.callers && z.callers[c].ch == z.callers[d].ch :: c == d)
  {
    assert forall c | c in s.callers :: CallerOk(s, c, s.callers[c]);
  }

  lemma HandlerOkNext(s: State, l: Label)
    requires Inv(s) && Enabled(s, l)
    ensures HandlerOk(Next(s, l))
  {
    if l.Lookup? && l.env.correlationId in s.callers {
      assert CallerOk(s, l.env.correlationId, s.callers[l.env.correlationId]);
    }
  }

  /** Every step keeps the invariant. */
  lemma InvNext(s: State, l: Label)
    requires Inv(s) && Enabled(s, l)
    ensures Inv(Next(s, l))
  {
    forall corr | corr in Next(s, l).callers ensures CallerOk(Next(s, l), corr, Next(s, l).callers[corr]) {
      CallerOkNext(s, l, corr);
    }
    OwnersNext(s, l);
    HandlerOkNext(s, l);
  }

  function After(run: seq<Label>): State {
    if run == [] then INIT
    else
      var s := After(run[..|run| - 1]);
      if Enabled(s, run[|run| - 1]) then Next(s, run[|run| - 1]) else s
  }

  ghost predicate IsRun(run: seq<Label>) {
    run == [] || (IsRun(run[..|run| - 1]) && Enabled(After(run[..|run| - 1]), run[|run| - 1]))
  }

  lemma {:induction false} RunPrefix(run: seq<Label>, n: nat)
    requires IsRun(run) && n <= |run|
    ensures IsRun(run[..n]) && Inv(After(run[..n]))
    ensures n < |run| ==> Enabled(After(run[..n]), run[n]) && After(run[..n + 1]) == Next(After(run[..n]), run[n])
  {
    var last := |run| - 1;
    if n < last {
      RunPrefix(run[..last], n);
      assert run[..last][..n] == run[..n] && run[..last][..n + 1] == run[..n + 1];
    } else {
      InvReachable(run);
      assert run[..|run|] == run;
      if n == last {
        InvReachable(run[..n]);
        assert run[..n + 1] == run;
      }
    }
  }

  lemma {:induction false} InvReachable(run: seq<Label>)
    requires IsRun(run)
    ensures Inv(After(run))
  {
    if run != [] {
      var n := |run| - 1;
      InvReachable(run[..n]);
      InvNext(After(run[..n]), run[n]);
    }
  }

  ghost predicate Did(run: seq<Label>, l: Label) {
    exists i :: 0 <= i < |run| && run[i] == l
  }

  ghost predicate DidRegister(run: seq<Label>, corr: string) {
    exists i :: 0 <= i < |run| && run[i].Register? && run[i].corr == corr
  }

  lemma DidSplit(run: seq<Label>, l: Label, corr: string)
    requires run != []
    ensures var init, last := run[..|run| - 1], run[|run| - 1];
            && (Did(run, l) <==> Did(init, l) || last == l)
            && (DidRegister(run, corr) <==> DidRegister(init, corr) || (last.Register? && last.corr == corr))
  {
    var init, last := run[..|run| - 1], run[|run| - 1];
    assert forall i | 0 <= i < |init| :: run[i] == init[i];
    if Did(init, l) {
      var i :| 0 <= i < |init| && init[i] == l;
      assert run[i] == l;
    }
    if DidRegister(init, corr) {
      var i :| 0 <= i < |init| && init[i].Register? && init[i].corr == corr;
      assert run[i].Register? && run[i].corr == corr;
    }
  }

  lemma PendingNext(s: State, l: Label, corr: string)
    requires Inv(s) && Enabled(s, l)
    ensures corr in Next(s, l).callers <==> corr in s.callers || (l.Register? && l.corr == corr)
    ensures corr in Next(s, l).pendingReqs <==>
            (corr in s.pendingReqs && l != Delete(corr)) || (l.Register? && l.corr == corr)
  {
  }

  /** After any run the map holds exactly the correlation IDs of the searches that were registered and not yet cleaned
      up. */
  lemma {:induction false} PendingIffUncleaned(run: seq<Label>, corr: string)
    requires IsRun(run)
    ensures corr in After(run).callers <==> DidRegister(run, corr)
    ensures Did(run, Delete(corr)) ==> DidRegister(run, corr)
    ensures corr in After(run).pendingReqs <==> DidRegister(run, corr) && !Did(run, Delete(corr))
  {
    if run != [] {
      var n := |run| - 1;
      PendingIffUncleaned(run[..n], corr);
      InvReachable(run[..n]);
      PendingNext(After(run[..n]), run[n], corr);
      DidSplit(run, Delete(corr), corr);
    }
  }

  /** A search is published only while its entry is in the map, pointing at its own open channel. */
  lemma RegisteredBeforePublish(run: seq<Label>, n: nat)
    requires IsRun(run) && n < |run| && run[n].Publish?
    ensures var s, corr := After(run[..n]), run[n].corr;
            && corr in s.pendingReqs && corr in s.callers && s.pendingReqs[corr] == s.callers[corr].ch
            && !ChanAt(s, s.pendingReqs[corr]).closed
  {
    RunPrefix(run, n);
    var s := After(run[..n]);
    assert CallerOk(s, run[n].corr, s.callers[run[n].corr]);
  }

  /** A search only ever receives a reply that carries its own correlation ID. */
  lemma ReceivesOwnReply(run: seq<Label>, n: nat)
    requires IsRun(run) && n < |run| && run[n].Receive?
    ensures var s', corr := After(run[..n + 1]), run[n].corr;
            corr in s'.callers && s'.callers[corr].got.Some? && s'.callers[corr].got.value.correlationId == corr
  {
    RunPrefix(run, n);
    var s := After(run[..n]);
    assert CallerOk(s, run[n].corr, s.callers[run[n].corr]);
  }

  /** A channel is closed only after its entry is gone, and no entry ever leads to a closed channel. */
  lemma ClosedAfterDeleted(run: seq<Label>, n: nat)
    requires IsRun(run) && n < |run| && run[n].Close?
    ensures run[n].corr !in After(run[..n]).pendingReqs && Did(run[..n], Delete(run[n].corr))
    ensures var s' := After(run[..n + 1]);
            forall corr | corr in s'.pendingReqs :: !ChanAt(s', s'.pendingReqs[corr]).closed
  {
    RunPrefix(run, n);
    var s, s' := After(run[..n]), After(run[..n + 1]);
    assert CallerOk(s, run[n].corr, s.callers[run[n].corr]);
    PendingIffUncleaned(run[..n], run[n].corr);
    RunPrefix(run, n + 1);
    forall corr | corr in s'.pendingReqs ensures !ChanAt(s', s'.pendingReqs[corr]).closed {
      assert CallerOk(s', corr, s'.callers[corr]);
    }
  }

  // When a send panics.

  /** Step i looks a reply up and finds its caller; the send that belongs to it is step n. */
  ghost predicate SendOf(run: seq<Label>, i: nat, n: nat) {
    && i < n < |run| && run[i].Lookup? && run[i].env.correlationId in After(run[..i]).pendingReqs && run[n].Send?
    && forall j | i < j < n :: !run[j].Send?
  }

  ghost predicate ClosedBetween(run: seq<Label>, corr: string, i: nat, n: nat) {
    exists j :: i < j < n && j < |run| && run[j] == Close(corr)
  }

  /** The handler holds a reply for a caller whose channel is closed, or not. */
  predicate Holds(s: State, env: Envelope, closed: bool) {
    && env.correlationId in s.callers
    && s.handler == Holding(env, s.callers[env.correlationId].ch)
    && ChanAt(s, s.callers[env.correlationId].ch).closed == closed
  }

  lemma LookupHolds(s: State, env: Envelope, z: State)
    requires Inv(s) && Enabled(s, Lookup(env)) && env.correlationId in s.pendingReqs && z == Next(s, Lookup(env))
    ensures Holds(z, env, false)
  {
    assert CallerOk(s, env.correlationId, s.callers[env.correlationId]);
  }

  lemma HoldsNext(s: State, l: Label, z: State, env: Envelope, closed: bool)
    requires Inv(s) && Enabled(s, l) && !l.Send? && Holds(s, env, closed) && z == Next(s, l)
    ensures Holds(z, env, closed || l == Close(env.correlationId))
  {
    assert CallerOk(s, env.correlationId, s.callers[env.correlationId]);
    if Touched(s, l) != Some(env.correlationId) {
      Untouched(s, l, env.correlationId);
    }
  }

  lemma HoldsOn(run: seq<Label>, k: nat, env: Envelope, closed: bool)
    requires IsRun(run) && k < |run| && !run[k].Send? && Holds(After(run[..k]), env, closed)
    ensures Holds(After(run[..k + 1]), env, closed || run[k] == Close(env.correlationId))
  {
    RunPrefix(run, k);
    HoldsNext(After(run[..k]), run[k], After(run[..k + 1]), env, closed);
  }

  lemma HoldsFrom(run: seq<Label>, i: nat)
    requires IsRun(run) && i < |run| && run[i].Lookup? && run[i].env.correlationId in After(run[..i]).pendingReqs
    ensures Holds(After(run[..i + 1]), run[i].env, false)
  {
    RunPrefix(run, i);
    LookupHolds(After(run[..i]), run[i].env, After(run[..i + 1]));
  }

  lemma ClosedBetweenStep(run: seq<Label>, corr: string, i: nat, k: nat)
    requires i < k <= |run|
    ensures ClosedBetween(run, corr, i, k) <==>
            k > i + 1 && (ClosedBetween(run, corr, i, k - 1) || run[k - 1] == Close(corr))
  {
  }

  /** The reply looked up at step i is held before step k, its channel closed if its caller has closed it since. */
  ghost predicate HeldAt(run: seq<Label>, i: nat, k: nat)
    requires i < k <= |run| && run[i].Lookup?
  {
    Holds(After(run[..k]), run[i].env, ClosedBetween(run, run[i].env.correlationId, i, k))
  }

  lemma HeldNext(run: seq<Label>, i: nat, k: nat)
    requires IsRun(run) && i < k < |run| && run[i].Lookup? && !run[k].Send? && HeldAt(run, i, k)
    ensures HeldAt(run, i, k + 1)
  {
    var env := run[i].env;
    HoldsOn(run, k, env, ClosedBetween(run, env.correlationId, i, k));
    ClosedBetweenStep(run, env.correlationId, i, k + 1);
  }

  lemma HeldFirst(run: seq<Label>, i: nat)
    requires IsRun(run) && i < |run| && run[i].Lookup? && run[i].env.correlationId in After(run[..i]).pendingReqs
    ensures HeldAt(run, i, i + 1)
  {
    HoldsFrom(run, i);
    ClosedBetweenStep(run, run[i].env.correlationId, i, i + 1);
  }

  lemma {:induction false} HeldBetween(run: seq<Label>, i: nat, n: nat)
    requires IsRun(run) && i < n <= |run| && run[i].Lookup? && HeldAt(run, i, i + 1)
    requires forall j | i < j < n :: !run[j].Send?
    ensures HeldAt(run, i, n)
    decreases n
  {
    if n > i + 1 {
      HeldBetween(run, i, n - 1);
      HeldNext(run, i, n - 1);
    }
  }

  lemma SendAt(s: State, z: State, env: Envelope, closed: bool)
    requires Enabled(s, Send) && z == Next(s, Send) && Holds(s, env, closed)
    ensures z.handler.Panicked? <==> closed
  {
  }

  /** With lookup and send as separate steps, a send panics if and only if its caller closed the channel in between. */
  lemma SendPanicsIff(run: seq<Label>, i: nat, n: nat)
    requires IsRun(run) && SendOf(run, i, n)
    ensures After(run[..n + 1]).handler.Panicked? <==> ClosedBetween(run, run[i].env.correlationId, i, n)
  {
    var corr := run[i].env.correlationId;
    HeldFirst(run, i);
    HeldBetween(run, i, n);
    RunPrefix(run, n);
    SendAt(After(run[..n]), After(run[..n + 1]), run[i].env, ClosedBetween(run, corr, i, n));
  }

  /** So a send is safe whenever no cleanup of its caller begins between lookup and send. */
  lemma SafeWithoutCleanup(run: seq<Label>, i: nat, n: nat)
    requires IsRun(run) && SendOf(run, i, n)
    requires forall j | i < j < n :: run[j] != Delete(run[i].env.correlationId)
    ensures !After(run[..n + 1]).handler.Panicked?
  {
    var corr := run[i].env.correlationId;
    SendPanicsIff(run, i, n);
    if ClosedBetween(run, corr, i, n) {
      var j :| i < j < n && j < |run| && run[j] == Close(corr);
      ClosedAfterDeleted(run, j);
      var d :| 0 <= d < |run[..j]| && run[..j][d] == Delete(corr);
      StillPending(run, corr, d, i);
    }
  }

  /** An entry found at step i was not deleted before it. */
  lemma StillPending(run: seq<Label>, corr: string, d: nat, i: nat)
    requires IsRun(run) && d < |run| && i < |run| && run[d] == Delete(corr) && corr in After(run[..i]).pendingReqs
    ensures i <= d
  {
    RunPrefix(run, i);
    PendingIffUncleaned(run[..i], corr);
    assert forall k | 0 <= k < i :: run[..i][k] == run[k];
  }

  lemma OneMoreStep(run: seq<Label>, l: Label)
    requires IsRun(run) && Enabled(After(run), l)
    ensures IsRun(run + [l]) && After(run + [l]) == Next(After(run), l)
  {
    assert (run + [l])[..|run|] == run;
  }

  /** The unsafe interleaving exists: a reply is looked up, the search times out and cleans up, and the send panics. */
  lemma LateReplyPanics(tenant: string, env: Envelope) returns (run: seq<Label>)
    ensures IsRun(run) && SendOf(run, 2, 6) && After(run).handler.Panicked?
  {
    var c := env.correlationId;
    run := [];
    OneMoreStep(run, Register(c, tenant));
    run := run + [Register(c, tenant)];
    OneMoreStep(run, Publish(c, true));
    run := run + [Publish(c, true)];
    ghost var before := run;
    OneMoreStep(run, Lookup(env));
    run := run + [Lookup(env)];
    OneMoreStep(run, TimeOut(c));
    run := run + [TimeOut(c)];
    OneMoreStep(run, Delete(c));
    run := run + [Delete(c)];
    OneMoreStep(run, Close(c));
    run := run + [Close(c)];
    OneMoreStep(run, Send);
    run := run + [Send];
    assert run[..2] == before;
  }

  // The atomic view: what the pipeline model takes a search and a reply to be.

  /** The searches that wait, each with what its channel holds. */
  function Waiters(s: State): Calls {
    map c | c in s.callers && s.callers[c].phase.Waiting? ::
      Call(s.callers[c].tenant, ChanAt(s, s.callers[c].ch).buf)
  }

  /** A publish opens a call, leaving the select ends it, and a send delivers; no other step shows. */
  function AtomicView(s: State, l: Label): Calls
    requires Enabled(s, l)
  {
    match l
    case Publish(corr, ok) => if ok then Waiters(s)[corr := Call(s.callers[corr].tenant, None)] else Waiters(s)
    case Receive(corr) => Waiters(s) - {corr}
    case TimeOut(corr) => Waiters(s) - {corr}
    case Send => Delivered(Waiters(s), s.handler.env)
    case _ => Waiters(s)
  }

  lemma WaiterUntouched(s: State, l: Label, corr: string)
    requires Inv(s) && Enabled(s, l) && Touched(s, l) != Some(corr)
    ensures corr in Next(s, l).callers ==> corr in s.callers
    ensures corr in AtomicView(s, l) <==> corr in Waiters(s)
    ensures corr in Waiters(s) ==> AtomicView(s, l)[corr] == Waiters(s)[corr]
  {
  }

  lemma WaiterTouched(s: State, l: Label, corr: string)
    requires Inv(s) && Enabled(s, l) && !Next(s, l).handler.Panicked? && Touched(s, l) == Some(corr)
    ensures corr in Waiters(Next(s, l)) <==> corr in AtomicView(s, l)
    ensures corr in AtomicView(s, l) ==> Waiters(Next(s, l))[corr] == AtomicView(s, l)[corr]
  {
    if corr in s.callers {
      assert CallerOk(s, corr, s.callers[corr]);
    }
  }

  lemma WaitersAt(s: State, l: Label, corr: string)
    requires Inv(s) && Enabled(s, l) && !Next(s, l).handler.Panicked?
    ensures corr in Waiters(Next(s, l)) <==> corr in AtomicView(s, l)
    ensures corr in AtomicView(s, l) ==> Waiters(Next(s, l))[corr] == AtomicView(s, l)[corr]
  {
    if Touched(s, l) == Some(corr) {
      WaiterTouched(s, l, corr);
    } else {
      WaiterUntouched(s, l, corr);
      if corr in s.callers {
        Untouched(s, l, corr);
      }
    }
  }

  /** Unless it panics, the router under every interleaving refines the atomic view: each step has exactly the atomic
      effect on the waiting searches, a search opens under a correlation ID that is not in use, a delivery finds the
      channel's slot free, and a search that returns takes the reply it held. */
  lemma RefinesAtomicView(s: State, l: Label)
    requires Inv(s) && Enabled(s, l) && !Next(s, l).handler.Panicked?
    ensures Waiters(Next(s, l)) == AtomicView(s, l)
    ensures l.Publish? ==> l.corr !in Waiters(s)
    ensures l.Send? && s.handler.env.correlationId in Waiters(s) ==>
              Waiters(s)[s.handler.env.correlationId].inbox.None?
    ensures l.Receive? ==> l.corr in Waiters(s) && Next(s, l).callers[l.corr].got == Waiters(s)[l.corr].inbox
                           && Waiters(s)[l.corr].inbox.Some?
  {
    forall corr ensures corr in Waiters(Next(s, l)) <==> corr in AtomicView(s, l)
                ensures corr in AtomicView(s, l) ==> Waiters(Next(s, l))[corr] == AtomicView(s, l)[corr]
    {
      WaitersAt(s, l, corr);
    }
  }
}
