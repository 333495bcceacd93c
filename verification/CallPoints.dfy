/**
 * Induction over dispatch trees. A property of the store that every single call keeps holds
 * again when a run succeeds, and holds at every point where a call is made: at any depth, in
 * replies, and inside submessages that are rolled back later.
 */
module CallPoints {
  import opened Base
  import opened Types
  import opened Meters
  import opened Engine
  import opened GasContainment
  import GasRegister

  /** A property of the store and the number of calls made so far. */
  type Property = (Store, nat) -> bool

  datatype Claim = Claim(
    store: Property,          // what the store satisfies
    context: Ctx -> bool,     // what the context of a call satisfies
    request: Request -> bool, // which requests occur
    contract: Addr -> bool,   // whose responses are dispatched
    scope: (Store, Request) -> bool, // what a run has to stick to for the claim to be about it
    since: nat)               // from which entry of the journal on

  /** One call, up to the dispatch of its response, keeps the property. */
  ghost predicate LeafKeeps(env: Env, p: Claim, s: Store, t: nat, m: Meter, ctx: Ctx, req: Request) {
    var l := env.leaf(s, m, ctx, req);
    && (l.end.Done? || l.end.Respond? ==> p.store(Apply(s, l.writes), t + 1))
    && (l.end.Respond? ==> p.context(ctx.(policy := l.end.policy)) && p.contract(l.end.contract))
  }

  ghost predicate Inductive(env: Env, p: Claim) {
    && (forall s, t, m, ctx, req :: p.store(s, t) && p.context(ctx) && p.request(req) && p.scope(s, req) ==> LeafKeeps(env, p, s, t, m, ctx, req))
    && (forall s, t, t' :: p.store(s, t) && t <= t' ==> p.store(s, t'))
    && (forall ctx, d :: p.context(ctx) ==> p.context(ctx.(depth := d)))
    && (forall c, port, msg :: p.contract(c) ==> Routes(p, env.route(c, port, msg)))
    && (forall c, id, result, payload :: p.contract(c) ==> p.request(Reply(c, id, result, payload)))
  }

  ghost predicate Routes(p: Claim, r: Route) {
    match r
    case ToRouter(requests) => forall i :: 0 <= i < |requests| ==> p.request(requests[i])
    case ToHandler(request) => p.request(request)
    case NoHandler(_) => true
  }

  /** Every call recorded in the journal since then was made where the claim held, within the depth limit. */
  ghost predicate CallsHold(env: Env, p: Claim, journal: seq<Token>) {
    forall i :: p.since <= i < |journal| && journal[i].Called? ==>
      p.store(journal[i].store, journal[i].tick) && p.context(journal[i].ctx)
      && p.request(journal[i].request) && journal[i].ctx.depth <= env.maxCallDepth
  }

  /** Every recorded call is one the claim is about. */
  ghost predicate InScope(p: Claim, journal: seq<Token>) {
    forall i :: 0 <= i < |journal| && journal[i].Called? ==> p.scope(journal[i].store, journal[i].request)
  }

  lemma ScopeOfPrefix(p: Claim, j: seq<Token>, whole: seq<Token>)
    requires j <= whole && InScope(p, whole)
    ensures InScope(p, j)
  {
    forall i | 0 <= i < |j| && j[i].Called? ensures p.scope(j[i].store, j[i].request) { assert j[i] == whole[i]; }
  }

  ghost predicate Starts(env: Env, p: Claim, ctx: Ctx, w: World) {
    && ctx.depth <= env.maxCallDepth
    && Inductive(env, p) && p.context(ctx) && p.store(w.store, w.tick) && CallsHold(env, p, w.journal)
  }

  ghost predicate Ends<T>(env: Env, p: Claim, w: World, out: Outcome<T>) {
    CallsHold(env, p, w.journal) && (out.Ok? ==> p.store(w.store, w.tick))
  }

  /** After a call's own work the claim holds for everything that follows. */
  ghost predicate Begins(env: Env, p: Claim, ctx: Ctx, b: Begun) {
    && CallsHold(env, p, b.world.journal)
    && (b.end.Done? || b.end.Respond? ==> p.store(b.world.store, b.world.tick))
    && (b.end.Respond? ==> p.context(ctx.(policy := b.end.policy)) && p.contract(b.end.contract))
  }

  lemma BeginKeeps(env: Env, p: Claim, ctx: Ctx, w: World, req: Request)
    requires Starts(env, p, ctx, w) && p.request(req) && InScope(p, Begin(env, ctx, w, req).world.journal)
    ensures Begins(env, p, ctx, Begin(env, ctx, w, req))
  {
    var j, i := Begin(env, ctx, w, req).world.journal, |w.journal|;
    assert j[i] == Called(w.tick, ctx, w.store, req) && p.scope(j[i].store, j[i].request);
    assert LeafKeeps(env, p, w.store, w.tick, w.meter, ctx, req);
  }

  lemma {:induction false} InvokeKeeps(env: Env, p: Claim, ctx: Ctx, w: World, req: Request)
    requires Starts(env, p, ctx, w) && p.request(req)
    requires InScope(p, Invoke(env, ctx, w, req).0.journal)
    ensures var (w', out) := Invoke(env, ctx, w, req); Ends(env, p, w', out)
    decreases Room(env, ctx), 0, 2
  {
    var b := Begin(env, ctx, w, req);
    if b.signal.Calm? && b.end.Respond? {
      HandleResponseSound(env, ctx.(policy := b.end.policy), b.world, b.end.contract, b.end.port, b.end.response);
    }
    ScopeOfPrefix(p, b.world.journal, Invoke(env, ctx, w, req).0.journal);
    BeginKeeps(env, p, ctx, w, req);
    RestKeeps(env, p, ctx, w, req);
  }

  /** The rest of a call, once its own work is done. */
  lemma {:induction false} RestKeeps(env: Env, p: Claim, ctx: Ctx, w: World, req: Request)
    requires ctx.depth <= env.maxCallDepth && Inductive(env, p) && Begins(env, p, ctx, Begin(env, ctx, w, req))
    requires InScope(p, Invoke(env, ctx, w, req).0.journal)
    ensures var (w', out) := Invoke(env, ctx, w, req); Ends(env, p, w', out)
    decreases Room(env, ctx), 0, 1
  {
    var b := Begin(env, ctx, w, req);
    if b.signal.Calm? && b.end.Respond? {
      HandleResponseKeeps(env, p, ctx.(policy := b.end.policy), b.world, b.end.contract, b.end.port, b.end.response);
    }
  }

  lemma {:induction false} HandleResponseKeeps(env: Env, p: Claim, ctx: Ctx, w: World, contract: Addr, port: PortId, response: Response)
    requires Starts(env, p, ctx, w) && p.contract(contract)
    requires InScope(p, HandleResponse(env, ctx, w, contract, port, response).0.journal)
    ensures var (w', out) := HandleResponse(env, ctx, w, contract, port, response); Ends(env, p, w', out)
    decreases Room(env, ctx), 0, 0
  {
    var cost := GasRegister.EventCosts(env.register, response.attributes, response.events);
    if cost.Some? {
      var published := env.publish(contract, response.attributes, response.events);
      var (w', g) := Work(w, [], [Plain(cost.value)], if published.Success? then published.value else []);
      var d := NextDepth(env.maxCallDepth, ctx.depth);
      if g.Calm? && published.Success? && d.Some? {
        DispatchSubmessagesKeeps(env, p, ctx.(depth := d.value), w', contract, port, response.messages, None);
      }
    }
  }

  lemma {:induction false} DispatchSubmessagesKeeps(env: Env, p: Claim, ctx: Ctx, w: World, contract: Addr, port: PortId, msgs: seq<SubMsg>, rsp: Option<bytes>)
    requires Starts(env, p, ctx, w) && p.contract(contract)
    requires InScope(p, DispatchSubmessages(env, ctx, w, contract, port, msgs, rsp).0.journal)
    ensures var (w', out) := DispatchSubmessages(env, ctx, w, contract, port, msgs, rsp); Ends(env, p, w', out)
    decreases Room(env, ctx), 5, |msgs|
  {
    if msgs != [] {
      var (w', out) := SubmessageAndReply(env, ctx, w, contract, port, msgs[0]);
      if out.Ok? { DispatchSubmessagesSound(env, ctx, w', contract, port, msgs[1..], out.value.OrElse(rsp)); }
      ScopeOfPrefix(p, w'.journal, DispatchSubmessages(env, ctx, w, contract, port, msgs, rsp).0.journal);
      SubmessageAndReplyKeeps(env, p, ctx, w, contract, port, msgs[0]);
      if out.Ok? {
        DispatchSubmessagesKeeps(env, p, ctx, w', contract, port, msgs[1..], out.value.OrElse(rsp));
      }
    }
  }

  lemma {:induction false} SubmessageAndReplyKeeps(env: Env, p: Claim, ctx: Ctx, w: World, contract: Addr, port: PortId, msg: SubMsg)
    requires Starts(env, p, ctx, w) && p.contract(contract)
    requires InScope(p, SubmessageAndReply(env, ctx, w, contract, port, msg).0.journal)
    ensures var (w', out) := SubmessageAndReply(env, ctx, w, contract, port, msg); Ends(env, p, w', out)
    decreases Room(env, ctx), 4, 0
  {
    if !msg.replyOn.ReplyInvalid? {
      var (w', out) := RunSub(env, ctx, w, contract, port, msg);
      var reply := ReplyTo(contract, msg, out);
      AfterSub(env, ctx, w, contract, port, msg);
      if reply.Some? { InvokeSound(env, ctx, w', reply.value); }
      ScopeOfPrefix(p, w'.journal, SubmessageAndReply(env, ctx, w, contract, port, msg).0.journal);
      RunSubKeeps(env, p, ctx, w, contract, port, msg);
      if reply.Some? { InvokeKeeps(env, p, ctx, w', reply.value); }
    }
  }

  lemma AfterSub(env: Env, ctx: Ctx, w: World, contract: Addr, port: PortId, msg: SubMsg)
    requires ctx.depth <= env.maxCallDepth && !msg.replyOn.ReplyInvalid?
    ensures var (w', out) := RunSub(env, ctx, w, contract, port, msg);
            var (w'', end) := SubmessageAndReply(env, ctx, w, contract, port, msg);
            match ReplyTo(contract, msg, out)
            case None => w'' == w'
            case Some(reply) => w'' == Invoke(env, ctx, w', reply).0 && (end.Ok? ==> Invoke(env, ctx, w', reply).1.Ok?)
  {}

  /** The reply a submessage sets off, if any. */
  function ReplyTo(contract: Addr, msg: SubMsg, out: Outcome<SubMsgResult>): (r: Option<Request>) {
    match out
    case Ok(result) =>
      if msg.replyOn.ReplyAlways? || msg.replyOn.ReplySuccess? then Some(Reply(contract, msg.id, result, msg.payload)) else None
    case Err(e) =>
      if msg.replyOn.ReplyAlways? || msg.replyOn.ReplyError? then Some(Reply(contract, msg.id, SubErr(RedactError(e)), msg.payload)) else None
    case _ => None
  }

  /** A failed submessage keeps the property too: its caller's store is back. */
  lemma {:induction false} RunSubKeeps(env: Env, p: Claim, ctx: Ctx, w: World, contract: Addr, port: PortId, msg: SubMsg)
    requires Starts(env, p, ctx, w) && p.contract(contract)
    requires InScope(p, RunSub(env, ctx, w, contract, port, msg).0.journal)
    ensures var (w', out) := RunSub(env, ctx, w, contract, port, msg);
            CallsHold(env, p, w'.journal) && p.store(w'.store, w'.tick)
    decreases Room(env, ctx), 3, 0
  {
    var inner := Enter(w, msg);
    var (w', out) := DispatchMsg(env, ctx, inner, contract, port, msg.msg);
    DispatchMsgSound(env, ctx, inner, contract, port, msg.msg);
    SubCloses(env, ctx, w, contract, port, msg);
    ScopeOfPrefix(p, w'.journal, RunSub(env, ctx, w, contract, port, msg).0.journal);
    DispatchMsgKeeps(env, p, ctx, inner, contract, port, msg.msg);
    assert p.store(w.store, w'.tick);
  }

  /** Closing a sandbox adds one entry and keeps the caller's store or that of a success. */
  lemma SubCloses(env: Env, ctx: Ctx, w: World, contract: Addr, port: PortId, msg: SubMsg)
    requires ctx.depth <= env.maxCallDepth
    ensures var w'' := RunSub(env, ctx, w, contract, port, msg).0;
            var (w', out) := DispatchMsg(env, ctx, Enter(w, msg), contract, port, msg.msg);
            && |w''.journal| == |w'.journal| + 1 && w'.journal <= w''.journal && w''.journal[|w'.journal|].Closed?
            && w''.tick == w'.tick && (w''.store == w.store || (out.Ok? && w''.store == w'.store))
  {
    var (w', out) := DispatchMsg(env, ctx, Enter(w, msg), contract, port, msg.msg);
    SettledOk(w.meter, msg, w'.meter, out);
  }

  /** Settling the gas never turns a failure into a success. */
  lemma SettledOk(m: Meter, msg: SubMsg, inner: Meter, out: Outcome<Handled>)
    ensures Leave(m, msg, inner, out).1.Ok? ==> out.Ok? && Leave(m, msg, inner, out).1 == out
  {}

  lemma {:induction false} DispatchMsgKeeps(env: Env, p: Claim, ctx: Ctx, w: World, contract: Addr, port: PortId, msg: CosmosMsg)
    requires Starts(env, p, ctx, w) && p.contract(contract)
    requires InScope(p, DispatchMsg(env, ctx, w, contract, port, msg).0.journal)
    ensures var (w', out) := DispatchMsg(env, ctx, w, contract, port, msg); Ends(env, p, w', out)
    decreases Room(env, ctx), 2, 0
  {
    assert Routes(p, env.route(contract, port, msg));
    match env.route(contract, port, msg)
    case NoHandler(_) =>
    case ToRouter(requests) => RunRequestsKeeps(env, p, ctx, w, requests, Handled([], [], []));
    case ToHandler(request) => InvokeKeeps(env, p, ctx, w, request);
  }

  lemma {:induction false} RunRequestsKeeps(env: Env, p: Claim, ctx: Ctx, w: World, requests: seq<Request>, acc: Handled)
    requires Starts(env, p, ctx, w)
    requires forall i :: 0 <= i < |requests| ==> p.request(requests[i])
    requires InScope(p, RunRequests(env, ctx, w, requests, acc).0.journal)
    ensures var (w', out) := RunRequests(env, ctx, w, requests, acc); Ends(env, p, w', out)
    decreases Room(env, ctx), 1, |requests|
  {
    if requests != [] {
      var (w', out) := RunRequest(env, ctx, w, requests[0]);
      if out.Ok? { RunRequestsSound(env, ctx, w', requests[1..], Join(acc, out.value.0, out.value.1)); }
      ScopeOfPrefix(p, w'.journal, RunRequests(env, ctx, w, requests, acc).0.journal);
      RunRequestKeeps(env, p, ctx, w, requests[0]);
      if out.Ok? {
        RunRequestsKeeps(env, p, ctx, w', requests[1..], Join(acc, out.value.0, out.value.1));
      }
    }
  }

  lemma {:induction false} RunRequestKeeps(env: Env, p: Claim, ctx: Ctx, w: World, req: Request)
    requires Starts(env, p, ctx, w) && p.request(req)
    requires InScope(p, RunRequest(env, ctx, w, req).0.journal)
    ensures var (w', out) := RunRequest(env, ctx, w, req); Ends(env, p, w', out)
    decreases Room(env, ctx), 0, 3
  {
    var routed := w.(events := []).Log(Routed);
    ScopeOfPrefix(p, Invoke(env, ctx, routed, req).0.journal, RunRequest(env, ctx, w, req).0.journal);
    InvokeKeeps(env, p, ctx, routed, req);
  }

  // ---------------------------------------------------------------- transactions

  /** A transaction: everything a call did, or nothing but the gas. */
  function Transact(env: Env, position: Position, w: World, m: Meter, req: Request): (r: World) {
    var (w', out) := Invoke(env, Ctx(0, None, position), w.(meter := m, events := []), req);
    if out.Ok? then w' else w'.(store := w.store, events := [])
  }

  datatype Tx = Tx(position: Position, meter: Meter, request: Request)

  function Chain(env: Env, w: World, txs: seq<Tx>): (r: World)
    decreases |txs|
  {
    if txs == [] then w
    else Chain(env, Transact(env, txs[0].position, w, txs[0].meter, txs[0].request), txs[1..])
  }

  /** The property over whole runs of transactions, and at every call made in any of them. */
  lemma {:induction false} ChainKeeps(env: Env, p: Claim, w: World, txs: seq<Tx>)
    requires Inductive(env, p)
    requires p.store(w.store, w.tick) && CallsHold(env, p, w.journal)
    requires forall i :: 0 <= i < |txs| ==> p.request(txs[i].request) && p.context(Ctx(0, None, txs[i].position))
    requires InScope(p, Chain(env, w, txs).journal)
    ensures var w' := Chain(env, w, txs); p.store(w'.store, w'.tick) && CallsHold(env, p, w'.journal)
    decreases |txs|
  {
    if txs != [] {
      var tx := txs[0];
      var start := w.(meter := tx.meter, events := []);
      InvokeSound(env, Ctx(0, None, tx.position), start, tx.request);
      ChainAdvances(env, Transact(env, tx.position, w, tx.meter, tx.request), txs[1..]);
      ScopeOfPrefix(p, Transact(env, tx.position, w, tx.meter, tx.request).journal, Chain(env, w, txs).journal);
      InvokeKeeps(env, p, Ctx(0, None, tx.position), start, tx.request);
      ChainKeeps(env, p, Transact(env, tx.position, w, tx.meter, tx.request), txs[1..]);
    }
  }

  lemma {:induction false} ChainAdvances(env: Env, w: World, txs: seq<Tx>)
    ensures w.journal <= Chain(env, w, txs).journal
    decreases |txs|
  {
    if txs != [] {
      var tx := txs[0];
      InvokeSound(env, Ctx(0, None, tx.position), w.(meter := tx.meter, events := []), tx.request);
      ChainAdvances(env, Transact(env, tx.position, w, tx.meter, tx.request), txs[1..]);
    }
  }

  /** No call of any run is made above the configured depth. */
  lemma DepthIsBounded(env: Env, w: World, txs: seq<Tx>)
    requires forall i :: 0 <= i < |w.journal| && w.journal[i].Called? ==> w.journal[i].ctx.depth <= env.maxCallDepth
    ensures var w' := Chain(env, w, txs);
            forall i :: 0 <= i < |w'.journal| && w'.journal[i].Called? ==> w'.journal[i].ctx.depth <= env.maxCallDepth
  {
    ChainKeeps(env, Claim((_, _) => true, _ => true, _ => true, _ => true, (_, _) => true, 0), w, txs);
  }

  /**
   * The depth counter is a 32-bit word. The check makes every accepted step go one deeper
   * without passing the limit, exactly when the limit is not the largest word.
   */
  lemma DepthCheckTrips(limit: u32)
    ensures (forall d: u32 :: d <= limit && NextDepth(limit, d).Some? ==> NextDepth(limit, d).value == d + 1 <= limit)
       <==> limit < TWO32 - 1
  {
    if limit == TWO32 - 1 {
      var d: u32 := limit;
      assert NextDepth(limit, d) == Some(0);
    }
  }
}
