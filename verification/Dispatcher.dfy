/**
 * The dispatcher as it runs: branched stores that write through on commit, gas meters and
 * event managers as objects, and the loops over submessages. Every method is proved to do
 * what the function of the same name in Engine says.
 */
module Dispatcher {
  import opened Base
  import opened Types
  import opened Meters
  import opened Engine
  import GasRegister

  type Dirty = map<bytes, Option<Value>>

  /** A store seen through a layer of uncommitted changes; None marks a deleted key. */
  function Overlay(base: Store, dirty: Dirty): (s: Store) {
    map k | k in base.Keys + dirty.Keys && (k in dirty ==> dirty[k].Some?)
      :: if k in dirty then dirty[k].value else base[k]
  }

  lemma OverlayTwice(base: Store, lower: Dirty, upper: Dirty)
    ensures Overlay(Overlay(base, lower), upper) == Overlay(base, lower + upper)
  {}

  lemma OverlayWrite(base: Store, dirty: Dirty, w: Write)
    ensures w.Set? ==> Overlay(base, dirty[w.key := Some(w.value)]) == ApplyOne(Overlay(base, dirty), w)
    ensures w.Delete? ==> Overlay(base, dirty[w.key := None]) == ApplyOne(Overlay(base, dirty), w)
  {}

  /** One layer of a cache-wrapped store. */
  class CacheStore {
    const parent: CacheStore?
    const level: nat
    ghost const below: set<CacheStore>  // the layers under this one
    var dirty: Dirty

    ghost predicate Valid()
      decreases level
    {
      && (forall x :: x in below ==> x.level < level)
      && (parent != null ==> parent in below && below == {parent} + parent.below && parent.Valid())
    }

    function View(): (s: Store)
      requires Valid()
      reads this`dirty, below`dirty
      decreases level
    {
      if parent == null then Overlay(map[], dirty) else Overlay(parent.View(), dirty)
    }

    constructor Root(s: Store)
      ensures Valid() && View() == s
    {
      parent, level, below := null, 0, {};
      dirty := map k | k in s :: Some(s[k]);
    }

    /** CacheContext: a fresh layer over p that shows what p shows. */
    constructor Branch(p: CacheStore)
      requires p.Valid()
      ensures Valid() && parent == p && View() == p.View()
    {
      parent, level, below := p, p.level + 1, {p} + p.below;
      dirty := map[];
    }

    method Perform(ws: seq<Write>)
      requires Valid()
      modifies this`dirty
      ensures View() == Apply(old(View()), ws)
    {
      ghost var before := View();
      for i := 0 to |ws|
        invariant Apply(before, ws) == Apply(View(), ws[i..])
      {
        ghost var base: Store := if parent == null then map[] else parent.View();
        OverlayWrite(base, dirty, ws[i]);
        assert ws[i..][0] == ws[i] && ws[i..][1..] == ws[i + 1..];
        match ws[i]
        case Set(k, v) => dirty := dirty[k := Some(v)];
        case Delete(k) => dirty := dirty[k := None];
      }
      assert ws[|ws|..] == [];
    }

    /** Writes this layer through to its parent. */
    method Commit()
      requires Valid() && parent != null
      modifies parent`dirty
      ensures parent.View() == old(View())
    {
      ghost var base: Store := if parent.parent == null then map[] else parent.parent.View();
      OverlayTwice(base, parent.dirty, dirty);
      parent.dirty := parent.dirty + dirty;
    }
  }

  class GasMeter {
    const limit: u64
    const infinite: bool
    var consumed: u64

    constructor (limit: u64)
      ensures Value() == NewMeter(limit)
    {
      this.limit, infinite, consumed := limit, false, 0;
    }

    function Value(): (m: Meter)
      reads this`consumed
    {
      Meter(limit, infinite, consumed)
    }

    method ConsumeGas(amount: u64) returns (g: Signal)
      modifies this`consumed
      ensures (Value(), g) == Consume(old(Value()), amount)
    {
      if consumed + amount > MAX_U64 {
        consumed := MAX_U64;
        return Overflow;
      }
      consumed := consumed + amount;
      g := if infinite || consumed <= limit then Calm else GasOut;
    }

    method Charge(cs: seq<Charge>) returns (g: Signal)
      modifies this`consumed
      ensures (Value(), g) == ChargeAll(old(Value()), cs)
    {
      g := Calm;
      ghost var before := Value();
      for i := 0 to |cs|
        invariant g.Calm? && ChargeAll(before, cs) == ChargeAll(Value(), cs[i..])
      {
        assert cs[i..][0] == cs[i] && cs[i..][1..] == cs[i + 1..];
        g := ConsumeGas(cs[i].amount);
        if g.Calm? && cs[i].Runtime? && IsOutOfGas(Value()) {
          g := GasOut;
        }
        if !g.Calm? { return; }
      }
      assert cs[|cs|..] == [];
    }
  }

  class EventManager {
    var events: seq<Event>

    constructor ()
      ensures events == []
    {
      events := [];
    }

    method Emit(more: seq<Event>)
      modifies this`events
      ensures events == old(events) + more
    {
      events := events + more;
    }
  }

  /** What happened so far, in order; it exists only to state what a run does. */
  class Recorder {
    ghost var tick: nat
    ghost var journal: seq<Token>

    ghost method Log(t: Token)
      modifies this`journal
      ensures journal == old(journal) + [t]
    {
      journal := journal + [t];
    }
  }

  /** sdk.Context: a value that refers to the current store layer, meter and event manager. */
  datatype Context = Context(store: CacheStore, meter: GasMeter, em: EventManager, log: Recorder, ctx: Ctx)

  ghost function Snapshot(c: Context): (w: World)
    requires c.store.Valid()
    reads c.store`dirty, c.store.below`dirty, c.meter`consumed, c.em`events, c.log`tick, c.log`journal
  {
    World(c.store.View(), c.meter.Value(), c.em.events, c.log.tick, c.log.journal)
  }

  method FilterLoop(events: seq<Event>) returns (r: seq<Event>)
    ensures r == FilterEvents(events)
  {
    r := [];
    for i := 0 to |events|
      invariant FilterEvents(events) == r + FilterEvents(events[i..])
    {
      var head, rest := events[i], events[i + 1..];
      assert events[i..] == [head] + rest;
      if head.kind != "message" {
        assert FilterEvents([head] + rest) == [head] + FilterEvents(rest);
        r := r + [head];
      } else {
        assert FilterEvents([head] + rest) == FilterEvents(rest);
      }
    }
    assert events[|events|..] == [];
  }

  class MessageDispatcher {
    const env: Env

    constructor (env: Env)
      ensures this.env == env
    {
      this.env := env;
    }

    method Work(c: Context, writes: seq<Write>, charges: seq<Charge>, events: seq<Event>) returns (g: Signal)
      requires c.store.Valid()
      modifies c.store`dirty, c.meter`consumed, c.em`events, c.log`tick, c.log`journal
      ensures (Snapshot(c), g) == Engine.Work(old(Snapshot(c)), writes, charges, events)
    {
      c.store.Perform(writes);
      g := c.meter.Charge(charges);
      if g.Calm? {
        c.em.Emit(events);
      }
      c.log.Log(Worked(writes, charges, events));
    }

    /** A call's own work. */
    method Begin(c: Context, req: Request) returns (g: Signal, end: LeafEnd)
      requires c.store.Valid()
      modifies c.store`dirty, c.meter`consumed, c.em`events, c.log`tick, c.log`journal
      ensures Begun(Snapshot(c), g, end) == Engine.Begin(env, c.ctx, old(Snapshot(c)), req)
    {
      var view := c.store.View();
      var l := env.leaf(view, c.meter.Value(), c.ctx, req);
      c.log.Log(Called(c.log.tick, c.ctx, view, req));
      c.log.tick := c.log.tick + 1;
      g := Work(c, l.writes, l.charges, l.events);
      end := l.end;
    }

    method Invoke(c: Context, req: Request) returns (out: Outcome<Answer>)
      requires c.store.Valid() && c.ctx.depth <= env.maxCallDepth
      modifies c.store`dirty, c.meter`consumed, c.em`events, c.log`tick, c.log`journal
      ensures (Snapshot(c), out) == Engine.Invoke(env, c.ctx, old(Snapshot(c)), req)
      decreases Room(env, c.ctx), 0, 1
    {
      var g, end := Begin(c, req);
      if !g.Calm? { return Unwind(g); }
      match end
      case Done(data, responses) => return Ok(Plainly(data, responses));
      case Fail(e) => return Err(e);
      case Panic =>
        c.log.Log(Raised(Overflow));
        return Panicked;
      case Exhaust =>
        c.log.Log(Raised(GasOut));
        return OutOfGas;
      case Respond(contract, port, policy, response) =>
        var r := HandleResponse(c.(ctx := c.ctx.(policy := policy)), contract, port, response);
        return Concluded(req, r);
    }

    method HandleResponse(c: Context, contract: Addr, port: PortId, response: Response) returns (out: Outcome<Option<bytes>>)
      requires c.store.Valid() && c.ctx.depth <= env.maxCallDepth
      modifies c.store`dirty, c.meter`consumed, c.em`events, c.log`tick, c.log`journal
      ensures (Snapshot(c), out) == Engine.HandleResponse(env, c.ctx, old(Snapshot(c)), contract, port, response)
      decreases Room(env, c.ctx), 0, 0
    {
      var cost := GasRegister.ComputeEventCosts(env.register, response.attributes, response.events);
      if cost.None? {
        c.log.Log(Raised(GasOut));
        return OutOfGas;
      }
      var published := env.publish(contract, response.attributes, response.events);
      var g := Work(c, [], [Plain(cost.value)], if published.Success? then published.value else []);
      if !g.Calm? { return Unwind(g); }
      if published.Failure? { return Err(published.error); }
      var depth := NextDepth(env.maxCallDepth, c.ctx.depth);
      if depth.None? { return Err(ErrCallDepth); }
      var deeper := c.(ctx := c.ctx.(depth := depth.value));
      var r := DispatchSubmessages(deeper, contract, port, response.messages);
      if r.Ok? { return Ok(r.value.OrElse(response.data)); }
      return r;
    }

    method DispatchSubmessages(c: Context, contract: Addr, port: PortId, msgs: seq<SubMsg>) returns (out: Outcome<Option<bytes>>)
      requires c.store.Valid() && c.ctx.depth <= env.maxCallDepth
      modifies c.store`dirty, c.meter`consumed, c.em`events, c.log`tick, c.log`journal
      ensures (Snapshot(c), out) == Engine.DispatchSubmessages(env, c.ctx, old(Snapshot(c)), contract, port, msgs, None)
      decreases Room(env, c.ctx), 5, |msgs|
    {
      var rsp: Option<bytes> := None;
      ghost var before := Snapshot(c);
      for i := 0 to |msgs|
        invariant c.store.Valid()
        invariant Engine.DispatchSubmessages(env, c.ctx, before, contract, port, msgs, None)
               == Engine.DispatchSubmessages(env, c.ctx, Snapshot(c), contract, port, msgs[i..], rsp)
      {
        assert msgs[i..][0] == msgs[i] && msgs[i..][1..] == msgs[i + 1..];
        var r := SubmessageAndReply(c, contract, port, msgs[i]);
        if !r.Ok? { return r; }
        rsp := r.value.OrElse(rsp);
      }
      assert msgs[|msgs|..] == [];
      return Ok(rsp);
    }

    method SubmessageAndReply(c: Context, contract: Addr, port: PortId, msg: SubMsg) returns (out: Outcome<Option<bytes>>)
      requires c.store.Valid() && c.ctx.depth <= env.maxCallDepth
      modifies c.store`dirty, c.meter`consumed, c.em`events, c.log`tick, c.log`journal
      ensures (Snapshot(c), out) == Engine.SubmessageAndReply(env, c.ctx, old(Snapshot(c)), contract, port, msg)
      decreases Room(env, c.ctx), 4, 0
    {
      if msg.replyOn.ReplyInvalid? { return Err(ErrInvalidReplyOn); }
      var r := RunSub(c, contract, port, msg);
      match r
      case OutOfGas => return OutOfGas;
      case Panicked => return Panicked;
      case Ok(result) =>
        if msg.replyOn.ReplyNever? || msg.replyOn.ReplyError? { return Ok(None); }
        out := SendReply(c, contract, msg, result);
      case Err(e) =>
        if msg.replyOn.ReplyNever? || msg.replyOn.ReplySuccess? { return Err(e); }
        out := SendReply(c, contract, msg, SubErr(RedactError(e)));
    }

    method SendReply(c: Context, contract: Addr, msg: SubMsg, result: SubMsgResult) returns (out: Outcome<Option<bytes>>)
      requires c.store.Valid() && c.ctx.depth <= env.maxCallDepth
      modifies c.store`dirty, c.meter`consumed, c.em`events, c.log`tick, c.log`journal
      ensures (Snapshot(c), out) == Engine.SendReply(env, c.ctx, old(Snapshot(c)), contract, msg, result)
      decreases Room(env, c.ctx), 1, 0
    {
      var r := Invoke(c, Reply(contract, msg.id, result, msg.payload));
      if r.Ok? { return Ok(if r.value.Data? then r.value.data else None); }
      return if r.Err? then Err(Wrap(r.error, "reply")) else Pass(r);
    }

    /** The sandbox: a branched store, its own event manager and, if limited, its own meter. */
    method RunSub(c: Context, contract: Addr, port: PortId, msg: SubMsg) returns (out: Outcome<SubMsgResult>)
      requires c.store.Valid() && c.ctx.depth <= env.maxCallDepth
      modifies c.store`dirty, c.meter`consumed, c.em`events, c.log`tick, c.log`journal
      ensures (Snapshot(c), out) == Engine.RunSub(env, c.ctx, old(Snapshot(c)), contract, port, msg)
      decreases Room(env, c.ctx), 3, 0
    {
      var store := new CacheStore.Branch(c.store);
      var em := new EventManager();
      var r, settled := Sandbox(c, store, em, contract, port, msg);
      out := Close(c, store, em, msg.msg.Wasm?, r.OutOfGas?, settled);
    }

    /** Runs the message in the sandbox and settles the gas with the caller. */
    method Sandbox(c: Context, store: CacheStore, em: EventManager, contract: Addr, port: PortId, msg: SubMsg)
      returns (r: Outcome<Handled>, settled: Outcome<Handled>)
      requires c.store.Valid() && c.ctx.depth <= env.maxCallDepth
      requires store.Valid() && store.View() == c.store.View() && em.events == []
      modifies store`dirty, em`events, c.meter`consumed, c.log`tick, c.log`journal
      ensures var (w, out) := Engine.DispatchMsg(env, c.ctx, Enter(old(Snapshot(c)), msg), contract, port, msg.msg);
              r == out && store.View() == w.store && em.events == w.events
              && c.log.tick == w.tick && c.log.journal == w.journal
              && (c.meter.Value(), settled) == Leave(old(c.meter.Value()), msg, w.meter, out)
      decreases Room(env, c.ctx), 2, 2
    {
      if IsLimited(c.meter.Value(), msg) {
        r, settled := LimitedSandbox(c, store, em, contract, port, msg);
      } else {
        c.log.Log(Opened(None));
        r := DispatchMsg(Context(store, c.meter, em, c.log, c.ctx), contract, port, msg.msg);
        settled := r;
      }
    }

    /** dispatchMsgWithGasLimit */
    method LimitedSandbox(c: Context, store: CacheStore, em: EventManager, contract: Addr, port: PortId, msg: SubMsg)
      returns (r: Outcome<Handled>, settled: Outcome<Handled>)
      requires c.store.Valid() && c.ctx.depth <= env.maxCallDepth && IsLimited(c.meter.Value(), msg)
      requires store.Valid() && store.View() == c.store.View() && em.events == []
      modifies store`dirty, em`events, c.meter`consumed, c.log`tick, c.log`journal
      ensures var (w, out) := Engine.DispatchMsg(env, c.ctx, Enter(old(Snapshot(c)), msg), contract, port, msg.msg);
              r == out && store.View() == w.store && em.events == w.events
              && c.log.tick == w.tick && c.log.journal == w.journal
              && (c.meter.Value(), settled) == Settle(old(c.meter.Value()), msg.gasLimit.value, w.meter.consumed, out)
      decreases Room(env, c.ctx), 2, 1
    {
      c.log.Log(Opened(msg.gasLimit));
      var meter := new GasMeter(msg.gasLimit.value);
      r := DispatchMsg(Context(store, meter, em, c.log, c.ctx), contract, port, msg.msg);
      settled := ChargeParent(c.meter, msg.gasLimit.value, meter.consumed, r);
    }

    /** Commits the sandbox and passes its events on, or forgets it. */
    method Close(c: Context, store: CacheStore, em: EventManager, wasm: bool, gasOut: bool, settled: Outcome<Handled>)
      returns (out: Outcome<SubMsgResult>)
      requires c.store.Valid() && store.Valid() && store.parent == c.store
      modifies c.store`dirty, c.em`events, c.log`journal
      ensures (Snapshot(c), out) ==
              Engine.Close(old(Snapshot(c)),
                           World(old(store.View()), old(c.meter.Value()), old(em.events), old(c.log.tick), old(c.log.journal)),
                           old(c.meter.Value()), wasm, gasOut, settled)
    {
      match settled
      case Ok(h) =>
        store.Commit();
        var events := FilterLoop(em.events + h.events);
        if wasm { events := SortEvents(events); }
        c.em.Emit(events);
        c.log.Log(Closed(Committed(wasm)));
        return Ok(Succeeded(wasm, events, h));
      case Err(e) =>
        c.log.Log(Closed(if gasOut then Absorbed else Dropped));
        return Err(e);
      case OutOfGas =>
        c.log.Log(Closed(Dropped));
        return OutOfGas;
      case Panicked =>
        c.log.Log(Closed(Dropped));
        return Panicked;
    }

    /** The recovery and final charge of dispatchMsgWithGasLimit. */
    method ChargeParent(meter: GasMeter, limit: u64, spent: u64, r: Outcome<Handled>) returns (out: Outcome<Handled>)
      modifies meter`consumed
      ensures (meter.Value(), out) == Settle(old(meter.Value()), limit, spent, r)
    {
      if r.OutOfGas? {
        var g := meter.ConsumeGas(limit);
        return if g.Calm? then Err(ErrSubMsgGas) else Unwind(g);
      }
      var g := meter.ConsumeGas(spent);
      if r.Panicked? {
        return if g.Calm? then Panicked else Unwind(g);
      }
      if g.Calm? { return r; }
      var again := meter.ConsumeGas(if g.GasOut? then limit else spent);
      if !again.Calm? { return Unwind(again); }
      return if g.GasOut? then Err(ErrSubMsgGas) else Panicked;
    }

    method DispatchMsg(c: Context, contract: Addr, port: PortId, msg: CosmosMsg) returns (out: Outcome<Handled>)
      requires c.store.Valid() && c.ctx.depth <= env.maxCallDepth
      modifies c.store`dirty, c.meter`consumed, c.em`events, c.log`tick, c.log`journal
      ensures (Snapshot(c), out) == Engine.DispatchMsg(env, c.ctx, old(Snapshot(c)), contract, port, msg)
      decreases Room(env, c.ctx), 2, 0
    {
      match env.route(contract, port, msg)
      case NoHandler(e) => return Heard(Err(e));
      case ToRouter(requests) =>
        var r := RunRequests(c, requests);
        return Heard(r);
      case ToHandler(request) =>
        var r := Invoke(c, request);
        return Heard(if r.Ok? then Ok(Direct(r.value)) else Pass(r));
    }

    /** SDK messages run under a fresh event manager each; their events are returned, not emitted. */
    method RunRequests(c: Context, requests: seq<Request>) returns (out: Outcome<Handled>)
      requires c.store.Valid() && c.ctx.depth <= env.maxCallDepth
      modifies c.store`dirty, c.meter`consumed, c.em`events, c.log`tick, c.log`journal
      ensures (Snapshot(c), out) == Engine.RunRequests(env, c.ctx, old(Snapshot(c)), requests, Handled([], [], []))
      decreases Room(env, c.ctx), 1, |requests|
    {
      var acc := Handled([], [], []);
      ghost var before := Snapshot(c);
      for i := 0 to |requests|
        invariant c.store.Valid()
        invariant Engine.RunRequests(env, c.ctx, before, requests, Handled([], [], []))
               == Engine.RunRequests(env, c.ctx, Snapshot(c), requests[i..], acc)
      {
        assert requests[i..][0] == requests[i] && requests[i..][1..] == requests[i + 1..];
        var r := RunRequest(c, requests[i]);
        if !r.Ok? { return Pass(r); }
        acc := Join(acc, r.value.0, r.value.1);
      }
      assert requests[|requests|..] == [];
      return Ok(acc);
    }

    method RunRequest(c: Context, req: Request) returns (out: Outcome<(seq<Event>, (bytes, seq<Any>))>)
      requires c.store.Valid() && c.ctx.depth <= env.maxCallDepth
      modifies c.store`dirty, c.meter`consumed, c.em`events, c.log`tick, c.log`journal
      ensures (Snapshot(c), out) == Engine.RunRequest(env, c.ctx, old(Snapshot(c)), req)
      decreases Room(env, c.ctx), 0, 2
    {
      var em := new EventManager();
      c.log.Log(Routed);
      var r := Invoke(c.(em := em), req);
      c.log.Log(Closed(Returned));
      return if r.Ok? then Ok((em.events, Encoded(env, req, r.value))) else Pass(r);
    }
  }
}
