/**
 * What dispatching a contract response means, on values.
 *
 * A World is what a run threads: the store, the gas meter in force, the events emitted into
 * the current event manager and a journal that only ever grows. A submessage that fails puts
 * the caller's store and events back; gas and journal are never put back.
 *
 * Contracts, message handlers and the store operations of the keeper enter as one function,
 * `leaf`, which stands for everything a call does before its response is dispatched.
 */
module Engine {
  import opened Base
  import opened Types
  import opened Meters
  import GasRegister

  /** The four ways a Go call here can end; the last two unwind as panics. */
  datatype Outcome<+T> = Ok(value: T) | Err(error: Error) | OutOfGas | Panicked

  /** The result of a message handler: events, data and responses, one entry per SDK message. */
  datatype Handled = Handled(events: seq<Event>, data: seq<bytes>, responses: seq<seq<Any>>)

  datatype LeafEnd =
    | Done(data: seq<bytes>, responses: seq<seq<Any>>)
    | Respond(contract: Addr, port: PortId, policy: Option<Policy>, response: Response)
    | Fail(error: Error)
    | Panic
    | Exhaust  // an out-of-gas panic raised by a price that does not fit in a word

  /** The store writes, gas charges and events of one call, and how the call ended. */
  datatype LeafResult = LeafResult(writes: seq<Write>, charges: seq<Charge>, events: seq<Event>, end: LeafEnd)

  /** Which handler of the chain takes a contract message. */
  datatype Route =
    | ToRouter(requests: seq<Request>)  // SDKMessageHandler: each request has its own event manager
    | ToHandler(request: Request)       // raw IBC and burn handlers run in the caller's context
    | NoHandler(error: Error)

  /** Any limit but the largest word: there the counter would wrap before it could exceed it. */
  type DepthLimit = n: int | 0 <= n < TWO32 - 1

  datatype Env = Env(
    maxCallDepth: DepthLimit,
    register: GasRegister.Config,
    leaf: (Store, Meter, Ctx, Request) -> LeafResult,
    route: (Addr, PortId, CosmosMsg) -> Route,
    publish: (Addr, seq<Attribute>, seq<Event>) -> Result<seq<Event>, Error>,
    encode: (Request, Option<bytes>) -> (bytes, seq<Any>))

  datatype Closing = Committed(sorted: bool) | Dropped | Absorbed | Returned

  datatype Token =
    | Called(tick: nat, ctx: Ctx, store: Store, request: Request)
    | Worked(writes: seq<Write>, charges: seq<Charge>, events: seq<Event>)
    | Raised(signal: Signal)
    | Routed
    | Opened(limit: Option<u64>)
    | Closed(how: Closing)

  datatype World = World(store: Store, meter: Meter, events: seq<Event>, tick: nat, journal: seq<Token>) {
    function Log(t: Token): (w: World) {
      this.(journal := journal + [t])
    }
  }

  // ---------------------------------------------------------------- events and errors

  predicate Less(a: string, b: string)
    decreases |a|
  {
    if b == "" then false
    else if a == "" then true
    else if a[0] != b[0] then a[0] < b[0]
    else Less(a[1..], b[1..])
  }

  function InsertAttribute(a: Attribute, s: seq<Attribute>): (r: seq<Attribute>) {
    if s == [] || !Less(s[0].key, a.key) then [a] + s else [s[0]] + InsertAttribute(a, s[1..])
  }

  /** The stable sort by key that wasm submessages apply to their events in place. */
  function SortAttributes(s: seq<Attribute>): (r: seq<Attribute>) {
    if s == [] then [] else InsertAttribute(s[0], SortAttributes(s[1..]))
  }

  function FilterEvents(events: seq<Event>): (r: seq<Event>) {
    if events == [] then []
    else (if events[0].kind != "message" then [events[0]] else []) + FilterEvents(events[1..])
  }

  function SortEvents(events: seq<Event>): (r: seq<Event>) {
    if events == [] then []
    else [events[0].(attributes := SortAttributes(events[0].attributes))] + SortEvents(events[1..])
  }

  /** What crosses the boundary of a committed submessage. */
  function Boundary(sorted: bool, events: seq<Event>): (r: seq<Event>) {
    if sorted then SortEvents(FilterEvents(events)) else FilterEvents(events)
  }

  function Decimal(n: nat): (r: string) {
    (if n < 10 then "" else Decimal(n / 10)) + [['0', '1', '2', '3', '4', '5', '6', '7', '8', '9'][n % 10]]
  }

  function RedactError(e: Error): (r: string) {
    if e.deterministic then e.text else "codespace: " + e.codespace + ", code: " + Decimal(e.code)
  }

  const ErrInvalidReplyOn := Error("wasm", 14, "replyOn value", false)
  const ErrCallDepth := Error("wasm", 30, "max call depth exceeded", false)
  const ErrUnknownMsg := Error("wasm", 20, "unknown message from the contract", false)
  const ErrSubMsgGas := Error("sdk", 11, "SubMsg hit gas limit", false)

  // ---------------------------------------------------------------- small steps

  /** checkAndIncreaseCallDepth: the counter is a 32-bit word. */
  function NextDepth(limit: u32, depth: u32): (r: Option<u32>) {
    var d := (depth + 1) % TWO32;
    if d > limit then None else Some(d)
  }

  /** Writes, charges and emitted events of one piece of work. */
  function Work(w: World, writes: seq<Write>, charges: seq<Charge>, events: seq<Event>): (r: (World, Signal)) {
    var (m, g) := ChargeAll(w.meter, charges);
    (World(Apply(w.store, writes), m, if g.Calm? then w.events + events else w.events, w.tick,
           w.journal + [Worked(writes, charges, events)]), g)
  }

  /** An outcome that is not a success, seen by the next caller. */
  function Pass<T, U>(out: Outcome<T>): (r: Outcome<U>)
    requires !out.Ok?
  {
    match out
    case Err(e) => Err(e)
    case OutOfGas => OutOfGas
    case Panicked => Panicked
  }

  predicate IsUnknown(e: Error) {
    e.codespace == ErrUnknownMsg.codespace && e.code == ErrUnknownMsg.code
  }

  /** What the handler chain makes of a handler's outcome: an unknown message, at whatever depth, is known to nobody. */
  function Heard<T>(out: Outcome<T>): (r: Outcome<T>) {
    if out.Err? && IsUnknown(out.error) then Err(ErrUnknownMsg) else out
  }

  /** The panic a signal stands for. */
  function Unwind<T>(g: Signal): (r: Outcome<T>)
    requires !g.Calm?
  {
    if g.GasOut? then OutOfGas else Panicked
  }

  /**
   * dispatchMsgWithGasLimit after the inner dispatch: an out-of-gas panic is turned into an
   * error and costs the whole limit, everything else costs what the inner meter consumed.
   * A panic of the final charge itself runs through the same recovery.
   */
  function Settle<T>(m: Meter, limit: u64, spent: u64, out: Outcome<T>): (r: (Meter, Outcome<T>)) {
    match out
    case OutOfGas =>
      var (m', g) := Consume(m, limit);
      (m', if g.Calm? then Err(ErrSubMsgGas) else Unwind(g))
    case Panicked =>
      var (m', g) := Consume(m, spent);
      (m', if g.Calm? then Panicked else Unwind(g))
    case _ =>
      var (m', g) := Consume(m, spent);
      if g.Calm? then (m', out)
      else
        var (m'', g') := Consume(m', if g.GasOut? then limit else spent);
        (m'', if !g'.Calm? then Unwind(g') else if g.GasOut? then Err(ErrSubMsgGas) else Panicked)
  }

  function Join(acc: Handled, events: seq<Event>, more: (bytes, seq<Any>)): (r: Handled) {
    Handled(acc.events + events, acc.data + [more.0], acc.responses + [more.1])
  }

  /** What a contract sees of a submessage that succeeded. */
  function Succeeded(wasm: bool, events: seq<Event>, h: Handled): (r: SubMsgResult) {
    SubOk(if wasm then events else [], if h.data == [] then [] else h.data[0], FlattenSeq(h.responses))
  }

  predicate IsLimited(m: Meter, msg: SubMsg) {
    msg.gasLimit.Some? && msg.gasLimit.value < Remaining(m)
  }

  /** The world a submessage starts in: the caller's store, no events, perhaps its own meter. */
  function Enter(w: World, msg: SubMsg): (r: World) {
    var limited := IsLimited(w.meter, msg);
    World(w.store, if limited then NewMeter(msg.gasLimit.value) else w.meter, [], w.tick,
          w.journal + [Opened(if limited then msg.gasLimit else None)])
  }

  /** The caller's meter after the submessage, and the outcome it sees. */
  function Leave(m: Meter, msg: SubMsg, inner: Meter, out: Outcome<Handled>): (r: (Meter, Outcome<Handled>)) {
    if IsLimited(m, msg) then Settle(m, msg.gasLimit.value, inner.consumed, out) else (inner, out)
  }

  /** Commit or drop the sandbox w' of a caller at w whose meter is now m. */
  function Close(w: World, w': World, m: Meter, wasm: bool, gasOut: bool, settled: Outcome<Handled>)
    : (r: (World, Outcome<SubMsgResult>))
  {
    match settled
    case Ok(h) =>
      var events := Boundary(wasm, w'.events + h.events);
      (World(w'.store, m, w.events + events, w'.tick, w'.journal + [Closed(Committed(wasm))]),
       Ok(Succeeded(wasm, events, h)))
    case Err(e) =>
      (World(w.store, m, w.events, w'.tick, w'.journal + [Closed(if gasOut then Absorbed else Dropped)]), Err(e))
    case OutOfGas => (World(w.store, m, w.events, w'.tick, w'.journal + [Closed(Dropped)]), OutOfGas)
    case Panicked => (World(w.store, m, w.events, w'.tick, w'.journal + [Closed(Dropped)]), Panicked)
  }

  // ---------------------------------------------------------------- the mutual recursion

  function Room(env: Env, ctx: Ctx): (n: nat)
    requires ctx.depth <= env.maxCallDepth
  {
    env.maxCallDepth - ctx.depth
  }

  /** A contract's data, or what a native handler returned. */
  datatype Answer = Data(data: Option<bytes>) | Plainly(parts: seq<bytes>, responses: seq<seq<Any>>)

  /** A direct handler's result; it emits its events itself. */
  function Direct(answer: Answer): (h: Handled) {
    match answer
    case Data(_) => Handled([], [], [])
    case Plainly(parts, responses) => Handled([], parts, responses)
  }

  /** The data and responses of one routed SDK message. */
  function Encoded(env: Env, req: Request, answer: Answer): (r: (bytes, seq<Any>)) {
    match answer
    case Data(data) => env.encode(req, data)
    case Plainly(parts, responses) => (if parts == [] then [] else parts[0], FlattenSeq(responses))
  }

  /** A call's own work: the world after it, what it raised and how the call went on. */
  datatype Begun = Begun(world: World, signal: Signal, end: LeafEnd)

  function Begin(env: Env, ctx: Ctx, w: World, req: Request): (b: Begun) {
    var l := env.leaf(w.store, w.meter, ctx, req);
    var called := w.(tick := w.tick + 1).Log(Called(w.tick, ctx, w.store, req));
    var (w', g) := Work(called, l.writes, l.charges, l.events);
    Begun(w', g, l.end)
  }

  /** A contract's answer; execute and packet receive pass a dispatch error on as it is, the others wrap it. */
  function Concluded(req: Request, out: Outcome<Option<bytes>>): (r: Outcome<Answer>) {
    match out
    case Ok(data) => Ok(Data(data))
    case Err(e) => Err(if req.Execute? || req.Receive? then e else Wrap(e, "dispatch"))
    case OutOfGas => OutOfGas
    case Panicked => Panicked
  }

  /** One call: its own work and then, for a contract, the dispatch of its response. */
  function Invoke(env: Env, ctx: Ctx, w: World, req: Request): (r: (World, Outcome<Answer>))
    requires ctx.depth <= env.maxCallDepth
    decreases Room(env, ctx), 0, 1
  {
    var b := Begin(env, ctx, w, req);
    if !b.signal.Calm? then (b.world, Unwind(b.signal))
    else
      match b.end
      case Done(data, responses) => (b.world, Ok(Plainly(data, responses)))
      case Fail(e) => (b.world, Err(e))
      case Panic => (b.world.Log(Raised(Overflow)), Panicked)
      case Exhaust => (b.world.Log(Raised(GasOut)), OutOfGas)
      case Respond(contract, port, policy, response) =>
        var (w', out) := HandleResponse(env, ctx.(policy := policy), b.world, contract, port, response);
        (w', Concluded(req, out))
  }

  /** handleContractResponse and Handle: price and emit the events, then dispatch one level deeper. */
  function HandleResponse(env: Env, ctx: Ctx, w: World, contract: Addr, port: PortId, response: Response)
    : (r: (World, Outcome<Option<bytes>>))
    requires ctx.depth <= env.maxCallDepth
    decreases Room(env, ctx), 0, 0
  {
    match GasRegister.EventCosts(env.register, response.attributes, response.events)
    case None => (w.Log(Raised(GasOut)), OutOfGas)
    case Some(cost) =>
      var published := env.publish(contract, response.attributes, response.events);
      var (w', g) := Work(w, [], [Plain(cost)], if published.Success? then published.value else []);
      if !g.Calm? then (w', Unwind(g))
      else if published.Failure? then (w', Err(published.error))
      else
        match NextDepth(env.maxCallDepth, ctx.depth)
        case None => (w', Err(ErrCallDepth))
        case Some(d) =>
          assert d == ctx.depth + 1;
          var (w'', out) := DispatchSubmessages(env, ctx.(depth := d), w', contract, port, response.messages, None);
          (w'', if out.Ok? then Ok(out.value.OrElse(response.data)) else out)
  }

  function DispatchSubmessages(env: Env, ctx: Ctx, w: World, contract: Addr, port: PortId, msgs: seq<SubMsg>, rsp: Option<bytes>)
    : (r: (World, Outcome<Option<bytes>>))
    requires ctx.depth <= env.maxCallDepth
    decreases Room(env, ctx), 5, |msgs|
  {
    if msgs == [] then (w, Ok(rsp))
    else
      var (w', out) := SubmessageAndReply(env, ctx, w, contract, port, msgs[0]);
      if out.Ok? then DispatchSubmessages(env, ctx, w', contract, port, msgs[1..], out.value.OrElse(rsp)) else (w', out)
  }

  /** One turn of the dispatch loop: the data of the reply, if there was one. */
  function SubmessageAndReply(env: Env, ctx: Ctx, w: World, contract: Addr, port: PortId, msg: SubMsg)
    : (r: (World, Outcome<Option<bytes>>))
    requires ctx.depth <= env.maxCallDepth
    decreases Room(env, ctx), 4, 0
  {
    if msg.replyOn.ReplyInvalid? then (w, Err(ErrInvalidReplyOn))
    else
      var (w', out) := RunSub(env, ctx, w, contract, port, msg);
      match out
      case OutOfGas => (w', OutOfGas)
      case Panicked => (w', Panicked)
      case Ok(result) =>
        if msg.replyOn.ReplyNever? || msg.replyOn.ReplyError? then (w', Ok(None))
        else SendReply(env, ctx, w', contract, msg, result)
      case Err(e) =>
        if msg.replyOn.ReplyNever? || msg.replyOn.ReplySuccess? then (w', Err(e))
        else SendReply(env, ctx, w', contract, msg, SubErr(RedactError(e)))
  }

  function SendReply(env: Env, ctx: Ctx, w: World, contract: Addr, msg: SubMsg, result: SubMsgResult)
    : (r: (World, Outcome<Option<bytes>>))
    requires ctx.depth <= env.maxCallDepth
    decreases Room(env, ctx), 1, 0
  {
    var (w', out) := Invoke(env, ctx, w, Reply(contract, msg.id, result, msg.payload));
    (w', if out.Ok? then Ok(if out.value.Data? then out.value.data else None)
         else if out.Err? then Err(Wrap(out.error, "reply"))
         else Pass(out))
  }

  /** A submessage in its sandbox: all of its store and events, or none of them. */
  function RunSub(env: Env, ctx: Ctx, w: World, contract: Addr, port: PortId, msg: SubMsg)
    : (r: (World, Outcome<SubMsgResult>))
    requires ctx.depth <= env.maxCallDepth
    decreases Room(env, ctx), 3, 0
  {
    var (w', out) := DispatchMsg(env, ctx, Enter(w, msg), contract, port, msg.msg);
    var (m, settled) := Leave(w.meter, msg, w'.meter, out);
    Close(w, w', m, msg.msg.Wasm?, out.OutOfGas?, settled)
  }

  /** The handler chain: the requests of the router one by one, or a single direct handler. */
  function DispatchMsg(env: Env, ctx: Ctx, w: World, contract: Addr, port: PortId, msg: CosmosMsg)
    : (r: (World, Outcome<Handled>))
    requires ctx.depth <= env.maxCallDepth
    decreases Room(env, ctx), 2, 0
  {
    match env.route(contract, port, msg)
    case NoHandler(e) => (w, Heard(Err(e)))
    case ToRouter(requests) =>
      var (w', out) := RunRequests(env, ctx, w, requests, Handled([], [], []));
      (w', Heard(out))
    case ToHandler(request) =>
      var (w', out) := Invoke(env, ctx, w, request);
      (w', Heard(if out.Ok? then Ok(Direct(out.value)) else Pass(out)))
  }

  /** SDKMessageHandler.DispatchMsg: the events of each request are collected, not emitted. */
  function RunRequests(env: Env, ctx: Ctx, w: World, requests: seq<Request>, acc: Handled)
    : (r: (World, Outcome<Handled>))
    requires ctx.depth <= env.maxCallDepth
    decreases Room(env, ctx), 1, |requests|
  {
    if requests == [] then (w, Ok(acc))
    else
      var (w', out) := RunRequest(env, ctx, w, requests[0]);
      if out.Ok? then RunRequests(env, ctx, w', requests[1..], Join(acc, out.value.0, out.value.1)) else (w', Pass(out))
  }

  /** One routed SDK message under its own event manager: its events, data and responses. */
  function RunRequest(env: Env, ctx: Ctx, w: World, req: Request): (r: (World, Outcome<(seq<Event>, (bytes, seq<Any>))>))
    requires ctx.depth <= env.maxCallDepth
    decreases Room(env, ctx), 0, 2
  {
    var (w', out) := Invoke(env, ctx, w.(events := []).Log(Routed), req);
    (w'.(events := w.events).Log(Closed(Returned)),
     if out.Ok? then Ok((w'.events, Encoded(env, req, out.value))) else Pass(out))
  }
}
