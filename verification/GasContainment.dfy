/** Gas over a dispatch tree: never given back, and contained by a submessage's own limit. */
module GasContainment {
  import opened Base
  import opened Types
  import opened Meters
  import opened Engine
  import GasRegister

  /** Consumption, the call counter and the journal only ever grow, whatever is rolled back. */
  ghost predicate Advances(w: World, w': World) {
    && w'.meter.limit == w.meter.limit && w'.meter.infinite == w.meter.infinite
    && w'.meter.consumed >= w.meter.consumed
    && w'.tick >= w.tick
    && w.journal <= w'.journal
  }

  /** A run that does not unwind leaves its meter within the limit. */
  ghost predicate Sound<T>(w: World, w': World, out: Outcome<T>) {
    Advances(w, w') && (WithinLimit(w.meter) && (out.Ok? || out.Err?) ==> WithinLimit(w'.meter))
  }

  lemma WorkAdvances(w: World, writes: seq<Write>, charges: seq<Charge>, events: seq<Event>)
    ensures var (w', g) := Work(w, writes, charges, events);
            Advances(w, w') && (WithinLimit(w.meter) && g.Calm? ==> WithinLimit(w'.meter))
  {
    ChargeAllGrows(w.meter, charges);
  }

  lemma BeginAdvances(env: Env, ctx: Ctx, w: World, req: Request)
    ensures var b := Begin(env, ctx, w, req);
            Advances(w, b.world) && (WithinLimit(w.meter) && b.signal.Calm? ==> WithinLimit(b.world.meter))
  {
    var l := env.leaf(w.store, w.meter, ctx, req);
    WorkAdvances(w.(tick := w.tick + 1).Log(Called(w.tick, ctx, w.store, req)), l.writes, l.charges, l.events);
  }

  lemma {:induction false} InvokeSound(env: Env, ctx: Ctx, w: World, req: Request)
    requires ctx.depth <= env.maxCallDepth
    ensures var (w', out) := Invoke(env, ctx, w, req); Sound(w, w', out)
    decreases Room(env, ctx), 0, 1
  {
    BeginAdvances(env, ctx, w, req);
    var b := Begin(env, ctx, w, req);
    if b.signal.Calm? && b.end.Respond? {
      HandleResponseSound(env, ctx.(policy := b.end.policy), b.world, b.end.contract, b.end.port, b.end.response);
    }
  }

  lemma {:induction false} HandleResponseSound(env: Env, ctx: Ctx, w: World, contract: Addr, port: PortId, response: Response)
    requires ctx.depth <= env.maxCallDepth
    ensures var (w', out) := HandleResponse(env, ctx, w, contract, port, response); Sound(w, w', out)
    decreases Room(env, ctx), 0, 0
  {
    var cost := GasRegister.EventCosts(env.register, response.attributes, response.events);
    if cost.Some? {
      var published := env.publish(contract, response.attributes, response.events);
      var events := if published.Success? then published.value else [];
      WorkAdvances(w, [], [Plain(cost.value)], events);
      var (w', g) := Work(w, [], [Plain(cost.value)], events);
      var d := NextDepth(env.maxCallDepth, ctx.depth);
      if g.Calm? && published.Success? && d.Some? {
        DispatchSubmessagesSound(env, ctx.(depth := d.value), w', contract, port, response.messages, None);
      }
    }
  }

  lemma {:induction false} DispatchSubmessagesSound(env: Env, ctx: Ctx, w: World, contract: Addr, port: PortId, msgs: seq<SubMsg>, rsp: Option<bytes>)
    requires ctx.depth <= env.maxCallDepth
    ensures var (w', out) := DispatchSubmessages(env, ctx, w, contract, port, msgs, rsp); Sound(w, w', out)
    decreases Room(env, ctx), 5, |msgs|
  {
    if msgs != [] {
      SubmessageAndReplySound(env, ctx, w, contract, port, msgs[0]);
      var (w', out) := SubmessageAndReply(env, ctx, w, contract, port, msgs[0]);
      if out.Ok? {
        DispatchSubmessagesSound(env, ctx, w', contract, port, msgs[1..], out.value.OrElse(rsp));
      }
    }
  }

  lemma {:induction false} SubmessageAndReplySound(env: Env, ctx: Ctx, w: World, contract: Addr, port: PortId, msg: SubMsg)
    requires ctx.depth <= env.maxCallDepth
    ensures var (w', out) := SubmessageAndReply(env, ctx, w, contract, port, msg); Sound(w, w', out)
    decreases Room(env, ctx), 4, 0
  {
    RunSubSound(env, ctx, w, contract, port, msg);
    var (w', out) := RunSub(env, ctx, w, contract, port, msg);
    match out
    case OutOfGas =>
    case Panicked =>
    case Ok(result) => InvokeSound(env, ctx, w', Reply(contract, msg.id, result, msg.payload));
    case Err(e) => InvokeSound(env, ctx, w', Reply(contract, msg.id, SubErr(RedactError(e)), msg.payload));
  }

  lemma {:induction false} RunSubSound(env: Env, ctx: Ctx, w: World, contract: Addr, port: PortId, msg: SubMsg)
    requires ctx.depth <= env.maxCallDepth
    ensures var (w', out) := RunSub(env, ctx, w, contract, port, msg); Sound(w, w', out)
    decreases Room(env, ctx), 3, 0
  {
    DispatchMsgSound(env, ctx, Enter(w, msg), contract, port, msg.msg);
    var (w', out) := DispatchMsg(env, ctx, Enter(w, msg), contract, port, msg.msg);
    LeaveSound(w.meter, msg, w'.meter, out);
  }

  lemma LeaveSound(m: Meter, msg: SubMsg, inner: Meter, out: Outcome<Handled>)
    requires !IsLimited(m, msg) ==> inner.limit == m.limit && inner.infinite == m.infinite && inner.consumed >= m.consumed
    requires !IsLimited(m, msg) && WithinLimit(m) && (out.Ok? || out.Err?) ==> WithinLimit(inner)
    ensures var (m', settled) := Leave(m, msg, inner, out);
            m'.limit == m.limit && m'.infinite == m.infinite && m'.consumed >= m.consumed
            && (WithinLimit(m) && (settled.Ok? || settled.Err?) ==> WithinLimit(m'))
  {}

  lemma {:induction false} DispatchMsgSound(env: Env, ctx: Ctx, w: World, contract: Addr, port: PortId, msg: CosmosMsg)
    requires ctx.depth <= env.maxCallDepth
    ensures var (w', out) := DispatchMsg(env, ctx, w, contract, port, msg); Sound(w, w', out)
    decreases Room(env, ctx), 2, 0
  {
    match env.route(contract, port, msg)
    case NoHandler(_) =>
    case ToRouter(requests) => RunRequestsSound(env, ctx, w, requests, Handled([], [], []));
    case ToHandler(request) => InvokeSound(env, ctx, w, request);
  }

  lemma {:induction false} RunRequestsSound(env: Env, ctx: Ctx, w: World, requests: seq<Request>, acc: Handled)
    requires ctx.depth <= env.maxCallDepth
    ensures var (w', out) := RunRequests(env, ctx, w, requests, acc); Sound(w, w', out)
    decreases Room(env, ctx), 1, |requests|
  {
    if requests != [] {
      RunRequestSound(env, ctx, w, requests[0]);
      var (w', out) := RunRequest(env, ctx, w, requests[0]);
      if out.Ok? {
        RunRequestsSound(env, ctx, w', requests[1..], Join(acc, out.value.0, out.value.1));
      }
    }
  }

  lemma {:induction false} RunRequestSound(env: Env, ctx: Ctx, w: World, req: Request)
    requires ctx.depth <= env.maxCallDepth
    ensures var (w', out) := RunRequest(env, ctx, w, req); Sound(w, w', out)
    decreases Room(env, ctx), 0, 2
  {
    InvokeSound(env, ctx, w.(events := []).Log(Routed), req);
  }

  // ---------------------------------------------------------------- containment

  /**
   * A gas-limited submessage that returns costs its caller exactly what it consumed, or
   * exactly its limit when it ran out of gas, and that charge never exhausts the caller:
   * out of gas below comes back as an error, and as nothing else.
   */
  lemma LimitedSubmessageIsContained(env: Env, ctx: Ctx, w: World, contract: Addr, port: PortId, msg: SubMsg)
    requires ctx.depth <= env.maxCallDepth
    requires WithinLimit(w.meter) && IsLimited(w.meter, msg)
    ensures var (inner, out) := DispatchMsg(env, ctx, Enter(w, msg), contract, port, msg.msg);
            var (w', seen) := RunSub(env, ctx, w, contract, port, msg);
            !out.Panicked? ==>
              && w'.meter.consumed == w.meter.consumed + (if out.OutOfGas? then msg.gasLimit.value else inner.meter.consumed)
              && w'.meter.consumed <= w.meter.consumed + msg.gasLimit.value
              && !IsOutOfGas(w'.meter)
              && (out.OutOfGas? ==> seen == Err(ErrSubMsgGas))
              && (out.Ok? <==> seen.Ok?)
              && (out.Err? ==> seen == Err(out.error))
  {
    var (inner, out) := DispatchMsg(env, ctx, Enter(w, msg), contract, port, msg.msg);
    DispatchMsgSound(env, ctx, Enter(w, msg), contract, port, msg.msg);
    RemainingIsExact(w.meter);
    if !out.Panicked? {
      SettleIsContained(w.meter, msg.gasLimit.value, inner.meter.consumed, out);
    }
  }

  lemma SettleIsContained<T>(m: Meter, limit: u64, spent: u64, out: Outcome<T>)
    requires WithinLimit(m) && limit < Remaining(m)
    requires !out.Panicked? && (!out.OutOfGas? ==> spent <= limit)
    ensures var (m', settled) := Settle(m, limit, spent, out);
            && m' == m.(consumed := m.consumed + (if out.OutOfGas? then limit else spent))
            && settled == (if out.OutOfGas? then Err(ErrSubMsgGas) else out)
            && !IsOutOfGas(m')
  {
    RemainingIsExact(m);
  }

  lemma RemainingIsExact(m: Meter)
    requires WithinLimit(m)
    ensures Remaining(m) == (if m.infinite then MAX_U64 else m.limit) - m.consumed
  {}

  /**
   * Without a limit of its own, a submessage that runs out of gas takes its caller with it:
   * no reply is sent and no later submessage runs, whatever ReplyOn asks for.
   */
  lemma UnlimitedOutOfGasEscapes(env: Env, ctx: Ctx, w: World, contract: Addr, port: PortId, msgs: seq<SubMsg>, rsp: Option<bytes>)
    requires ctx.depth <= env.maxCallDepth && msgs != [] && !msgs[0].replyOn.ReplyInvalid?
    requires !IsLimited(w.meter, msgs[0])
    ensures var (inner, out) := DispatchMsg(env, ctx, Enter(w, msgs[0]), contract, port, msgs[0].msg);
            var (w', seen) := DispatchSubmessages(env, ctx, w, contract, port, msgs, rsp);
            out.OutOfGas? ==>
              seen.OutOfGas? && w'.store == w.store && w'.events == w.events
              && w'.meter == inner.meter && w'.tick == inner.tick
  {
    var (inner, out) := DispatchMsg(env, ctx, Enter(w, msgs[0]), contract, port, msgs[0].msg);
    if out.OutOfGas? {
      assert RunSub(env, ctx, w, contract, port, msgs[0]).1.OutOfGas?;
      assert SubmessageAndReply(env, ctx, w, contract, port, msgs[0]).1.OutOfGas?;
    }
  }
}
