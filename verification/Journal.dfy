/**
 * A small machine that replays the journal of a run: a stack of frames, one per sandbox.
 * It knows nothing of contracts, replies or recursion. Opening a sandbox pushes a copy of the
 * store with no events and, if the sandbox is gas-limited, a new meter; closing it either
 * hands store and events down (without "message" events) or forgets them. Out of gas puts the
 * machine into a mode in which only unlimited sandboxes may be dropped, until the nearest
 * gas-limited one absorbs it.
 */
module Journal {
  import opened Base
  import opened Types
  import opened Meters
  import opened Engine
  import opened GasContainment
  import GasRegister

  datatype Kind = Base | Router | Sub(limit: Option<u64>)

  datatype Frame = Frame(store: Store, meter: Meter, events: seq<Event>, kind: Kind)

  datatype Mode = Running | Starved | Panicking

  datatype Machine = Machine(frames: seq<Frame>, mode: Mode) | Stuck

  function SignalMode(g: Signal): (m: Mode) {
    match g
    case Calm => Running
    case GasOut => Starved
    case Overflow => Panicking
  }

  /** What a closed gas-limited sandbox costs the frame below it. */
  function Pay(below: Frame, amount: u64): (r: (Frame, Signal)) {
    var (m, g) := Consume(below.meter, amount);
    (below.(meter := m), g)
  }

  function CloseFrame(top: Frame, below: Frame, mode: Mode, how: Closing): (r: Option<(Frame, Mode)>) {
    match how
    case Returned =>
      if !top.kind.Router? then None
      else Some((below.(store := top.store, meter := top.meter, events := below.events + top.events), mode))
    case Committed(sorted) =>
      if !top.kind.Sub? || !mode.Running? then None
      else
        var handed := below.(store := top.store, events := below.events + Boundary(sorted, top.events));
        if top.kind.limit.None? then Some((handed.(meter := top.meter), Running))
        else
          var (paid, g) := Pay(handed, top.meter.consumed);
          if g.Calm? then Some((paid, Running)) else None
    case Absorbed =>
      if !top.kind.Sub? || top.kind.limit.None? || !mode.Starved? then None
      else
        var (paid, g) := Pay(below, top.kind.limit.value);
        if g.Calm? then Some((paid, Running)) else None
    case Dropped =>
      if !top.kind.Sub? then None
      else if top.kind.limit.None? then Some((below.(meter := top.meter), mode))
      else if mode.Starved? then None
      else
        var (paid, g) := Pay(below, top.meter.consumed);
        if mode.Running? && !g.Calm? then None
        else Some((paid, if g.Calm? then mode else SignalMode(g)))
  }

  function Step(m: Machine, t: Token): (r: Machine) {
    if m.Stuck? || m.frames == [] then Stuck
    else
      var top, rest := m.frames[0], m.frames[1..];
      match t
      case Called(_, _, store, _) =>
        if m.mode.Running? && store == top.store then m else Stuck
      case Worked(writes, charges, events) =>
        if !m.mode.Running? then Stuck
        else
          var (meter, g) := ChargeAll(top.meter, charges);
          Machine([Frame(Apply(top.store, writes), meter, if g.Calm? then top.events + events else top.events, top.kind)] + rest,
                  SignalMode(g))
      case Raised(g) => if m.mode.Running? then m.(mode := SignalMode(g)) else Stuck
      case Routed => if m.mode.Running? then Machine([Frame(top.store, top.meter, [], Router)] + m.frames, Running) else Stuck
      case Opened(limit) =>
        if !m.mode.Running? then Stuck
        else Machine([Frame(top.store, if limit.Some? then NewMeter(limit.value) else top.meter, [], Sub(limit))] + m.frames, Running)
      case Closed(how) =>
        if rest == [] then Stuck
        else
          match CloseFrame(top, rest[0], m.mode, how)
          case None => Stuck
          case Some((below, mode)) => Machine([below] + rest[1..], mode)
  }

  function Replay(m: Machine, tokens: seq<Token>): (r: Machine)
    decreases |tokens|
  {
    if tokens == [] then m else Replay(Step(m, tokens[0]), tokens[1..])
  }

  lemma {:induction false} ReplayConcat(m: Machine, a: seq<Token>, b: seq<Token>)
    ensures Replay(m, a + b) == Replay(Replay(m, a), b)
    decreases |a|
  {
    if a == [] {
      assert a + b == b;
    } else {
      assert (a + b)[1..] == a[1..] + b;
      ReplayConcat(Step(m, a[0]), a[1..], b);
    }
  }

  lemma ReplayOne(m: Machine, t: Token)
    ensures Replay(m, [t]) == Step(m, t)
  {
    assert [t][1..] == [];
  }

  function OutcomeMode<T>(out: Outcome<T>): (m: Mode) {
    match out
    case Ok(_) => Running
    case Err(_) => Running
    case OutOfGas => Starved
    case Panicked => Panicking
  }

  /** The machine at world w, with the given events in its top frame. */
  function At(w: World, events: seq<Event>, kind: Kind, rest: seq<Frame>, mode: Mode): (m: Machine) {
    Machine([Frame(w.store, w.meter, events, kind)] + rest, mode)
  }

  /** Replaying what w' added to the journal of w leads from one machine to the other. */
  ghost predicate Leads(w: World, from: Machine, w': World, to: Machine) {
    w.journal <= w'.journal && Replay(from, w'.journal[|w.journal|..]) == to
  }

  lemma LeadsOn(a: World, ma: Machine, b: World, mb: Machine, c: World, mc: Machine)
    requires Leads(a, ma, b, mb) && Leads(b, mb, c, mc)
    ensures Leads(a, ma, c, mc)
  {
    ReplayConcat(ma, b.journal[|a.journal|..], c.journal[|b.journal|..]);
    assert c.journal[|a.journal|..] == b.journal[|a.journal|..] + c.journal[|b.journal|..];
  }

  lemma LeadsByOne(a: World, ma: Machine, b: World, t: Token)
    requires b.journal == a.journal + [t]
    ensures Leads(a, ma, b, Step(ma, t))
  {
    assert b.journal[|a.journal|..] == [t];
    ReplayOne(ma, t);
  }

  lemma LeadsNowhere(a: World, m: Machine)
    ensures Leads(a, m, a, m)
  {
    assert a.journal[|a.journal|..] == [];
  }

  lemma WorkReplays(w: World, writes: seq<Write>, charges: seq<Charge>, events: seq<Event>, kind: Kind, rest: seq<Frame>)
    ensures var (w', g) := Work(w, writes, charges, events);
            Leads(w, At(w, w.events, kind, rest, Running), w', At(w', w'.events, kind, rest, SignalMode(g)))
  {
    var (w', g) := Work(w, writes, charges, events);
    LeadsByOne(w, At(w, w.events, kind, rest, Running), w', Worked(writes, charges, events));
  }

  /** A run from w to w' replays on top of any frames. */
  ghost predicate Replays<T>(w: World, w': World, out: Outcome<T>, kind: Kind, rest: seq<Frame>) {
    Leads(w, At(w, w.events, kind, rest, Running), w', At(w', w'.events, kind, rest, OutcomeMode(out)))
  }

  /** A call's own work, before its response is dispatched. */
  lemma BeginReplays(env: Env, ctx: Ctx, w: World, req: Request, kind: Kind, rest: seq<Frame>)
    ensures var b := Begin(env, ctx, w, req);
            Leads(w, At(w, w.events, kind, rest, Running), b.world, At(b.world, b.world.events, kind, rest, SignalMode(b.signal)))
  {
    var l := env.leaf(w.store, w.meter, ctx, req);
    var called := w.(tick := w.tick + 1).Log(Called(w.tick, ctx, w.store, req));
    var (w', g) := Work(called, l.writes, l.charges, l.events);
    var start := At(w, w.events, kind, rest, Running);
    LeadsByOne(w, start, called, Called(w.tick, ctx, w.store, req));
    WorkReplays(called, l.writes, l.charges, l.events, kind, rest);
    LeadsOn(w, start, called, start, w', At(w', w'.events, kind, rest, SignalMode(g)));
  }

  /** Two runs one after the other, the first of them without a panic. */
  lemma Then<T>(w: World, w': World, w'': World, out: Outcome<T>, kind: Kind, rest: seq<Frame>)
    requires Leads(w, At(w, w.events, kind, rest, Running), w', At(w', w'.events, kind, rest, Running))
    requires Replays(w', w'', out, kind, rest)
    ensures Replays(w, w'', out, kind, rest)
  {
    LeadsOn(w, At(w, w.events, kind, rest, Running), w', At(w', w'.events, kind, rest, Running),
            w'', At(w'', w''.events, kind, rest, OutcomeMode(out)));
  }

  lemma {:induction false} InvokeReplays(env: Env, ctx: Ctx, w: World, req: Request, kind: Kind, rest: seq<Frame>)
    requires ctx.depth <= env.maxCallDepth && WithinLimit(w.meter)
    ensures var (w', out) := Invoke(env, ctx, w, req); Replays(w, w', out, kind, rest)
    decreases Room(env, ctx), 0, 1
  {
    BeginReplays(env, ctx, w, req, kind, rest);
    BeginAdvances(env, ctx, w, req);
    var b := Begin(env, ctx, w, req);
    if b.signal.Calm? && b.end.Panic? {
      RaiseReplays(b.world, Overflow, kind, rest);
      Then(w, b.world, b.world.Log(Raised(Overflow)), Outcome<Answer>.Panicked, kind, rest);
    } else if b.signal.Calm? && b.end.Exhaust? {
      RaiseReplays(b.world, GasOut, kind, rest);
      Then(w, b.world, b.world.Log(Raised(GasOut)), Outcome<Answer>.OutOfGas, kind, rest);
    } else if b.signal.Calm? && b.end.Respond? {
      var inner := ctx.(policy := b.end.policy);
      HandleResponseReplays(env, inner, b.world, b.end.contract, b.end.port, b.end.response, kind, rest);
      var (w', out) := HandleResponse(env, inner, b.world, b.end.contract, b.end.port, b.end.response);
      Then(w, b.world, w', out, kind, rest);
    }
  }

  lemma RaiseReplays(w: World, g: Signal, kind: Kind, rest: seq<Frame>)
    requires !g.Calm?
    ensures Replays(w, w.Log(Raised(g)), Unwind<Answer>(g), kind, rest)
  {
    LeadsByOne(w, At(w, w.events, kind, rest, Running), w.Log(Raised(g)), Raised(g));
  }

  lemma {:induction false} HandleResponseReplays(env: Env, ctx: Ctx, w: World, contract: Addr, port: PortId, response: Response, kind: Kind, rest: seq<Frame>)
    requires ctx.depth <= env.maxCallDepth && WithinLimit(w.meter)
    ensures var (w', out) := HandleResponse(env, ctx, w, contract, port, response); Replays(w, w', out, kind, rest)
    decreases Room(env, ctx), 0, 0
  {
    var start := At(w, w.events, kind, rest, Running);
    var cost := GasRegister.EventCosts(env.register, response.attributes, response.events);
    if cost.None? {
      LeadsByOne(w, start, w.Log(Raised(GasOut)), Raised(GasOut));
    } else {
      var published := env.publish(contract, response.attributes, response.events);
      var events := if published.Success? then published.value else [];
      WorkReplays(w, [], [Plain(cost.value)], events, kind, rest);
      WorkAdvances(w, [], [Plain(cost.value)], events);
      var (w', g) := Work(w, [], [Plain(cost.value)], events);
      var d := NextDepth(env.maxCallDepth, ctx.depth);
      if g.Calm? && published.Success? && d.Some? {
        var deeper := ctx.(depth := d.value);
        DispatchSubmessagesReplays(env, deeper, w', contract, port, response.messages, None, kind, rest);
        var (w'', out) := DispatchSubmessages(env, deeper, w', contract, port, response.messages, None);
        Then(w, w', w'', out, kind, rest);
      }
    }
  }

  lemma {:induction false} DispatchSubmessagesReplays(env: Env, ctx: Ctx, w: World, contract: Addr, port: PortId, msgs: seq<SubMsg>, rsp: Option<bytes>, kind: Kind, rest: seq<Frame>)
    requires ctx.depth <= env.maxCallDepth && WithinLimit(w.meter)
    ensures var (w', out) := DispatchSubmessages(env, ctx, w, contract, port, msgs, rsp); Replays(w, w', out, kind, rest)
    decreases Room(env, ctx), 5, |msgs|
  {
    if msgs == [] {
      LeadsNowhere(w, At(w, w.events, kind, rest, Running));
    } else {
      SubmessageAndReplyReplays(env, ctx, w, contract, port, msgs[0], kind, rest);
      SubmessageAndReplySound(env, ctx, w, contract, port, msgs[0]);
      var (w', out) := SubmessageAndReply(env, ctx, w, contract, port, msgs[0]);
      if out.Ok? {
        var rsp' := out.value.OrElse(rsp);
        DispatchSubmessagesReplays(env, ctx, w', contract, port, msgs[1..], rsp', kind, rest);
        var (w'', out') := DispatchSubmessages(env, ctx, w', contract, port, msgs[1..], rsp');
        Then(w, w', w'', out', kind, rest);
      }
    }
  }

  lemma {:induction false} SubmessageAndReplyReplays(env: Env, ctx: Ctx, w: World, contract: Addr, port: PortId, msg: SubMsg, kind: Kind, rest: seq<Frame>)
    requires ctx.depth <= env.maxCallDepth && WithinLimit(w.meter)
    ensures var (w', out) := SubmessageAndReply(env, ctx, w, contract, port, msg); Replays(w, w', out, kind, rest)
    decreases Room(env, ctx), 4, 0
  {
    if msg.replyOn.ReplyInvalid? {
      LeadsNowhere(w, At(w, w.events, kind, rest, Running));
    } else {
      RunSubReplays(env, ctx, w, contract, port, msg, kind, rest);
      RunSubSound(env, ctx, w, contract, port, msg);
      var (w', out) := RunSub(env, ctx, w, contract, port, msg);
      if out.Ok? || out.Err? {
        var result := if out.Ok? then out.value else SubErr(RedactError(out.error));
        SendReplyReplays(env, ctx, w', contract, msg, result, kind, rest);
        var (w'', out') := SendReply(env, ctx, w', contract, msg, result);
        Then(w, w', w'', out', kind, rest);
      }
    }
  }

  lemma {:induction false} SendReplyReplays(env: Env, ctx: Ctx, w: World, contract: Addr, msg: SubMsg, result: SubMsgResult, kind: Kind, rest: seq<Frame>)
    requires ctx.depth <= env.maxCallDepth && WithinLimit(w.meter)
    ensures var (w', out) := SendReply(env, ctx, w, contract, msg, result); Replays(w, w', out, kind, rest)
    decreases Room(env, ctx), 1, 0
  {
    InvokeReplays(env, ctx, w, Reply(contract, msg.id, result, msg.payload), kind, rest);
  }

  lemma {:induction false} RunSubReplays(env: Env, ctx: Ctx, w: World, contract: Addr, port: PortId, msg: SubMsg, kind: Kind, rest: seq<Frame>)
    requires ctx.depth <= env.maxCallDepth && WithinLimit(w.meter)
    ensures var (w', out) := RunSub(env, ctx, w, contract, port, msg); Replays(w, w', out, kind, rest)
    decreases Room(env, ctx), 3, 0
  {
    var inner := Enter(w, msg);
    var limit := if IsLimited(w.meter, msg) then msg.gasLimit else None;
    var below := [Frame(w.store, w.meter, w.events, kind)] + rest;
    LeadsByOne(w, Machine(below, Running), inner, Opened(limit));
    var events := DispatchMsgReplays(env, ctx, inner, contract, port, msg.msg, Sub(limit), below);
    DispatchMsgSound(env, ctx, inner, contract, port, msg.msg);
    var (w', out) := DispatchMsg(env, ctx, inner, contract, port, msg.msg);
    var open := At(w', events, Sub(limit), below, OutcomeMode(out));
    LeadsOn(w, Machine(below, Running), inner, At(inner, [], Sub(limit), below, Running), w', open);
    var (w'', seen) := RunSub(env, ctx, w, contract, port, msg);
    var how := w''.journal[|w''.journal| - 1].how;
    LeadsByOne(w', open, w'', Closed(how));
    CloseReplays(w, w', msg, out, events, kind, rest);
    LeadsOn(w, Machine(below, Running), w', open, w'', At(w'', w''.events, kind, rest, OutcomeMode(seen)));
  }

  /** Closing the top frame does what Close says. */
  lemma CloseReplays(w: World, w': World, msg: SubMsg, out: Outcome<Handled>, events: seq<Event>, kind: Kind, rest: seq<Frame>)
    requires WithinLimit(w.meter) && Advances(Enter(w, msg), w')
    requires out.Ok? || out.Err? ==> WithinLimit(w'.meter)
    requires out.Ok? ==> events == w'.events + out.value.events
    ensures var (m, settled) := Leave(w.meter, msg, w'.meter, out);
            var (w'', seen) := Close(w, w', m, msg.msg.Wasm?, out.OutOfGas?, settled);
            var limit := if IsLimited(w.meter, msg) then msg.gasLimit else None;
            var below := [Frame(w.store, w.meter, w.events, kind)] + rest;
            |w''.journal| == |w'.journal| + 1 && w''.journal[|w'.journal|].Closed?
            && Step(At(w', events, Sub(limit), below, OutcomeMode(out)), w''.journal[|w'.journal|])
               == At(w'', w''.events, kind, rest, OutcomeMode(seen))
  {
    if IsLimited(w.meter, msg) && !out.Panicked? {
      SettleIsContained(w.meter, msg.gasLimit.value, w'.meter.consumed, out);
    }
  }

  lemma {:induction false} DispatchMsgReplays(env: Env, ctx: Ctx, w: World, contract: Addr, port: PortId, msg: CosmosMsg, kind: Kind, rest: seq<Frame>)
    returns (events: seq<Event>)
    requires ctx.depth <= env.maxCallDepth && WithinLimit(w.meter)
    ensures var (w', out) := DispatchMsg(env, ctx, w, contract, port, msg);
            Leads(w, At(w, w.events, kind, rest, Running), w', At(w', events, kind, rest, OutcomeMode(out)))
            && (out.Ok? ==> events == w'.events + out.value.events)
    decreases Room(env, ctx), 2, 0
  {
    match env.route(contract, port, msg)
    case NoHandler(_) =>
      LeadsNowhere(w, At(w, w.events, kind, rest, Running));
      events := w.events;
    case ToRouter(requests) =>
      assert w.events + [] == w.events;
      events := RunRequestsReplays(env, ctx, w, requests, Handled([], [], []), kind, rest);
    case ToHandler(request) =>
      InvokeReplays(env, ctx, w, request, kind, rest);
      events := Invoke(env, ctx, w, request).0.events;
  }

  lemma {:induction false} RunRequestsReplays(env: Env, ctx: Ctx, w: World, requests: seq<Request>, acc: Handled, kind: Kind, rest: seq<Frame>)
    returns (events: seq<Event>)
    requires ctx.depth <= env.maxCallDepth && WithinLimit(w.meter)
    ensures var (w', out) := RunRequests(env, ctx, w, requests, acc);
            Leads(w, At(w, w.events + acc.events, kind, rest, Running), w', At(w', events, kind, rest, OutcomeMode(out)))
            && (out.Ok? ==> events == w'.events + out.value.events)
    decreases Room(env, ctx), 1, |requests|
  {
    var start := At(w, w.events + acc.events, kind, rest, Running);
    if requests == [] {
      LeadsNowhere(w, start);
      events := w.events + acc.events;
    } else {
      var (w', out) := RunRequest(env, ctx, w, requests[0]);
      events := RunRequestReplays(env, ctx, w, requests[0], w.events + acc.events, kind, rest);
      RunRequestSound(env, ctx, w, requests[0]);
      if out.Ok? {
        var acc' := Join(acc, out.value.0, out.value.1);
        assert events == w'.events + acc'.events by { SeqAssoc(w.events, acc.events, out.value.0); }
        var later := RunRequestsReplays(env, ctx, w', requests[1..], acc', kind, rest);
        var (w'', out') := RunRequests(env, ctx, w', requests[1..], acc');
        LeadsOn(w, start, w', At(w', events, kind, rest, Running), w'', At(w'', later, kind, rest, OutcomeMode(out')));
        events := later;
      }
    }
  }

  lemma SeqAssoc(a: seq<Event>, b: seq<Event>, c: seq<Event>)
    ensures (a + b) + c == a + (b + c)
  {}

  lemma RouterCloses(w': World, events: seq<Event>, back: World, base: Frame, rest: seq<Frame>, mode: Mode)
    requires back == w'.(events := back.events).Log(Closed(Returned)) && base.events == events
    ensures var open := At(w', w'.events, Router, [base] + rest, mode);
            Step(open, Closed(Returned)) == At(back, events + w'.events, base.kind, rest, mode)
  {
    var open := At(w', w'.events, Router, [base] + rest, mode);
    assert open.frames[1..] == [base] + rest && ([base] + rest)[1..] == rest;
  }

  lemma {:induction false} RunRequestReplays(env: Env, ctx: Ctx, w: World, req: Request, events: seq<Event>, kind: Kind, rest: seq<Frame>)
    returns (more: seq<Event>)
    requires ctx.depth <= env.maxCallDepth && WithinLimit(w.meter)
    ensures var (back, out) := RunRequest(env, ctx, w, req);
            Leads(w, At(w, events, kind, rest, Running), back, At(back, more, kind, rest, OutcomeMode(out)))
            && back.events == w.events && (out.Ok? ==> more == events + out.value.0)
    decreases Room(env, ctx), 0, 2
  {
    var start := At(w, events, kind, rest, Running);
    var routed := w.(events := []).Log(Routed);
    LeadsByOne(w, start, routed, Routed);
    InvokeReplays(env, ctx, routed, req, Router, start.frames);
    var (w', out) := Invoke(env, ctx, routed, req);
    var open := At(w', w'.events, Router, start.frames, OutcomeMode(out));
    LeadsOn(w, start, routed, At(routed, [], Router, start.frames, Running), w', open);
    var back := w'.(events := w.events).Log(Closed(Returned));
    LeadsByOne(w', open, back, Closed(Returned));
    more := events + w'.events;
    var closed := At(back, more, kind, rest, OutcomeMode(out));
    RouterCloses(w', events, back, start.frames[0], rest, OutcomeMode(out));
    assert start.frames == [start.frames[0]] + rest;
    LeadsOn(w, start, w', open, back, closed);
  }

  /**
   * The whole of a call, whatever tree of responses it sets off, is what the machine makes of
   * its journal: store, gas and events agree, every out-of-gas was absorbed by the nearest
   * enclosing limit and by nothing else, and one that was not absorbed is the call's outcome.
   */
  lemma CallIsItsJournal(env: Env, ctx: Ctx, w: World, req: Request)
    requires ctx.depth <= env.maxCallDepth && WithinLimit(w.meter)
    ensures var (w', out) := Invoke(env, ctx, w, req);
            w.journal <= w'.journal
            && Replay(Machine([Frame(w.store, w.meter, w.events, Base)], Running), w'.journal[|w.journal|..])
               == Machine([Frame(w'.store, w'.meter, w'.events, Base)], OutcomeMode(out))
  {
    InvokeReplays(env, ctx, w, req, Base, []);
    var (w', out) := Invoke(env, ctx, w, req);
    assert At(w, w.events, Base, [], Running).frames == [Frame(w.store, w.meter, w.events, Base)];
    assert At(w', w'.events, Base, [], OutcomeMode(out)).frames == [Frame(w'.store, w'.meter, w'.events, Base)];
  }

  // ---------------------------------------------------------------- the writes that survive

  /** The writes pending in each open sandbox, the innermost first. */
  function Keep(pending: seq<seq<Write>>, t: Token): (r: seq<seq<Write>>) {
    if pending == [] then []
    else
      match t
      case Worked(writes, _, _) => [pending[0] + writes] + pending[1..]
      case Routed => [[]] + pending
      case Opened(_) => [[]] + pending
      case Closed(how) =>
        if |pending| == 1 then []
        else if how.Committed? || how.Returned? then [pending[1] + pending[0]] + pending[2..]
        else pending[1..]
      case _ => pending
  }

  function KeepAll(pending: seq<seq<Write>>, tokens: seq<Token>): (r: seq<seq<Write>>)
    decreases |tokens|
  {
    if tokens == [] then pending else KeepAll(Keep(pending, tokens[0]), tokens[1..])
  }

  /** The writes of a log that no failed submessage around them has taken back, in the order they were made. */
  function Survivors(tokens: seq<Token>): (ws: seq<Write>) {
    var pending := KeepAll([[]], tokens);
    if pending == [] then [] else pending[0]
  }

  /** Every frame is the one below it with its pending writes applied, the last one starts at s. */
  ghost predicate Layered(s: Store, frames: seq<Frame>, pending: seq<seq<Write>>)
    decreases |frames|
  {
    if frames == [] || pending == [] then frames == [] && pending == []
    else
      && frames[0].store == Apply(if |frames| == 1 then s else frames[1].store, pending[0])
      && Layered(s, frames[1..], pending[1..])
  }

  lemma LayeredLength(s: Store, frames: seq<Frame>, pending: seq<seq<Write>>)
    requires Layered(s, frames, pending)
    ensures |frames| == |pending|
  {}

  lemma StoreBelow(s: Store, frames: seq<Frame>, pending: seq<seq<Write>>, top: Frame, more: seq<Write>)
    requires frames != [] && Layered(s, frames, pending) && top.store == Apply(frames[0].store, more)
    ensures Layered(s, [top] + frames[1..], [pending[0] + more] + pending[1..])
  {
    ApplyConcat(if |frames| == 1 then s else frames[1].store, pending[0], more);
    assert ([top] + frames[1..])[1..] == frames[1..] && ([pending[0] + more] + pending[1..])[1..] == pending[1..];
    assert |frames| > 1 ==> ([top] + frames[1..])[1] == frames[1];
  }

  lemma LayeredPush(s: Store, frames: seq<Frame>, pending: seq<seq<Write>>, top: Frame)
    requires frames != [] && Layered(s, frames, pending) && top.store == frames[0].store
    ensures Layered(s, [top] + frames, [[]] + pending)
  {
    assert ([top] + frames)[1..] == frames && ([[]] + pending)[1..] == pending && ([top] + frames)[1] == frames[0];
  }

  lemma LayeredClose(s: Store, frames: seq<Frame>, pending: seq<seq<Write>>, below: Frame, mode: Mode, how: Closing, mode': Mode)
    requires |frames| > 1 && Layered(s, frames, pending) && CloseFrame(frames[0], frames[1], mode, how) == Some((below, mode'))
    ensures |pending| > 1 && Layered(s, [below] + frames[2..], Keep(pending, Closed(how)))
  {
    LayeredLength(s, frames, pending);
    var outer, rest := frames[1..], pending[1..];
    assert outer[0] == frames[1] && outer[1..] == frames[2..] && rest[0] == pending[1] && rest[1..] == pending[2..];
    if how.Committed? || how.Returned? {
      StoreBelow(s, outer, rest, below, pending[0]);
    } else {
      StoreBelow(s, outer, rest, below, []);
      assert rest[0] + [] == rest[0] && [rest[0]] + rest[1..] == rest;
    }
  }

  lemma StepLayers(s: Store, m: Machine, t: Token, pending: seq<seq<Write>>)
    requires m.Machine? && m.frames != [] && Layered(s, m.frames, pending) && Step(m, t).Machine?
    ensures Step(m, t).frames != [] && Layered(s, Step(m, t).frames, Keep(pending, t))
  {
    var top, rest := m.frames[0], m.frames[1..];
    match t
    case Worked(writes, _, _) => StoreBelow(s, m.frames, pending, Step(m, t).frames[0], writes);
    case Routed => LayeredPush(s, m.frames, pending, Step(m, t).frames[0]);
    case Opened(_) => LayeredPush(s, m.frames, pending, Step(m, t).frames[0]);
    case Closed(how) =>
      var (below, mode) := CloseFrame(top, rest[0], m.mode, how).value;
      LayeredClose(s, m.frames, pending, below, m.mode, how, mode);
      assert rest[1..] == m.frames[2..];
    case _ =>
  }

  lemma {:induction false} StuckStays(tokens: seq<Token>)
    ensures Replay(Stuck, tokens) == Stuck
    decreases |tokens|
  {
    if tokens != [] { StuckStays(tokens[1..]); }
  }

  lemma {:induction false} ReplayLayers(s: Store, m: Machine, tokens: seq<Token>, pending: seq<seq<Write>>)
    requires m.Machine? && m.frames != [] && Layered(s, m.frames, pending) && Replay(m, tokens).Machine?
    ensures Replay(m, tokens).frames != [] && Layered(s, Replay(m, tokens).frames, KeepAll(pending, tokens))
    decreases |tokens|
  {
    if tokens != [] {
      if Step(m, tokens[0]).Stuck? { StuckStays(tokens[1..]); }
      StepLayers(s, m, tokens[0], pending);
      ReplayLayers(s, Step(m, tokens[0]), tokens[1..], Keep(pending, tokens[0]));
    }
  }

  /**
   * All or nothing, over whole call trees: the store after any call is the store before it with
   * exactly the surviving writes of its journal applied. What a failed submessage wrote, at any
   * depth, is gone with everything that ran inside it; everything else is there.
   */
  lemma FailedSubmessagesLeaveNoTrace(env: Env, ctx: Ctx, w: World, req: Request)
    requires ctx.depth <= env.maxCallDepth && WithinLimit(w.meter)
    ensures var w' := Invoke(env, ctx, w, req).0;
            w.journal <= w'.journal && w'.store == Apply(w.store, Survivors(w'.journal[|w.journal|..]))
  {
    CallIsItsJournal(env, ctx, w, req);
    var w' := Invoke(env, ctx, w, req).0;
    var m := Machine([Frame(w.store, w.meter, w.events, Base)], Running);
    assert m.frames[1..] == [];
    ReplayLayers(w.store, m, w'.journal[|w.journal|..], [[]]);
  }
}
