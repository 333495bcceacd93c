/** What a caller gets back from a dispatch: data, events, and all or nothing of the store. */
module Responses {
  import opened Base
  import opened Types
  import opened Meters
  import opened Engine
  import GasRegister

  // ---------------------------------------------------------------- response data

  /** The reply data of every submessage of a dispatch that succeeds, in order. */
  ghost function ReplyData(env: Env, ctx: Ctx, w: World, contract: Addr, port: PortId, msgs: seq<SubMsg>): (r: seq<Option<bytes>>)
    requires ctx.depth <= env.maxCallDepth
    decreases |msgs|
  {
    if msgs == [] then []
    else
      var (w', out) := SubmessageAndReply(env, ctx, w, contract, port, msgs[0]);
      if out.Ok? then [out.value] + ReplyData(env, ctx, w', contract, port, msgs[1..]) else []
  }

  /** v is the last value that is present, or there is none and the fallback counts. */
  ghost predicate IsLast(xs: seq<Option<bytes>>, fallback: Option<bytes>, v: Option<bytes>) {
    || (exists i :: 0 <= i < |xs| && xs[i].Some? && v == xs[i] && forall j :: i < j < |xs| ==> xs[j].None?)
    || ((forall i :: 0 <= i < |xs| ==> xs[i].None?) && v == fallback)
  }

  lemma LastCons(x: Option<bytes>, xs: seq<Option<bytes>>, fallback: Option<bytes>, v: Option<bytes>)
    requires IsLast(xs, x.OrElse(fallback), v)
    ensures IsLast([x] + xs, fallback, v)
  {
    var all := [x] + xs;
    if i :| 0 <= i < |xs| && xs[i].Some? && v == xs[i] && forall j :: i < j < |xs| ==> xs[j].None? {
      assert all[i + 1] == xs[i];
      assert forall j :: i + 1 < j < |all| ==> all[j] == xs[j - 1];
    } else {
      assert forall j :: 0 < j < |all| ==> all[j] == xs[j - 1];
      assert all[0] == x;
    }
  }

  lemma {:induction false} DispatchReturnsLast(env: Env, ctx: Ctx, w: World, contract: Addr, port: PortId, msgs: seq<SubMsg>, rsp: Option<bytes>)
    requires ctx.depth <= env.maxCallDepth
    ensures var out := DispatchSubmessages(env, ctx, w, contract, port, msgs, rsp).1;
            out.Ok? ==> |ReplyData(env, ctx, w, contract, port, msgs)| == |msgs| && IsLast(ReplyData(env, ctx, w, contract, port, msgs), rsp, out.value)
    decreases |msgs|
  {
    if msgs != [] {
      var (w', out) := SubmessageAndReply(env, ctx, w, contract, port, msgs[0]);
      if out.Ok? {
        DispatchReturnsLast(env, ctx, w', contract, port, msgs[1..], out.value.OrElse(rsp));
        var end := DispatchSubmessages(env, ctx, w', contract, port, msgs[1..], out.value.OrElse(rsp)).1;
        if end.Ok? { LastCons(out.value, ReplyData(env, ctx, w', contract, port, msgs[1..]), rsp, end.value); }
      }
    }
  }

  /** Where the submessages of a response start: events paid for and emitted, one level deeper. */
  ghost function DispatchPoint(env: Env, ctx: Ctx, w: World, contract: Addr, response: Response): (r: Option<(World, Ctx)>) {
    var cost := GasRegister.EventCosts(env.register, response.attributes, response.events);
    var published := env.publish(contract, response.attributes, response.events);
    var d := NextDepth(env.maxCallDepth, ctx.depth);
    if cost.None? || published.Failure? || d.None? then None
    else Some((Work(w, [], [Plain(cost.value)], published.value).0, ctx.(depth := d.value)))
  }

  /** The data of a contract call: that of the last reply that returned any, else the contract's own. */
  lemma ResponseDataIsLastReply(env: Env, ctx: Ctx, w: World, contract: Addr, port: PortId, response: Response)
    requires ctx.depth <= env.maxCallDepth
    ensures var out := HandleResponse(env, ctx, w, contract, port, response).1;
            var start := DispatchPoint(env, ctx, w, contract, response);
            out.Ok? ==>
              && start.Some? && start.value.1.depth <= env.maxCallDepth
              && IsLast(ReplyData(env, start.value.1, start.value.0, contract, port, response.messages), response.data, out.value)
  {
    var out := HandleResponse(env, ctx, w, contract, port, response).1;
    if out.Ok? {
      var (w', inner) := DispatchPoint(env, ctx, w, contract, response).value;
      DispatchReturnsLast(env, inner, w', contract, port, response.messages, None);
      var rsp := DispatchSubmessages(env, inner, w', contract, port, response.messages, None).1.value;
      LastOrElse(ReplyData(env, inner, w', contract, port, response.messages), rsp, response.data);
    }
  }

  lemma LastOrElse(xs: seq<Option<bytes>>, v: Option<bytes>, own: Option<bytes>)
    requires IsLast(xs, None, v)
    ensures IsLast(xs, own, v.OrElse(own))
  {}

  // ---------------------------------------------------------------- events across a boundary

  /** Nothing of type "message" crosses, and what crosses keeps its order. */
  lemma {:induction false} NoMessageEventsCross(events: seq<Event>)
    ensures forall i :: 0 <= i < |FilterEvents(events)| ==> FilterEvents(events)[i].kind != "message" && FilterEvents(events)[i] in events
    ensures FilterEvents(FilterEvents(events)) == FilterEvents(events)
  {
    if events != [] {
      NoMessageEventsCross(events[1..]);
      assert events == [events[0]] + events[1..];
      var rest := FilterEvents(events[1..]);
      if events[0].kind != "message" {
        assert ([events[0]] + rest)[1..] == rest;
      } else {
        assert [] + rest == rest;
      }
    }
  }

  lemma {:induction false} FilterConcat(a: seq<Event>, b: seq<Event>)
    ensures FilterEvents(a + b) == FilterEvents(a) + FilterEvents(b)
  {
    if a == [] {
      assert a + b == b;
    } else {
      assert (a + b)[1..] == a[1..] + b;
      FilterConcat(a[1..], b);
    }
  }

  // ---------------------------------------------------------------- the stable sort

  ghost predicate Sorted(s: seq<Attribute>) {
    forall i, j :: 0 <= i < j < |s| ==> !Less(s[j].key, s[i].key)
  }

  lemma {:induction false} LessAsymmetric(a: string, b: string)
    requires Less(a, b)
    ensures !Less(b, a)
    decreases |a|
  {
    if a != "" && a[0] == b[0] { LessAsymmetric(a[1..], b[1..]); }
  }

  lemma {:induction false} LessTotal(a: string, b: string)
    ensures Less(a, b) || a == b || Less(b, a)
    decreases |a|
  {
    if a != "" && b != "" && a[0] == b[0] {
      LessTotal(a[1..], b[1..]);
      assert a == [a[0]] + a[1..] && b == [b[0]] + b[1..];
    }
  }

  lemma {:induction false} LessTransitive(a: string, b: string, c: string)
    requires Less(a, b) && Less(b, c)
    ensures Less(a, c)
    decreases |a|
  {
    if a != "" && a[0] == b[0] == c[0] { LessTransitive(a[1..], b[1..], c[1..]); }
  }

  lemma NotLessTransitive(a: string, b: string, c: string)
    requires !Less(b, a) && !Less(c, b)
    ensures !Less(c, a)
  {
    if Less(c, a) {
      LessTotal(a, b);
      if a != b { LessTransitive(c, a, b); }
    }
  }

  /** Those with one key, in their order. */
  function WithKey(s: seq<Attribute>, key: string): (r: seq<Attribute>) {
    if s == [] then [] else (if s[0].key == key then [s[0]] else []) + WithKey(s[1..], key)
  }

  lemma {:induction false} InsertPermutes(a: Attribute, s: seq<Attribute>)
    ensures multiset(InsertAttribute(a, s)) == multiset{a} + multiset(s)
  {
    if s != [] && Less(s[0].key, a.key) {
      InsertPermutes(a, s[1..]);
      assert s == [s[0]] + s[1..];
    }
  }

  lemma {:induction false} InsertSorts(a: Attribute, s: seq<Attribute>)
    requires Sorted(s)
    ensures Sorted(InsertAttribute(a, s))
  {
    if s != [] {
      if Less(s[0].key, a.key) {
        InsertSorts(a, s[1..]);
        InsertPermutes(a, s[1..]);
        LessAsymmetric(s[0].key, a.key);
        var rest := InsertAttribute(a, s[1..]);
        forall j | 0 <= j < |rest| ensures !Less(rest[j].key, s[0].key) {
          assert rest[j] in multiset(rest);
          assert rest[j] == a || rest[j] in s[1..];
        }
      } else {
        forall j | 0 < j < |s| ensures !Less(s[j].key, a.key) { NotLessTransitive(a.key, s[0].key, s[j].key); }
      }
    }
  }

  lemma {:induction false} InsertIsStable(a: Attribute, s: seq<Attribute>, key: string)
    ensures WithKey(InsertAttribute(a, s), key) == (if a.key == key then [a] else []) + WithKey(s, key)
  {
    if s == [] || !Less(s[0].key, a.key) {
      assert ([a] + s)[1..] == s;
    } else {
      InsertIsStable(a, s[1..], key);
      LessAsymmetric(s[0].key, a.key);
      var rest := InsertAttribute(a, s[1..]);
      assert ([s[0]] + rest)[1..] == rest;
    }
  }

  /** The events a wasm submessage passes on have their attributes sorted by key, equal keys in the original order. */
  lemma {:induction false} SortIsStable(s: seq<Attribute>, key: string)
    ensures Sorted(SortAttributes(s)) && multiset(SortAttributes(s)) == multiset(s)
    ensures WithKey(SortAttributes(s), key) == WithKey(s, key)
  {
    if s != [] {
      SortIsStable(s[1..], key);
      InsertPermutes(s[0], SortAttributes(s[1..]));
      InsertSorts(s[0], SortAttributes(s[1..]));
      InsertIsStable(s[0], SortAttributes(s[1..]), key);
      assert s == [s[0]] + s[1..];
    }
  }

  /** Only the order of attributes inside an event changes at a boundary. */
  lemma {:induction false} BoundaryKeepsEvents(events: seq<Event>)
    ensures |SortEvents(events)| == |events|
    ensures forall i :: 0 <= i < |events| ==> SortEvents(events)[i] == Event(events[i].kind, SortAttributes(events[i].attributes))
  {
    if events != [] { BoundaryKeepsEvents(events[1..]); }
  }
}
