/** Gas prices of contract calls, replies and events, and the conversion to CosmWasm gas. */
module GasRegister {
  import opened Base
  import opened Types

  type Multiplier = n: int | 0 < n < TWO64 witness 1

  datatype Config = Config(
    instanceCost: u64,
    instanceCostDiscount: u64,
    multiplier: Multiplier,
    perAttribute: u64,
    attributeData: u64,
    freeTier: u64,
    messageData: u64,
    customEvent: u64,
    pinCost: u64,
    unpinCost: u64)

  // ---------------------------------------------------------------- unit conversion

  /** SDK gas to CosmWasm gas; None is the overflow panic. The product wraps before it is tested. */
  function ToWasmVMGas(c: Config, source: u64): (r: Option<u64>) {
    var x := Mul64(source, c.multiplier);
    if x < source then None else Some(x)
  }

  function FromWasmVMGas(c: Config, source: u64): (r: u64) {
    var q := source / c.multiplier;
    assert 0 <= q <= source by { DivBounds(source, c.multiplier); }
    q
  }

  lemma DivBounds(x: nat, m: int)
    requires 0 < m
    ensures 0 <= x / m <= x
    ensures m * (x / m) <= x < m * (x / m) + m
  {
    var q, r := x / m, x % m;
    assert x == m * q + r;
    MulNonNegative(m - 1, q);
    assert m * q == (m - 1) * q + q;
  }

  lemma MulNonNegative(x: nat, y: int)
    ensures y >= 0 ==> x * y >= 0
    ensures y < 0 ==> x * y <= 0
  {}

  lemma MulMonotone(x: nat, y: int, z: int)
    requires y <= z
    ensures x * y <= x * z
  {
    MulNonNegative(x, z - y);
    assert x * z == x * y + x * (z - y);
  }

  lemma MulCancel(m: int, a: int, b: int)
    requires 0 < m && m * a < m * b
    ensures a < b
  {
    if b <= a { MulMonotone(m, b, a); }
  }

  /** The wrapped product is the exact one precisely when gas x multiplier fits in a word. */
  lemma ConversionIsExact(c: Config, source: u64)
    ensures ToWasmVMGas(c, source) == Some(source * c.multiplier) <==> source * c.multiplier < TWO64
  {
    assert source * c.multiplier >= source by {
      assert source * c.multiplier == source + source * (c.multiplier - 1);
    }
    if source * c.multiplier < TWO64 {
      assert Mul64(source, c.multiplier) == source * c.multiplier;
    }
  }

  /** The smallest amount whose product reaches a whole word beyond it: accepted, though it wrapped. */
  function FirstMissed(m: Multiplier): (source: u64)
    requires m > 2
    ensures TWO64 + source <= source * m < 2 * TWO64
  {
    var q := (TWO64 + m - 2) / (m - 1);
    assert 0 < q < TWO64 && TWO64 + q <= q * m < 2 * TWO64 by { Ceiling(TWO64, m - 1, q); }
    q
  }

  lemma Ceiling(n: nat, d: int, q: int)
    requires n > 2 && 2 <= d < n - 1 && q == (n + d - 1) / d
    ensures 0 < q < n && n + q <= q * (d + 1) < 2 * n
  {
    DivBounds(n + d - 1, d);
    var x, y := d * q, d * (q - 1);
    assert y == x - d && q * (d + 1) == x + q;
    MulCancel(d, 1, q);
    MulMonotone(q - 1, 2, d);
    assert (q - 1) * d == y && (q - 1) * 2 == 2 * q - 2;
    if q == 2 { assert x == d + d; } else { SumBelowProduct(q - 1, d); }
  }

  lemma SumBelowProduct(a: int, b: int)
    requires a >= 2 && b >= 2
    ensures a + b <= a * b
  {
    MulMonotone(a - 1, 1, b - 1);
    assert (a - 1) * (b - 1) == a * b - a - b + 1;
  }

  /**
   * The wrap test of the source: whatever it accepts is exact, for all amounts of gas, exactly when
   * the multiplier is at most two. For any larger one, the default included, it accepts a wrapped product.
   */
  lemma WrapTestIsSound(c: Config)
    ensures (forall source: u64 :: ToWasmVMGas(c, source).Some? ==> ToWasmVMGas(c, source).value == source * c.multiplier)
       <==> c.multiplier <= 2
  {
    if c.multiplier <= 2 {
      forall source: u64 | ToWasmVMGas(c, source).Some? ensures ToWasmVMGas(c, source).value == source * c.multiplier {
        if c.multiplier == 1 { assert source * c.multiplier == source; } else { Doubled(source, c.multiplier); }
      }
    } else {
      WrapMissed(c, FirstMissed(c.multiplier));
    }
  }

  lemma Doubled(source: u64, m: Multiplier)
    requires m == 2
    ensures source * m < TWO64 ==> Mul64(source, m) == source * m
    ensures source * m >= TWO64 ==> Mul64(source, m) < source
  {
    assert source * m == source + source;
    if source + source >= TWO64 { assert (source + source) % TWO64 == source + source - TWO64; }
  }

  lemma WrapMissed(c: Config, source: u64)
    requires c.multiplier > 2 && source == FirstMissed(c.multiplier)
    ensures ToWasmVMGas(c, source).Some? && ToWasmVMGas(c, source).value != source * c.multiplier
  {
    WrapsOnce(source * c.multiplier);
  }

  lemma WrapsOnce(x: nat)
    requires TWO64 <= x < 2 * TWO64
    ensures x % TWO64 == x - TWO64
  {}

  /** Granting g SDK gas to the VM and charging what it used never charges more than g. */
  lemma ChargeWithinGrant(c: Config, granted: u64, used: u64)
    requires granted * c.multiplier < TWO64
    requires used <= granted * c.multiplier
    ensures FromWasmVMGas(c, used) <= granted
  {
    DivBounds(used, c.multiplier);
    assert c.multiplier * (granted + 1) == granted * c.multiplier + c.multiplier;
    MulCancel(c.multiplier, used / c.multiplier, granted + 1);
  }

  // ---------------------------------------------------------------- event costs

  /** A price per unit times a number of units, as repeated addition. */
  function Times(price: nat, units: nat): (r: nat) {
    if units == 0 then 0 else price + Times(price, units - 1)
  }

  lemma {:induction false} TimesIsProduct(price: nat, units: nat)
    ensures Times(price, units) == price * units
  {
    if units > 0 {
      TimesIsProduct(price, units - 1);
    }
  }

  lemma {:induction false} TimesAdd(price: nat, a: nat, b: nat)
    ensures Times(price, a + b) == Times(price, a) + Times(price, b)
  {
    if b > 0 {
      TimesAdd(price, a, b - 1);
    }
  }

  function AttributeBytes(attrs: seq<Attribute>): (n: nat) {
    if attrs == [] then 0
    else |attrs[0].key| + |attrs[0].value| + AttributeBytes(attrs[1..])
  }

  /** Applies the free tier to a number of bytes: what is charged and what is left of the tier. */
  function CalcWithFreeTier(stored: u64, freeTier: u64): (r: (u64, u64)) {
    if stored <= freeTier then (0, freeTier - stored) else (stored - freeTier, 0)
  }

  function AttributePrice(c: Config, charged: nat, count: nat): (r: nat) {
    Times(c.attributeData, charged) + Times(c.perAttribute, count)
  }

  /** None is the out-of-gas panic raised when the price does not fit in a word. */
  function AttributeCosts(c: Config, attrs: seq<Attribute>, freeTier: u64): (r: Option<(u64, u64)>) {
    if attrs == [] then Some((0, freeTier))
    else
      var (charged, left) := CalcWithFreeTier(AttributeBytes(attrs) % TWO64, freeTier);
      var price := AttributePrice(c, charged, |attrs| % TWO64);
      if price < TWO64 then Some((price, left)) else None
  }

  /** The gas total after one custom event whose attributes cost `cost`. */
  function AddEvent(c: Config, gas: u64, e: Event, cost: u64): (r: u64) {
    Add64(Add64(Add64(gas, c.customEvent), Times(c.attributeData, |e.kind|) % TWO64), cost)
  }

  /** The loop over the custom events, from a gas total and a remaining free tier. */
  function EventLoop(c: Config, events: seq<Event>, gas: u64, freeTier: u64): (r: Option<u64>) {
    if events == [] then Some(gas)
    else
      match AttributeCosts(c, events[0].attributes, freeTier)
      case None => None
      case Some((cost, left)) => EventLoop(c, events[1..], AddEvent(c, gas, events[0], cost), left)
  }

  function EventCosts(c: Config, attrs: seq<Attribute>, events: seq<Event>): (r: Option<u64>) {
    match AttributeCosts(c, attrs, c.freeTier)
    case None => None
    case Some((gas, left)) => EventLoop(c, events, gas, left)
  }

  method SumAttributeBytes(attrs: seq<Attribute>) returns (stored: u64)
    ensures stored == AttributeBytes(attrs) % TWO64
  {
    stored := 0;
    for i := 0 to |attrs|
      invariant (stored + AttributeBytes(attrs[i..])) % TWO64 == AttributeBytes(attrs) % TWO64
    {
      assert attrs[i..][1..] == attrs[i + 1..];
      stored := Add64(stored, |attrs[i].key| + |attrs[i].value|);
    }
    assert attrs[|attrs|..] == [];
  }

  /** eventAttributeCosts with its byte-counting loop. */
  method ComputeAttributeCosts(c: Config, attrs: seq<Attribute>, freeTier: u64) returns (r: Option<(u64, u64)>)
    ensures r == AttributeCosts(c, attrs, freeTier)
  {
    if attrs == [] { return Some((0, freeTier)); }
    var stored := SumAttributeBytes(attrs);
    var (charged, left) := CalcWithFreeTier(stored, freeTier);
    var price := AttributePrice(c, charged, |attrs| % TWO64);
    return if price < TWO64 then Some((price, left)) else None;
  }

  /** The pricing loops as the source runs them. */
  method ComputeEventCosts(c: Config, attrs: seq<Attribute>, events: seq<Event>) returns (r: Option<u64>)
    ensures r == EventCosts(c, attrs, events)
  {
    var first := ComputeAttributeCosts(c, attrs, c.freeTier);
    if first.None? { return None; }
    var gas, left := first.value.0, first.value.1;
    for i := 0 to |events|
      invariant EventLoop(c, events, first.value.0, first.value.1) == EventLoop(c, events[i..], gas, left)
    {
      assert events[i..][1..] == events[i + 1..];
      var next := ComputeAttributeCosts(c, events[i].attributes, left);
      if next.None? { return None; }
      gas, left := AddEvent(c, gas, events[i], next.value.0), next.value.1;
    }
    assert events[|events|..] == [];
    return Some(gas);
  }

  // ---------------------------------------------------------------- the closed form

  function Excess(total: nat, free: nat): (r: nat) {
    if total <= free then 0 else total - free
  }

  function EventsBytes(events: seq<Event>): (n: nat) {
    if events == [] then 0 else AttributeBytes(events[0].attributes) + EventsBytes(events[1..])
  }

  function EventsAttributes(events: seq<Event>): (n: nat) {
    if events == [] then 0 else |events[0].attributes| + EventsAttributes(events[1..])
  }

  function TypeBytes(events: seq<Event>): (n: nat) {
    if events == [] then 0 else |events[0].kind| + TypeBytes(events[1..])
  }

  /** Totals over a set of attributes and events. */
  datatype Totals = Totals(attributeBytes: nat, attributes: nat, typeBytes: nat, events: nat)

  function SetTotals(attrs: seq<Attribute>, events: seq<Event>): (t: Totals) {
    Totals(AttributeBytes(attrs) + EventsBytes(events), |attrs| + EventsAttributes(events), TypeBytes(events), |events|)
  }

  /** The free tier applied once to all attribute bytes, plus the per-item prices. */
  function WholeSetPrice(c: Config, t: Totals): (n: nat) {
    AttributePrice(c, Excess(t.attributeBytes, c.freeTier), t.attributes)
    + Times(c.attributeData, t.typeBytes) + Times(c.customEvent, t.events)
  }

  lemma WholeSetPriceIsProducts(c: Config, t: Totals)
    ensures WholeSetPrice(c, t) ==
            c.attributeData * Excess(t.attributeBytes, c.freeTier) + c.perAttribute * t.attributes
            + c.attributeData * t.typeBytes + c.customEvent * t.events
  {
    TimesIsProduct(c.attributeData, Excess(t.attributeBytes, c.freeTier));
    TimesIsProduct(c.perAttribute, t.attributes);
    TimesIsProduct(c.attributeData, t.typeBytes);
    TimesIsProduct(c.customEvent, t.events);
  }

  function AddTotals(t: Totals, attrs: seq<Attribute>, events: seq<Event>): (r: Totals) {
    Totals(t.attributeBytes + AttributeBytes(attrs) + EventsBytes(events),
           t.attributes + |attrs| + EventsAttributes(events),
           t.typeBytes + TypeBytes(events),
           t.events + |events|)
  }

  ghost predicate Fits(c: Config, t: Totals) {
    t.attributeBytes < TWO64 && t.attributes < TWO64 && WholeSetPrice(c, t) < TWO64
  }

  /** The tier still free after `t` has been counted. */
  function TierLeft(c: Config, t: Totals): (r: u64) {
    Excess(c.freeTier, t.attributeBytes)
  }

  /** What an attribute list adds to the price of what was counted before it. */
  lemma AttributeCostsShift(c: Config, attrs: seq<Attribute>, t: Totals)
    requires Fits(c, AddTotals(t, attrs, []))
    ensures var r := AttributeCosts(c, attrs, TierLeft(c, t));
            r.Some?
            && r.value.0 + WholeSetPrice(c, t) == WholeSetPrice(c, AddTotals(t, attrs, []))
            && r.value.1 == TierLeft(c, AddTotals(t, attrs, []))
  {
    var before, stored := t.attributeBytes, AttributeBytes(attrs);
    var billed := Excess(before + stored, c.freeTier) - Excess(before, c.freeTier);
    TimesAdd(c.attributeData, Excess(before, c.freeTier), billed);
    TimesAdd(c.perAttribute, t.attributes, |attrs|);
    assert stored % TWO64 == stored && |attrs| % TWO64 == |attrs|;
    assert CalcWithFreeTier(stored, TierLeft(c, t)) == (billed, Excess(c.freeTier, before + stored));
  }

  lemma PriceGrows(c: Config, t: Totals, attrs: seq<Attribute>, events: seq<Event>)
    ensures WholeSetPrice(c, t) <= WholeSetPrice(c, AddTotals(t, attrs, events))
  {
    var t' := AddTotals(t, attrs, events);
    var x, y := Excess(t.attributeBytes, c.freeTier), Excess(t'.attributeBytes, c.freeTier);
    TimesAdd(c.attributeData, x, y - x);
    TimesAdd(c.perAttribute, t.attributes, t'.attributes - t.attributes);
    TimesAdd(c.attributeData, t.typeBytes, t'.typeBytes - t.typeBytes);
    TimesAdd(c.customEvent, t.events, t'.events - t.events);
  }

  /** One turn of the event loop keeps the price of everything counted so far. */
  lemma OneEventPrice(c: Config, e: Event, t: Totals)
    requires Fits(c, t) && Fits(c, AddTotals(t, [], [e]))
    ensures var r := AttributeCosts(c, e.attributes, TierLeft(c, t));
            r.Some?
            && r.value.1 == TierLeft(c, AddTotals(t, [], [e]))
            && AddEvent(c, WholeSetPrice(c, t), e, r.value.0) == WholeSetPrice(c, AddTotals(t, [], [e]))
  {
    var mid, end := AddTotals(t, e.attributes, []), AddTotals(t, [], [e]);
    OneEventTotals(e);
    TimesAdd(c.attributeData, t.typeBytes, |e.kind|);
    TimesAdd(c.customEvent, t.events, 1);
    assert Times(c.customEvent, 1) == c.customEvent + Times(c.customEvent, 0);
    assert WholeSetPrice(c, end) == WholeSetPrice(c, mid) + Times(c.attributeData, |e.kind|) + c.customEvent;
    AttributeCostsShift(c, e.attributes, t);
    ThreeAdds(WholeSetPrice(c, t), c.customEvent, Times(c.attributeData, |e.kind|),
              AttributeCosts(c, e.attributes, TierLeft(c, t)).value.0);
  }

  lemma OneEventTotals(e: Event)
    ensures EventsBytes([e]) == AttributeBytes(e.attributes)
    ensures EventsAttributes([e]) == |e.attributes| && TypeBytes([e]) == |e.kind|
  {
    assert [e][1..] == [];
  }

  lemma ThreeAdds(g: nat, x: nat, y: nat, z: nat)
    requires g + x + y + z < TWO64
    ensures Add64(Add64(Add64(g, x), y % TWO64), z) == g + x + y + z
  {}

  /** The loop invariant of EventCosts, with the totals of the events still to come. */
  lemma {:induction false} EventLoopPrice(c: Config, events: seq<Event>, t: Totals)
    requires Fits(c, t) && Fits(c, AddTotals(t, [], events))
    ensures EventLoop(c, events, WholeSetPrice(c, t), TierLeft(c, t)) == Some(WholeSetPrice(c, AddTotals(t, [], events)))
    decreases |events|
  {
    if events != [] {
      var t' := AddTotals(t, [], [events[0]]);
      OneEventTotals(events[0]);
      assert AddTotals(t', [], events[1..]) == AddTotals(t, [], events);
      PriceGrows(c, t', [], events[1..]);
      OneEventPrice(c, events[0], t);
      EventLoopPrice(c, events[1..], t');
    }
  }

  /**
   * However the attributes are split into events, the free tier is granted once to the whole
   * set: threading it through the loops gives the closed form.
   */
  lemma FreeTierAppliedOnce(c: Config, attrs: seq<Attribute>, events: seq<Event>)
    requires Fits(c, SetTotals(attrs, events))
    ensures EventCosts(c, attrs, events) == Some(WholeSetPrice(c, SetTotals(attrs, events)))
  {
    var none := Totals(0, 0, 0, 0);
    var first := AddTotals(none, attrs, []);
    assert AddTotals(first, [], events) == SetTotals(attrs, events);
    PriceGrows(c, first, [], events);
    AttributeCostsShift(c, attrs, none);
    EventLoopPrice(c, events, first);
  }

  // ---------------------------------------------------------------- calls and replies

  function SetupContractCost(c: Config, discount: bool, msgLen: nat): (r: u64) {
    Add64(if discount then c.instanceCostDiscount else c.instanceCost, Mul64(msgLen, c.messageData))
  }

  function AllAttributes(events: seq<Event>): (r: seq<Attribute>) {
    if events == [] then [] else events[0].attributes + AllAttributes(events[1..])
  }

  /** Price of handing a submessage result back to the contract; None is the out-of-gas panic. */
  function ReplyCosts(c: Config, discount: bool, result: SubMsgResult): (r: Option<u64>) {
    match result
    case SubErr(text) => Some(SetupContractCost(c, discount, |text|))
    case SubOk(events, data, _) =>
      match EventCosts(c, AllAttributes(events), [])
      case None => None
      case Some(cost) =>
        var types := Times(c.attributeData, TypeBytes(events)) % TWO64;
        Some(Add64(Add64(types, cost), SetupContractCost(c, discount, |data|)))
  }

  lemma {:induction false} AttributeBytesConcat(a: seq<Attribute>, b: seq<Attribute>)
    ensures AttributeBytes(a + b) == AttributeBytes(a) + AttributeBytes(b)
  {
    if a == [] {
      assert a + b == b;
    } else {
      AttributeBytesConcat(a[1..], b);
      assert (a + b)[1..] == a[1..] + b;
    }
  }

  lemma {:induction false} AllAttributesTotals(events: seq<Event>)
    ensures AttributeBytes(AllAttributes(events)) == EventsBytes(events)
    ensures |AllAttributes(events)| == EventsAttributes(events)
  {
    if events != [] {
      AllAttributesTotals(events[1..]);
      AttributeBytesConcat(events[0].attributes, AllAttributes(events[1..]));
    }
  }

  /** A reply pays for its events as one set: one free tier for all of them. */
  lemma ReplyPricesWholeSet(c: Config, discount: bool, events: seq<Event>, data: bytes, responses: seq<Any>)
    requires Fits(c, Totals(EventsBytes(events), EventsAttributes(events), 0, 0))
    ensures ReplyCosts(c, discount, SubOk(events, data, responses)) ==
            Some(Add64(Add64(Times(c.attributeData, TypeBytes(events)) % TWO64,
                             WholeSetPrice(c, Totals(EventsBytes(events), EventsAttributes(events), 0, 0))),
                       SetupContractCost(c, discount, |data|)))
  {
    AllAttributesTotals(events);
    FreeTierAppliedOnce(c, AllAttributes(events), []);
  }
}
