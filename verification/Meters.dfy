/** Gas meters: consumption is added first and compared with the limit afterwards. */
module Meters {
  import opened Base
  import GasRegister

  /** The infinite meter reports the largest word as its limit and is never out of gas. */
  datatype Meter = Meter(limit: u64, infinite: bool, consumed: u64)

  type Config = GasRegister.Config

  /** What a consumption raises: nothing, the out-of-gas panic or the overflow panic. */
  datatype Signal = Calm | GasOut | Overflow

  datatype Charge =
    | Plain(amount: u64)    // ConsumeGas
    | Runtime(amount: u64)  // consumeRuntimeGas: also out of gas when exactly nothing is left

  function NewMeter(limit: u64): (m: Meter) {
    Meter(limit, false, 0)
  }

  predicate IsOutOfGas(m: Meter) {
    !m.infinite && m.consumed >= m.limit
  }

  /** A meter that has not raised out of gas. */
  predicate WithinLimit(m: Meter) {
    m.infinite || m.consumed <= m.limit
  }

  /** Limit() - GasConsumed() in machine words. */
  function Remaining(m: Meter): (r: u64) {
    ((if m.infinite then MAX_U64 else m.limit) - m.consumed) % TWO64
  }

  function Consume(m: Meter, amount: u64): (r: (Meter, Signal)) {
    if m.consumed + amount > MAX_U64 then (m.(consumed := MAX_U64), Overflow)
    else
      var m' := m.(consumed := m.consumed + amount);
      (m', if WithinLimit(m') then Calm else GasOut)
  }

  function ChargeOne(m: Meter, c: Charge): (r: (Meter, Signal)) {
    var (m', g) := Consume(m, c.amount);
    (m', if g.Calm? && c.Runtime? && IsOutOfGas(m') then GasOut else g)
  }

  /** The charges in order, up to the first that raises a signal. */
  function ChargeAll(m: Meter, cs: seq<Charge>): (r: (Meter, Signal))
    decreases |cs|
  {
    if cs == [] then (m, Calm)
    else
      var (m', g) := ChargeOne(m, cs[0]);
      if g.Calm? then ChargeAll(m', cs[1..]) else (m', g)
  }

  /** A meter keeps its limit, only grows, and is within the limit after a calm charge. */
  lemma {:induction false} ChargeAllGrows(m: Meter, cs: seq<Charge>)
    ensures var (m', g) := ChargeAll(m, cs);
            m'.limit == m.limit && m'.infinite == m.infinite && m'.consumed >= m.consumed
            && (WithinLimit(m) && g.Calm? ==> WithinLimit(m'))
    decreases |cs|
  {
    if cs != [] {
      var (m', g) := ChargeOne(m, cs[0]);
      if g.Calm? { ChargeAllGrows(m', cs[1..]); }
    }
  }

  // ---------------------------------------------------------------- CosmWasm gas over a run

  /** runtimeGasForContract; None is the conversion's overflow panic. */
  function RuntimeGas(c: Config, m: Meter): (r: Option<u64>) {
    if IsOutOfGas(m) then Some(0)
    else if m.infinite || m.limit == MAX_U64 then Some(MAX_U64)
    else GasRegister.ToWasmVMGas(c, m.limit - (if m.consumed > m.limit then m.limit else m.consumed))
  }

  function VMCharge(c: Config, gasUsed: u64): (r: Charge) {
    Runtime(GasRegister.FromWasmVMGas(c, gasUsed))
  }

  /** A VM call that stays within its grant never pushes the meter past its limit. */
  lemma VMChargeStaysWithinLimit(c: Config, m: Meter, used: u64)
    requires !m.infinite && m.limit < MAX_U64 && WithinLimit(m)
    requires (m.limit - m.consumed) * c.multiplier < TWO64
    requires RuntimeGas(c, m).Some? && used <= RuntimeGas(c, m).value
    ensures var (m', g) := ChargeOne(m, VMCharge(c, used));
            WithinLimit(m') && (g.GasOut? <==> m'.consumed == m.limit) && !g.Overflow?
  {
    var left := m.limit - m.consumed;
    GasRegister.ConversionIsExact(c, left);
    if IsOutOfGas(m) {
      GasRegister.ChargeWithinGrant(c, 0, used);
    } else {
      GasRegister.ChargeWithinGrant(c, left, used);
    }
  }

  /** The gas left fits in a VM grant. */
  predicate Grantable(c: Config, m: Meter) {
    !m.infinite && m.limit < MAX_U64 && WithinLimit(m) && (m.limit - m.consumed) * c.multiplier < TWO64
  }

  lemma VMChargeStaysGrantable(c: Config, m: Meter, used: u64)
    requires Grantable(c, m) && RuntimeGas(c, m).Some? && used <= RuntimeGas(c, m).value
    ensures Grantable(c, ChargeOne(m, VMCharge(c, used)).0)
  {
    VMChargeStaysWithinLimit(c, m, used);
    var m' := ChargeOne(m, VMCharge(c, used)).0;
    GasRegister.MulMonotone(c.multiplier, m'.limit - m'.consumed, m.limit - m.consumed);
  }

  /** What a run spends: set-up, store and event gas, and the gas of VM calls. */
  datatype Spend = Flat(amount: u64) | VM(used: u64)

  function SpendCharge(c: Config, x: Spend): (r: Charge) {
    if x.Flat? then Plain(x.amount) else VMCharge(c, x.used)
  }

  function Charges(c: Config, xs: seq<Spend>): (r: seq<Charge>)
    ensures |r| == |xs| && forall i :: 0 <= i < |xs| ==> r[i] == SpendCharge(c, xs[i])
  {
    seq(|xs|, i requires 0 <= i < |xs| => SpendCharge(c, xs[i]))
  }

  /** The meter and signal after the first k of them. */
  function After(c: Config, m: Meter, xs: seq<Spend>, k: nat): (r: (Meter, Signal))
    requires k <= |xs|
  {
    ChargeAll(m, Charges(c, xs)[..k])
  }

  /** Every VM call that is reached uses no more than it was granted there. */
  ghost predicate WithinGrants(c: Config, m: Meter, xs: seq<Spend>) {
    forall k :: 0 <= k < |xs| && xs[k].VM? && After(c, m, xs, k).1.Calm? ==>
      var gas := RuntimeGas(c, After(c, m, xs, k).0); gas.Some? && xs[k].used <= gas.value
  }

  lemma {:induction false} ChargeOneMore(m: Meter, cs: seq<Charge>, x: Charge)
    ensures var (m', g) := ChargeAll(m, cs); ChargeAll(m, cs + [x]) == if g.Calm? then ChargeOne(m', x) else (m', g)
    decreases |cs|
  {
    if cs == [] {
      assert cs + [x] == [x] && [x][1..] == [];
    } else {
      assert (cs + [x])[0] == cs[0] && (cs + [x])[1..] == cs[1..] + [x];
      ChargeOneMore(ChargeOne(m, cs[0]).0, cs[1..], x);
    }
  }

  lemma AfterStep(c: Config, m: Meter, xs: seq<Spend>, k: nat)
    requires k < |xs| && After(c, m, xs, k).1.Calm?
    ensures After(c, m, xs, k + 1) == ChargeOne(After(c, m, xs, k).0, SpendCharge(c, xs[k]))
  {
    var cs := Charges(c, xs);
    assert cs[..k + 1] == cs[..k] + [cs[k]];
    ChargeOneMore(m, cs[..k], cs[k]);
  }

  lemma CalmBefore(c: Config, m: Meter, xs: seq<Spend>, k: nat)
    requires k < |xs| && After(c, m, xs, k + 1).1.Calm?
    ensures After(c, m, xs, k).1.Calm?
  {
    var cs := Charges(c, xs);
    assert cs[..k + 1] == cs[..k] + [cs[k]];
    ChargeOneMore(m, cs[..k], cs[k]);
  }

  lemma {:induction false} StaysGrantable(c: Config, m: Meter, xs: seq<Spend>, k: nat)
    requires k <= |xs| && Grantable(c, m) && WithinGrants(c, m, xs) && After(c, m, xs, k).1.Calm?
    ensures Grantable(c, After(c, m, xs, k).0)
    decreases k
  {
    if k > 0 {
      CalmBefore(c, m, xs, k - 1);
      AfterStep(c, m, xs, k - 1);
      StaysGrantable(c, m, xs, k - 1);
      var before, after := After(c, m, xs, k - 1).0, After(c, m, xs, k).0;
      if xs[k - 1].VM? {
        VMChargeStaysGrantable(c, before, xs[k - 1].used);
      } else {
        GasRegister.MulMonotone(c.multiplier, after.limit - after.consumed, before.limit - before.consumed);
      }
    }
  }

  /**
   * In a whole run that mixes VM calls with set-up, store and event gas, a VM charge never pushes
   * the meter past its limit, and signals out of gas only when it uses the last of it.
   */
  lemma VMRunStaysWithinLimit(c: Config, m: Meter, xs: seq<Spend>)
    requires Grantable(c, m) && WithinGrants(c, m, xs)
    ensures forall k :: 0 <= k < |xs| && xs[k].VM? && After(c, m, xs, k).1.Calm? ==>
              var (m', g) := After(c, m, xs, k + 1);
              WithinLimit(m') && !g.Overflow? && (g.GasOut? <==> m'.consumed == m'.limit)
  {
    forall k | 0 <= k < |xs| && xs[k].VM? && After(c, m, xs, k).1.Calm?
      ensures var (m', g) := After(c, m, xs, k + 1);
              WithinLimit(m') && !g.Overflow? && (g.GasOut? <==> m'.consumed == m'.limit)
    {
      StaysGrantable(c, m, xs, k);
      AfterStep(c, m, xs, k);
      VMChargeStaysWithinLimit(c, After(c, m, xs, k).0, xs[k].used);
    }
  }

  function Charged(c: Config, uses: seq<u64>): (n: nat) {
    if uses == [] then 0 else GasRegister.FromWasmVMGas(c, uses[0]) + Charged(c, uses[1..])
  }

  function Sum(uses: seq<u64>): (n: nat) {
    if uses == [] then 0 else uses[0] + Sum(uses[1..])
  }

  /** After k calls the SDK gas charged is the exact quotient rounded down by less than k. */
  lemma {:induction false} RoundingOverRuns(c: Config, uses: seq<u64>)
    ensures c.multiplier * Charged(c, uses) <= Sum(uses)
    ensures uses != [] ==> Sum(uses) < c.multiplier * (Charged(c, uses) + |uses|)
  {
    if uses != [] {
      var q, rest := GasRegister.FromWasmVMGas(c, uses[0]), Charged(c, uses[1..]);
      GasRegister.DivBounds(uses[0], c.multiplier);
      RoundingOverRuns(c, uses[1..]);
      var n := |uses| - 1;
      assert c.multiplier * (q + rest) == c.multiplier * q + c.multiplier * rest;
      assert c.multiplier * (q + rest + n + 1) == c.multiplier * q + c.multiplier * (rest + n) + c.multiplier;
      if uses[1..] == [] {
        assert n == 0 && rest == 0;
        assert c.multiplier * 0 == 0;
      }
    }
  }
}
