/** What a code identifier or a contract address once stood for, it stands for in every later state. */
module Permanence {
  import opened Base
  import opened Types
  import opened Keys
  import opened Meters
  import opened Engine
  import opened History
  import opened Registry
  import opened KeeperOps
  import opened Books
  import opened BookSteps
  import opened LeafWrites
  import opened CallPoints

  /** A code and a contract to watch, each perhaps absent. */
  datatype Memory = Memory(id: u64, code: Option<CodeInfo>, addr: Addr, contract: Option<ContractInfo>)

  predicate Remembers(s: Store, m: Memory) {
    && (m.code.Some? ==> GetCode(s, m.id).Some? && SameCode(GetCode(s, m.id).value, m.code.value))
    && (m.contract.Some? ==> GetContract(s, m.addr).Some? && SameOrigin(GetContract(s, m.addr).value, m.contract.value))
  }

  lemma OneWriteRemembers(h: Host, s0: Store, o: Option<bytes>, s: Store, w: Write, m: Memory)
    requires Tidy(h, s0, o, w) && Remembers(s0, m) && Remembers(s, m) && (m.code.Some? ==> CodeKey(m.id) != CodeKey(NextCode(s0)))
    ensures Remembers(ApplyOne(s, w), m)
  {
    assert CodeKey(m.id)[0] == 0x01 && ContractKey(m.addr)[0] == 0x02;
  }

  lemma {:induction false} WritesRemember(h: Host, s0: Store, o: Option<bytes>, s: Store, ws: seq<Write>, m: Memory)
    requires AllTidy(h, s0, o, ws) && Remembers(s0, m) && Remembers(s, m) && (m.code.Some? ==> CodeKey(m.id) != CodeKey(NextCode(s0)))
    ensures Remembers(Apply(s, ws), m)
    decreases |ws|
  {
    if ws != [] {
      OneWriteRemembers(h, s0, o, s, ws[0], m);
      WritesRemember(h, s0, o, ApplyOne(s, ws[0]), ws[1..], m);
    }
  }

  lemma {:induction false} PacketsRemember(s: Store, ws: seq<Write>, m: Memory)
    requires Remembers(s, m) && forall i :: 0 <= i < |ws| ==> PacketTag(ws[i].key)
    ensures Remembers(Apply(s, ws), m)
    decreases |ws|
  {
    if ws != [] {
      assert CodeKey(m.id)[0] == 0x01 && ContractKey(m.addr)[0] == 0x02;
      PacketsRemember(ApplyOne(s, ws[0]), ws[1..], m);
    }
  }

  /** No call gives an identifier in use to another code or an address to another contract. */
  lemma CallRemembers(h: Host, s: Store, n: nat, meter: Meter, ctx: Ctx, req: Request, m: Memory)
    requires Book(s, n) && Remembers(s, m) && Went(Leaf(h, s, meter, ctx, req))
    ensures Remembers(Apply(s, Leaf(h, s, meter, ctx, req).writes), m)
  {
    if req.AckPacket? {
      AckWritesPackets(h, s, req);
      PacketsRemember(s, Leaf(h, s, meter, ctx, req).writes, m);
    } else {
      LeafIsTidy(h, s, meter, ctx, req);
      NewCodeIsNew(s, n);
      WritesRemember(h, s, PreimageOf(h, s, req), s, Leaf(h, s, meter, ctx, req).writes, m);
    }
  }

  ghost predicate RemembersBy(n: nat, s: Store, m: Memory) {
    BookBy(n, s) && (n < MAX_U64 ==> Remembers(s, m))
  }

  ghost function MemoryClaim(base: nat, m: Memory): (p: Claim) {
    Claim((s: Store, t: nat) => RemembersBy(base + t, s, m), _ => true, _ => true, _ => true, (_, _) => true, 0)
  }

  lemma MemoryStep(h: Host, n: nat, s: Store, meter: Meter, ctx: Ctx, req: Request, m: Memory)
    requires RemembersBy(n, s, m)
    ensures var l := Leaf(h, s, meter, ctx, req); Went(l) ==> RemembersBy(n + 1, Apply(s, l.writes), m)
  {
    StepBy(h, n, s, meter, ctx, req);
    if n + 1 < MAX_U64 && Went(Leaf(h, s, meter, ctx, req)) { CallRemembers(h, s, n, meter, ctx, req, m); }
  }

  lemma MemoryLater(n: nat, n': nat, s: Store, m: Memory)
    requires RemembersBy(n, s, m) && n <= n'
    ensures RemembersBy(n', s, m)
  {
    BookByLater(n, n', s);
  }

  lemma MemoryLeaves(h: Host, base: nat, m: Memory)
    ensures forall s, t, meter, ctx, req :: MemoryClaim(base, m).store(s, t) ==> LeafKeeps(KeeperEnv(h), MemoryClaim(base, m), s, t, meter, ctx, req)
  {
    var env, p := KeeperEnv(h), MemoryClaim(base, m);
    forall s, t: nat, meter, ctx, req | p.store(s, t) ensures LeafKeeps(env, p, s, t, meter, ctx, req) {
      MemoryStep(h, base + t, s, meter, ctx, req, m);
      assert base + t + 1 == base + (t + 1);
    }
  }

  lemma MemoryIsInductive(h: Host, base: nat, m: Memory)
    ensures Inductive(KeeperEnv(h), MemoryClaim(base, m))
  {
    var env, p := KeeperEnv(h), MemoryClaim(base, m);
    MemoryLeaves(h, base, m);
    forall s, t: nat, t': nat | p.store(s, t) && t <= t' ensures p.store(s, t') { MemoryLater(base + t, base + t', s, m); }
  }

  /**
   * Over every run below 2^64 calls, at its end and at every call: an identifier keeps its hash
   * and creator, an address keeps its creator and creation position, and neither disappears.
   */
  lemma NothingIsForgotten(h: Host, base: nat, w: World, txs: seq<Tx>, m: Memory)
    requires w.journal == [] && MemoryClaim(base, m).store(w.store, w.tick)
    ensures var w' := Chain(KeeperEnv(h), w, txs);
            MemoryClaim(base, m).store(w'.store, w'.tick) && CallsHold(KeeperEnv(h), MemoryClaim(base, m), w'.journal)
  {
    MemoryIsInductive(h, base, m);
    ChainKeeps(KeeperEnv(h), MemoryClaim(base, m), w, txs);
  }
}
