/**
 * Where contract addresses come from. Every contract sits at the hash of an instance number that
 * was used up or of a preimage some call asked for, so that a classic address is never taken
 * unless the hash has a collision among the inputs that occurred.
 */
module Origins {
  import opened Base
  import opened Types
  import opened Keys
  import opened Meters
  import opened Engine
  import opened History
  import opened Policies
  import opened Registry
  import opened RegistrySteps
  import opened KeeperOps
  import opened Books
  import opened BookSteps
  import opened LeafWrites
  import opened CallPoints

  /** The address of an instance number below next, or of one of the longer preimages in use. */
  ghost predicate BornFrom(h: Host, used: set<bytes>, next: u64, a: Addr) {
    || (exists c: u64, i: u64 :: i < next && a == h.addressOf(ClassicPreimage(c, i)))
    || (exists pre :: pre in used && |pre| > 16 && a == h.addressOf(pre))
  }

  ghost predicate Lineage(h: Host, used: set<bytes>, s: Store) {
    forall a: Addr :: ContractKey(a) in s ==> BornFrom(h, used, NextInstance(s), a)
  }

  /** The hash has no collision between instance numbers and the preimages in use. */
  ghost predicate NoCollisions(h: Host, used: set<bytes>) {
    forall x: bytes, y: bytes :: (|x| == 16 || x in used) && (|y| == 16 || y in used) && h.addressOf(x) == h.addressOf(y) ==> x == y
  }

  /** Then the next classic address is free, for any code. */
  lemma ClassicAddressIsNew(h: Host, used: set<bytes>, s: Store, c: u64)
    requires Lineage(h, used, s) && NoCollisions(h, used)
    ensures ContractKey(h.addressOf(ClassicPreimage(c, NextInstance(s)))) !in s
  {
    var next := NextInstance(s);
    var a := h.addressOf(ClassicPreimage(c, next));
    if ContractKey(a) in s {
      assert BornFrom(h, used, next, a);
      forall d: u64, i: u64 | a == h.addressOf(ClassicPreimage(d, i)) ensures i == next { ClassicInjective(d, i, c, next); }
    }
  }

  /** And a predictable address is taken only if the same preimage was asked for before. */
  lemma SaltMeetsOnlyItself(h: Host, used: set<bytes>, s: Store, pre: bytes)
    requires Lineage(h, used, s) && NoCollisions(h, used + {pre}) && |pre| > 16
    ensures ContractKey(h.addressOf(pre)) in s ==> pre in used
  {
    var a := h.addressOf(pre);
    if ContractKey(a) in s {
      assert BornFrom(h, used, NextInstance(s), a);
      forall d: u64, i: u64 ensures a != h.addressOf(ClassicPreimage(d, i)) {}
    }
  }

  // ---------------------------------------------------------------- one call

  lemma BornStays(h: Host, used: set<bytes>, next: u64, next': u64, a: Addr)
    requires BornFrom(h, used, next, a) && next <= next'
    ensures BornFrom(h, used, next', a)
  {}

  /** The call's own preimage is one of those in use. */
  predicate Asks(h: Host, used: set<bytes>, s: Store, req: Request) {
    req.Instantiate? && req.generator.Predictable? && PreimageOf(h, s, req).Some? ==> PreimageOf(h, s, req).value in used
  }

  /** All writes to a key say the same. */
  lemma {:induction false} SetStays(s: Store, ws: seq<Write>, k: bytes, v: Value)
    requires forall i :: 0 <= i < |ws| && ws[i].key == k ==> ws[i] == Set(k, v)
    ensures SameAt(s, Apply(s, ws), k) || (k in Apply(s, ws) && Apply(s, ws)[k] == v)
    ensures (k in s && s[k] == v) || (exists i :: 0 <= i < |ws| && ws[i].key == k) ==> k in Apply(s, ws) && Apply(s, ws)[k] == v
    decreases |ws|
  {
    if ws != [] {
      SetStays(ApplyOne(s, ws[0]), ws[1..], k, v);
      forall i | 0 <= i < |ws| && ws[i].key == k && i > 0 ensures ws[1..][i - 1].key == k {}
    }
  }

  /** The instance counter never goes back, and a classic address uses up its number. */
  lemma CounterSteps(h: Host, s: Store, o: Option<bytes>, ws: seq<Write>)
    requires AllTidy(h, s, o, ws) && NextInstance(s) < MAX_U64
    ensures var next := NextInstance(Apply(s, ws));
            && NextInstance(s) <= next <= NextInstance(s) + 1
            && (Advance(s, KeySequenceInstanceID) in ws ==> next == NextInstance(s) + 1)
  {
    var k := KeySequenceInstanceID;
    forall i | 0 <= i < |ws| && ws[i].key == k ensures ws[i] == Advance(s, k) { assert Tidy(h, s, o, ws[i]); }
    SetStays(s, ws, k, Advance(s, k).value);
    Advanced(s, k);
    if Advance(s, k) in ws {
      var i :| 0 <= i < |ws| && ws[i] == Advance(s, k);
      assert ws[i].key == k;
    }
  }

  /** A contract that was not there sits at the hash of the call's preimage. */
  lemma {:induction false} OnlyOneIsNew(h: Host, s0: Store, o: Option<bytes>, s: Store, ws: seq<Write>, a: Addr)
    requires AllTidy(h, s0, o, ws) && ContractKey(a) !in s0 && ContractKey(a) in Apply(s, ws)
    ensures ContractKey(a) in s || (o.Some? && a == h.addressOf(o.value))
    decreases |ws|
  {
    if ws != [] {
      OnlyOneIsNew(h, s0, o, ApplyOne(s, ws[0]), ws[1..], a);
      if ws[0].key == ContractKey(a) {
        assert Tidy(h, s0, o, ws[0]);
        assert ContractKey(h.addressOf(o.value))[1..] == h.addressOf(o.value) && ContractKey(a)[1..] == a;
      }
    }
  }

  lemma {:induction false} PacketsLeave(s: Store, ws: seq<Write>, k: bytes)
    requires !PacketTag(k) && forall i :: 0 <= i < |ws| ==> PacketTag(ws[i].key)
    ensures SameAt(s, Apply(s, ws), k)
    decreases |ws|
  {
    if ws != [] { PacketsLeave(ApplyOne(s, ws[0]), ws[1..], k); }
  }

  /** An instantiation that goes on has reserved its address. */
  lemma ReservedFirst(h: Host, s: Store, m: Meter, ctx: Ctx, req: Request)
    requires req.Instantiate? && req.generator.Classic? && Went(DoInstantiate(h, s, m, ctx, req))
    ensures Advance(s, KeySequenceInstanceID) in DoInstantiate(h, s, m, ctx, req).writes
  {
    var code := GetCode(s, req.codeID).value;
    var (a, reserve) := NewAddress(h, s, req, code.hash).value;
    var e, w, info := SetUpShape(h, s, m, ctx, req, SelectPolicy(h.authority, h.propagate, ctx.policy, req.sender), code.hash, Setup(h, s, req.codeID, |req.payload|), a, reserve);
    assert DoInstantiate(h, s, m, ctx, req).writes[0] == Advance(s, KeySequenceInstanceID);
  }

  /** Whatever a call does, its new contract comes from its own preimage, and it takes at most one instance number. */
  lemma CallKeepsLineage(h: Host, used: set<bytes>, s: Store, m: Meter, ctx: Ctx, req: Request)
    requires Lineage(h, used, s) && NextInstance(s) < MAX_U64 && Asks(h, used, s, req) && Went(Leaf(h, s, m, ctx, req))
    ensures var s' := Apply(s, Leaf(h, s, m, ctx, req).writes); Lineage(h, used, s') && NextInstance(s') <= NextInstance(s) + 1
  {
    var ws, o := Leaf(h, s, m, ctx, req).writes, PreimageOf(h, s, req);
    if req.AckPacket? {
      AckWritesPackets(h, s, req);
      PacketsKeepLineage(h, used, s, ws);
    } else {
      LeafIsTidy(h, s, m, ctx, req);
      CounterSteps(h, s, o, ws);
      if o.Some? { NewIsBorn(h, used, s, m, ctx, req, NextInstance(Apply(s, ws))); }
      TidyKeepsLineage(h, used, s, o, ws);
    }
  }

  lemma PacketsKeepLineage(h: Host, used: set<bytes>, s: Store, ws: seq<Write>)
    requires Lineage(h, used, s) && forall i :: 0 <= i < |ws| ==> PacketTag(ws[i].key)
    ensures Lineage(h, used, Apply(s, ws)) && NextInstance(Apply(s, ws)) == NextInstance(s)
  {
    PacketsLeave(s, ws, KeySequenceInstanceID);
    forall a: Addr | ContractKey(a) in Apply(s, ws) ensures ContractKey(a) in s { PacketsLeave(s, ws, ContractKey(a)); }
  }

  lemma TidyKeepsLineage(h: Host, used: set<bytes>, s: Store, o: Option<bytes>, ws: seq<Write>)
    requires Lineage(h, used, s) && AllTidy(h, s, o, ws) && NextInstance(s) <= NextInstance(Apply(s, ws))
    requires o.Some? ==> BornFrom(h, used, NextInstance(Apply(s, ws)), h.addressOf(o.value))
    ensures Lineage(h, used, Apply(s, ws))
  {
    var next := NextInstance(Apply(s, ws));
    forall a: Addr | ContractKey(a) in Apply(s, ws) ensures BornFrom(h, used, next, a) {
      if ContractKey(a) in s { BornStays(h, used, NextInstance(s), next, a); } else { OnlyOneIsNew(h, s, o, s, ws, a); }
    }
  }

  lemma NewIsBorn(h: Host, used: set<bytes>, s: Store, m: Meter, ctx: Ctx, req: Request, next: u64)
    requires PreimageOf(h, s, req).Some? && Asks(h, used, s, req) && Went(Leaf(h, s, m, ctx, req))
    requires Advance(s, KeySequenceInstanceID) in Leaf(h, s, m, ctx, req).writes ==> next == NextInstance(s) + 1
    ensures BornFrom(h, used, next, h.addressOf(PreimageOf(h, s, req).value))
  {
    if req.generator.Classic? {
      ReservedFirst(h, s, m, ctx, req);
    } else {
      var hash, msg := GetCode(s, req.codeID).value.hash, if req.generator.fixMsg then req.payload else [];
      PreimagesInjective(hash, req.sender, req.generator.salt, msg, hash, req.sender, req.generator.salt, msg);
    }
  }

  // ---------------------------------------------------------------- runs

  /** After n calls, until the counter could wrap. */
  ghost predicate LineageBy(h: Host, used: set<bytes>, n: nat, s: Store) {
    n < MAX_U64 ==> NextInstance(s) <= n && Lineage(h, used, s)
  }

  ghost function LineageClaim(h: Host, used: set<bytes>, base: nat): (p: Claim) {
    Claim((s: Store, t: nat) => LineageBy(h, used, base + t, s), _ => true, _ => true, _ => true,
          (s: Store, req: Request) => Asks(h, used, s, req), 0)
  }

  lemma ClaimSays(h: Host, used: set<bytes>, base: nat, s: Store, t: nat)
    ensures LineageClaim(h, used, base).store(s, t) == LineageBy(h, used, base + t, s)
  {
    var p := LineageClaim(h, used, base);
    assert p.store(s, t) == LineageBy(h, used, base + t, s);
  }

  lemma LineageStep(h: Host, used: set<bytes>, n: nat, s: Store, m: Meter, ctx: Ctx, req: Request)
    requires LineageBy(h, used, n, s) && Asks(h, used, s, req)
    ensures var l := Leaf(h, s, m, ctx, req); Went(l) ==> LineageBy(h, used, n + 1, Apply(s, l.writes))
  {
    if n + 1 < MAX_U64 && Went(Leaf(h, s, m, ctx, req)) { CallKeepsLineage(h, used, s, m, ctx, req); }
  }

  lemma LineageLater(h: Host, used: set<bytes>, n: nat, n': nat, s: Store)
    requires LineageBy(h, used, n, s) && n <= n'
    ensures LineageBy(h, used, n', s)
  {}

  lemma LineageIsInductive(h: Host, used: set<bytes>, base: nat)
    ensures Inductive(KeeperEnv(h), LineageClaim(h, used, base))
  {
    var env, p := KeeperEnv(h), LineageClaim(h, used, base);
    forall s, t: nat, m, ctx, req | p.store(s, t) && p.scope(s, req) ensures LeafKeeps(env, p, s, t, m, ctx, req) {
      LineageStep(h, used, base + t, s, m, ctx, req);
      assert base + t + 1 == base + (t + 1);
    }
    forall s, t: nat, t': nat | p.store(s, t) && t <= t' ensures p.store(s, t') { LineageLater(h, used, base + t, base + t', s); }
  }

  /** The preimages that the calls of a journal asked for. */
  ghost function AskedIn(h: Host, journal: seq<Token>): (used: set<bytes>) {
    set i | 0 <= i < |journal| && journal[i].Called? && PreimageOf(h, journal[i].store, journal[i].request).Some?
      :: PreimageOf(h, journal[i].store, journal[i].request).value
  }

  lemma AskedIsScope(h: Host, used: set<bytes>, base: nat, j: seq<Token>)
    requires AskedIn(h, j) <= used
    ensures InScope(LineageClaim(h, used, base), j)
  {
    forall i | 0 <= i < |j| && j[i].Called? ensures Asks(h, used, j[i].store, j[i].request) {
      var pre := PreimageOf(h, j[i].store, j[i].request);
      if pre.Some? { assert pre.value in AskedIn(h, j); }
    }
  }

  lemma RunsWithin(h: Host, base: nat, w: World, txs: seq<Tx>, used: set<bytes>)
    requires w.journal == [] && LineageClaim(h, used, base).store(w.store, w.tick) && AskedIn(h, Chain(KeeperEnv(h), w, txs).journal) <= used
    ensures var w' := Chain(KeeperEnv(h), w, txs);
            LineageClaim(h, used, base).store(w'.store, w'.tick) && CallsHold(KeeperEnv(h), LineageClaim(h, used, base), w'.journal)
  {
    AskedIsScope(h, used, base, Chain(KeeperEnv(h), w, txs).journal);
    LineageIsInductive(h, used, base);
    ChainKeeps(KeeperEnv(h), LineageClaim(h, used, base), w, txs);
  }

  /**
   * Over every run below 2^64 calls, at its end and at every call: each contract comes from an
   * instance number that was used up, or from a preimage that was in use before the run or asked
   * for in it.
   */
  lemma RunsKeepLineage(h: Host, base: nat, w: World, txs: seq<Tx>, before: set<bytes>)
    requires w.journal == [] && LineageClaim(h, before, base).store(w.store, w.tick)
    ensures var w' := Chain(KeeperEnv(h), w, txs);
            var p := LineageClaim(h, before + AskedIn(h, w'.journal), base);
            p.store(w'.store, w'.tick) && CallsHold(KeeperEnv(h), p, w'.journal)
  {
    var used := before + AskedIn(h, Chain(KeeperEnv(h), w, txs).journal);
    LineageWidens(h, before, used, base, w.store, w.tick);
    RunsWithin(h, base, w, txs, used);
  }

  lemma LineageWidens(h: Host, used: set<bytes>, more: set<bytes>, base: nat, s: Store, t: nat)
    requires LineageClaim(h, used, base).store(s, t) && used <= more
    ensures LineageClaim(h, more, base).store(s, t)
  {
    ClaimSays(h, used, base, s, t);
    ClaimSays(h, more, base, s, t);
    if base + t < MAX_U64 { MoreBorn(h, used, more, s); }
  }

  lemma MoreBorn(h: Host, used: set<bytes>, more: set<bytes>, s: Store)
    requires Lineage(h, used, s) && used <= more
    ensures Lineage(h, more, s)
  {
    forall a: Addr | ContractKey(a) in s ensures BornFrom(h, more, NextInstance(s), a) { assert BornFrom(h, used, NextInstance(s), a); }
  }

  /** The request is an instantiation whose address is in use. */
  predicate AddressTaken(h: Host, s: Store, req: Request) {
    PreimageOf(h, s, req).Some? && ContractKey(h.addressOf(PreimageOf(h, s, req).value)) in s
  }

  /** Instantiation reports a duplicate for such a request, and otherwise only if the bank or the account keeper does. */
  lemma DuplicateMeansTaken(h: Host, s: Store, m: Meter, ctx: Ctx, req: Request)
    requires req.Instantiate? && DoInstantiate(h, s, m, ctx, req).end == Fail(ErrDuplicate) && !AddressTaken(h, s, req)
    ensures PreimageOf(h, s, req).Some?
    ensures var (a, reserve) := NewAddress(h, s, req, GetCode(s, req.codeID).value.hash).value;
            Endow(h, Apply(s, reserve), req, a) == Failure(ErrDuplicate)
  {}

  /**
   * In every run below 2^64 calls, no instantiation with a classic address ever finds it taken,
   * unless the hash has a collision among the inputs that occurred.
   */
  lemma ClassicNeverTaken(h: Host, base: nat, w: World, txs: seq<Tx>, before: set<bytes>)
    requires w.journal == [] && LineageClaim(h, before, base).store(w.store, w.tick)
    requires NoCollisions(h, before + AskedIn(h, Chain(KeeperEnv(h), w, txs).journal))
    ensures var j := Chain(KeeperEnv(h), w, txs).journal;
            forall i :: 0 <= i < |j| && j[i].Called? && base + j[i].tick < MAX_U64 && j[i].request.Instantiate? && j[i].request.generator.Classic? ==>
              !AddressTaken(h, j[i].store, j[i].request)
  {
    var j := Chain(KeeperEnv(h), w, txs).journal;
    RunsKeepLineage(h, base, w, txs, before);
    ClassicFreeAt(h, base, j, before + AskedIn(h, j));
  }

  lemma ClassicFreeAt(h: Host, base: nat, j: seq<Token>, used: set<bytes>)
    requires CallsHold(KeeperEnv(h), LineageClaim(h, used, base), j) && NoCollisions(h, used)
    ensures forall i :: 0 <= i < |j| && j[i].Called? && base + j[i].tick < MAX_U64 && j[i].request.Instantiate? && j[i].request.generator.Classic? ==>
              !AddressTaken(h, j[i].store, j[i].request)
  {
    forall i | 0 <= i < |j| && j[i].Called? && base + j[i].tick < MAX_U64 && j[i].request.Instantiate? && j[i].request.generator.Classic?
      ensures !AddressTaken(h, j[i].store, j[i].request)
    {
      assert LineageClaim(h, used, base).store(j[i].store, j[i].tick);
      ClassicIsFree(h, used, base, j[i].store, j[i].tick, j[i].request);
    }
  }

  lemma ClassicIsFree(h: Host, used: set<bytes>, base: nat, s: Store, t: nat, req: Request)
    requires LineageClaim(h, used, base).store(s, t) && base + t < MAX_U64 && NoCollisions(h, used)
    requires req.Instantiate? && req.generator.Classic?
    ensures !AddressTaken(h, s, req)
  {
    ClaimSays(h, used, base, s, t);
    ClassicAddressIsNew(h, used, s, req.codeID);
  }

  // ---------------------------------------------------------------- all of this happens

  /** A hash without collisions between instance numbers and one more preimage. */
  function Spread(x: bytes): (a: ContractAddr) {
    if |x| == 16 then x + seq(16, _ => 0) else seq(32, _ => 1)
  }

  lemma SpreadHasNoCollisions(h: Host, pre: bytes)
    requires h.addressOf == Spread && |pre| > 16
    ensures NoCollisions(h, {pre})
  {
    forall x: bytes, y: bytes | (|x| == 16 || x in {pre}) && (|y| == 16 || y in {pre}) && h.addressOf(x) == h.addressOf(y) ensures x == y {
      assert |x| == 16 ==> Spread(x)[..16] == x && Spread(x)[16] == 0;
      assert |y| == 16 ==> Spread(y)[..16] == y && Spread(y)[16] == 0;
    }
  }

  lemma StoreWithCode(params: Params, code: CodeInfo) returns (s: Store)
    ensures Book(s, 2) && GetParams(s) == Some(params) && CodeKey(1) in s && NextInstance(s) == 1
    ensures forall k :: k in s ==> k == ParamsKey || k == KeySequenceCodeID || (k == CodeKey(1) && s[k] == CodeV(code))
  {
    var s0: Store := map[ParamsKey := ParamsV(params)];
    s := CodeOnly(s0, params, code);
    FreshStoreHasBook(params);
    NewCodeFacts(s0, 1, code);
    AsideKeeps(s0, s, 1, 2);
  }

  lemma CodeOnly(s0: Store, params: Params, code: CodeInfo) returns (s: Store)
    requires s0 == map[ParamsKey := ParamsV(params)]
    ensures NextCode(s0) == 1 && s == Apply(s0, [Advance(s0, KeySequenceCodeID), Set(CodeKey(1), CodeV(code))])
    ensures GetParams(s) == Some(params) && CodeKey(1) in s && NextInstance(s) == 1
    ensures forall k :: k in s ==> k == ParamsKey || k == KeySequenceCodeID || (k == CodeKey(1) && s[k] == CodeV(code))
  {
    assert ParamsKey[0] == 0x10 && KeySequenceCodeID[0] == 0x04 && KeySequenceInstanceID[0] == 0x04;
    TagsApart(1, 1);
    TwoWrites(s0, Advance(s0, KeySequenceCodeID), Set(CodeKey(1), CodeV(code)));
    s := Apply(s0, [Advance(s0, KeySequenceCodeID), Set(CodeKey(1), CodeV(code))]);
  }

  /** The records of a contract at a free address. */
  lemma AddRecords(s: Store, n: nat, a: Addr, info: ContractInfo)
    requires Book(s, n) && n > 0 && ContractKey(a) !in s && CodeKey(info.codeID) in s && |a| == 32
    ensures Book(Apply(s, PersistWrites(s, a, info, [])), n)
  {
    PersistKeepsBook(s, n, a, [], info, []);
    assert Apply(s, []) == s;
  }

  /** A contract at the next classic address. */
  lemma AddContract(h: Host, used: set<bytes>, s: Store, n: nat, info: ContractInfo) returns (s1: Store, s': Store)
    requires Book(s, n) && n + 1 < MAX_U64 && Lineage(h, used, s) && NoCollisions(h, used) && CodeKey(info.codeID) in s
    ensures s1 == ApplyOne(s, Advance(s, KeySequenceInstanceID)) && OnlyRegistry(s1, s')
    ensures Book(s', n + 1) && Lineage(h, used, s') && ContractKey(h.addressOf(ClassicPreimage(info.codeID, NextInstance(s)))) in s'
  {
    var pre := ClassicPreimage(info.codeID, NextInstance(s));
    var a := h.addressOf(pre);
    ClassicAddressIsNew(h, used, s, info.codeID);
    InstanceKeeps(s, n);
    s1 := ReservedStore(s, n, a, info.codeID);
    s' := Apply(s1, PersistWrites(s1, a, info, []));
    AddRecords(s1, n + 1, a, info);
    PersistOnly(s1, a, info, []);
    AddedLineage(h, used, s, s1, s', pre, info);
    PersistIsThere(s1, a, info);
  }

  lemma ReservedStore(s: Store, n: nat, a: Addr, id: u64) returns (s1: Store)
    requires Shapes(s) && Counted(s, n) && PinsOk(s) && n < MAX_U64
    ensures s1 == ApplyOne(s, Advance(s, KeySequenceInstanceID)) && NextInstance(s1) == NextInstance(s) + 1 && SameRecords(s, s1)
    ensures SameAt(s, s1, ContractKey(a)) && SameAt(s, s1, CodeKey(id))
  {
    s1 := ApplyOne(s, Advance(s, KeySequenceInstanceID));
    InstanceFacts(s, n);
  }

  lemma PersistIsThere(s: Store, a: Addr, info: ContractInfo)
    ensures ContractKey(a) in Apply(s, PersistWrites(s, a, info, []))
  {
    PersistList(s, a, info, []);
    var ws := PersistWrites(s, a, info, []);
    LastWriteStays(s, ws[..|ws| - 1], ws[|ws| - 1]);
    assert ws == ws[..|ws| - 1] + [ws[|ws| - 1]];
  }

  lemma LastWriteStays(s: Store, ws: seq<Write>, w: Write)
    requires w.Set?
    ensures w.key in Apply(s, ws + [w])
  {
    ApplyConcat(s, ws, [w]);
    OneWrite(Apply(s, ws), w);
  }

  lemma AddedLineage(h: Host, used: set<bytes>, s: Store, s1: Store, s': Store, pre: bytes, info: ContractInfo)
    requires Lineage(h, used, s) && pre == ClassicPreimage(info.codeID, NextInstance(s)) && NextInstance(s1) == NextInstance(s) + 1
    requires SameRecords(s, s1) && ContractKey(h.addressOf(pre)) !in s1 && OnlyRegistry(s1, s')
    requires s' == Apply(s1, PersistWrites(s1, h.addressOf(pre), info, []))
    ensures Lineage(h, used, s')
  {
    assert SameAt(s1, s', KeySequenceInstanceID);
    PersistIsTidy(h, s1, s1, pre, info, []);
    forall b: Addr | ContractKey(b) in s' ensures BornFrom(h, used, NextInstance(s'), b) {
      assert SameAt(s, s1, ContractKey(b));
      if ContractKey(b) in s1 {
        BornStays(h, used, NextInstance(s), NextInstance(s'), b);
      } else {
        OnlyOneIsNew(h, s1, Some(pre), s1, PersistWrites(s1, h.addressOf(pre), info, []), b);
      }
    }
  }

  /** A store with a code and a contract in which the address hash has no collisions. */
  lemma SomeStore(h: Host, pre: bytes, params: Params, code: CodeInfo, info: ContractInfo) returns (s: Store)
    requires h.addressOf == Spread && |pre| > 16 && info.codeID == 1
    ensures NoCollisions(h, {pre}) && Book(s, 3) && Lineage(h, {pre}, s) && ContractKey(h.addressOf(ClassicPreimage(1, 1))) in s
    ensures GetParams(s) == Some(params) && forall k :: k in s && [0x01] <= k ==> s[k] == CodeV(code)
  {
    SpreadHasNoCollisions(h, pre);
    var s0 := StoreWithCode(params, code);
    NoContractsYet(h, {pre}, s0, code);
    var s1;
    s1, s := AddContract(h, {pre}, s0, 2, info);
    assert !Registered(ParamsKey);
    forall k | k in s && [0x01] <= k ensures s[k] == CodeV(code) { assert !Registered(k); }
  }

  lemma NoContractsYet(h: Host, used: set<bytes>, s: Store, code: CodeInfo)
    requires forall k :: k in s ==> k == ParamsKey || k == KeySequenceCodeID || (k == CodeKey(1) && s[k] == CodeV(code))
    ensures Lineage(h, used, s)
  {
    forall a: Addr ensures ContractKey(a) !in s { assert ContractKey(a)[0] == 0x02; }
  }
}
