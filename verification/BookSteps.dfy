/** Every call into the keeper keeps the book, and so does every run. */
module BookSteps {
  import opened Base
  import opened Types
  import opened Keys
  import opened Meters
  import opened Engine
  import opened OrderedStore
  import opened History
  import opened Registry
  import opened RegistrySteps
  import opened KeeperOps
  import opened Books
  import opened CallPoints
  import opened Policies
  import GasRegister

  predicate Went(l: LeafResult) {
    l.end.Done? || l.end.Respond?
  }

  /** One more call: the book holds again, with the bound raised by one. */
  ghost predicate StepKeeps(s: Store, n: nat, l: LeafResult) {
    Went(l) ==> Book(Apply(s, l.writes), n + 1)
  }

  // ---------------------------------------------------------------- calls that only write quietly

  /** A contract that ran exists, and wrote below its own prefix only. */
  lemma CalledShape(h: Host, s: Store, m: Meter, ctx: Ctx, req: Request, a: Addr, setup: Option<u64>, pre: seq<Write>, kind: string)
    requires AllQuiet(Some(a), pre)
    ensures var l := CallContract(h, s, m, ctx, req, a, setup, pre, kind);
            AllQuiet(Some(a), l.writes) && (Went(l) ==> GetContract(s, a).Some?)
  {
    if GetContract(s, a).Some? && GetCode(s, GetContract(s, a).value.codeID).Some? && setup.Some? {
      InvokedQuietly(h, Apply(s, pre), m, setup.value, GetCode(s, GetContract(s, a).value.codeID).value.hash, a, req);
    }
  }

  lemma CallContractKeeps(h: Host, s: Store, n: nat, m: Meter, ctx: Ctx, req: Request, a: Addr, setup: Option<u64>, pre: seq<Write>, kind: string)
    requires Book(s, n) && AllQuiet(Some(a), pre)
    ensures StepKeeps(s, n, CallContract(h, s, m, ctx, req, a, setup, pre, kind))
  {
    CalledShape(h, s, m, ctx, req, a, setup, pre, kind);
    var l := CallContract(h, s, m, ctx, req, a, setup, pre, kind);
    if Went(l) { QuietKeepsBook(s, Some(a), l.writes, n, n + 1); }
  }

  lemma InvokedQuietly(h: Host, s: Store, m: Meter, setup: u64, hash: bytes, a: Addr, req: Request)
    ensures var i := InvokeVM(h, s, m, setup, hash, a, req); i.Ran? ==> AllQuiet(Some(a), i.writes)
  {
    var gas := GasForVM(h, m, [Plain(setup)]);
    if gas.Some? { StateWritesQuiet(a, h.vm(s, hash, a, req, gas.value).writes); }
  }

  lemma ExecuteKeeps(h: Host, s: Store, n: nat, m: Meter, ctx: Ctx, req: Request)
    requires Book(s, n) && req.Execute?
    ensures StepKeeps(s, n, DoExecute(h, s, m, ctx, req))
  {
    var setup := if GetContract(s, req.contract).Some? then Setup(h, s, GetContract(s, req.contract).value.codeID, |req.payload|) else 0;
    CallContractKeeps(h, s, n, m, ctx, req, req.contract, Some(setup), [], "execute");
    var r := h.transfer(s, req.sender, req.contract, req.funds);
    if r.Success? {
      ForeignWritesQuiet(Some(req.contract), r.value);
      CallContractKeeps(h, s, n, m, ctx, req, req.contract, Some(setup), ForeignWrites(r.value), "execute");
    }
  }

  lemma NativeKeeps(h: Host, s: Store, n: nat, req: Request)
    requires Book(s, n)
    ensures StepKeeps(s, n, DoNative(h, s, req))
  {
    ForeignWritesQuiet(None, h.native(s, req).writes);
    QuietKeepsBook(s, None, ForeignWrites(h.native(s, req).writes), n, n + 1);
  }

  lemma AckPacketKeeps(h: Host, s: Store, n: nat, req: Request)
    requires Book(s, n) && req.AckPacket?
    ensures StepKeeps(s, n, DoAckPacket(h, s, req))
  {
    var l := DoAckPacket(h, s, req);
    if Went(l) {
      PacketsUndisturbed(s, l.writes);
      UndisturbedKeepsBook(s, Apply(s, l.writes), None, n, n + 1);
    }
  }

  // ---------------------------------------------------------------- codes and pins

  lemma TwoWrites(s: Store, w0: Write, w1: Write)
    ensures Apply(s, [w0, w1]) == ApplyOne(ApplyOne(s, w0), w1)
  {
    assert [w0, w1] == [w0] + ([w1] + []);
    ApplyCons(s, w0, [w1] + []);
    ApplyCons(ApplyOne(s, w0), w1, []);
  }

  lemma OneWrite(s: Store, w: Write)
    ensures Apply(s, [w]) == ApplyOne(s, w)
  {
    assert [w] == [w] + [];
    ApplyCons(s, w, []);
  }

  /** A code, counter or pin key: not a contract's, and its old codes stay. */
  ghost predicate Aside(s: Store, s': Store) {
    && (forall k :: Registered(k) || (|k| > 0 && k[0] == 0x03) ==> SameAt(s, s', k))
    && CodesGrow(s, s')
  }

  lemma OneAside(s: Store, w: Write)
    requires |w.key| > 0 && (w.key[0] == 0x01 || w.key[0] == 0x04 || w.key[0] == 0x07) && (w.Delete? ==> w.key[0] == 0x07)
    requires Shapes(s) && (w.Set? ==> ShapeOk(w.key, w.value))
    ensures Aside(s, ApplyOne(s, w)) && Shapes(ApplyOne(s, w))
  {}

  lemma AsideTrans(s: Store, s': Store, s'': Store)
    requires Aside(s, s') && Aside(s', s'')
    ensures Aside(s, s'')
  {
    forall k | Registered(k) || (|k| > 0 && k[0] == 0x03) ensures SameAt(s, s'', k) {
      assert SameAt(s, s', k) && SameAt(s', s'', k);
    }
  }

  /** A change aside after which counters and pins are in order. */
  ghost function AsideStep(s: Store, n: nat): (step: Store -> bool) {
    (s': Store) => Aside(s, s') && Shapes(s') && Counted(s', n) && PinsOk(s') && NextInstance(s) <= NextInstance(s')
  }

  lemma AsideKeeps(s: Store, s': Store, n: nat, n': nat)
    requires Book(s, n) && n <= n' && AsideStep(s, n')(s')
    ensures Book(s', n')
  {
    assert SameRegistry(s, s');
    RegistryKept(s, s', n, n');
    forall b: Addr | ContractKey(b) in s ensures ContractKey(b) in s' { assert SameAt(s, s', ContractKey(b)); }
    forall k | k in s' ensures AtHome(s, None, k) {
      if |k| > 0 && k[0] == 0x03 { assert SameAt(s, s', k); }
    }
    HousedAfter(s, s', None);
  }

  lemma Advanced(s: Store, key: bytes)
    requires Peek(s, key) < MAX_U64
    ensures Peek(ApplyOne(s, Advance(s, key)), key) == Peek(s, key) + 1
  {
    BE8RoundTrip(Peek(s, key) + 1);
  }

  lemma TagsApart(id: u64, j: u64)
    ensures CodeKey(id) != KeySequenceCodeID && CodeKey(id) != KeySequenceInstanceID && KeySequenceCodeID != KeySequenceInstanceID
    ensures PinKey(id) != KeySequenceCodeID && PinKey(id) != KeySequenceInstanceID && PinKey(id) != CodeKey(j)
    ensures CodeKey(id) == CodeKey(j) ==> id == j
    ensures PinKey(id) == PinKey(j) ==> id == j
  {
    assert CodeKey(id)[0] == 1 && KeySequenceCodeID[0] == 4 && KeySequenceInstanceID[0] == 4 && PinKey(id)[0] == 7 && CodeKey(j)[0] == 1;
    if CodeKey(id) == CodeKey(j) { SplitEqual([0x01], BE8(id), [0x01], BE8(j)); BE8Injective(id, j); }
    if PinKey(id) == PinKey(j) { SplitEqual([0x07], BE8(id), [0x07], BE8(j)); BE8Injective(id, j); }
  }

  /** create: the identifier handed out is not in use. */
  lemma NewCodeIsNew(s: Store, n: nat)
    requires Book(s, n)
    ensures CodeKey(NextCode(s)) !in s
  {}

  /** The counter moves past it. */
  lemma NewCodeFacts(s: Store, n: nat, info: CodeInfo)
    requires Shapes(s) && n < MAX_U64 && Counted(s, n) && PinsOk(s)
    ensures AsideStep(s, n + 1)(Apply(s, [Advance(s, KeySequenceCodeID), Set(CodeKey(NextCode(s)), CodeV(info))]))
  {
    var id := NextCode(s);
    TwoWrites(s, Advance(s, KeySequenceCodeID), Set(CodeKey(id), CodeV(info)));
    Advanced(s, KeySequenceCodeID);
    NewCodeAside(s, id, info);
    NewCodeCounted(s, ApplyOne(s, Advance(s, KeySequenceCodeID)), n, id, info);
  }

  lemma NewCodeAside(s: Store, id: u64, info: CodeInfo)
    requires Shapes(s)
    ensures var s' := ApplyOne(s, Advance(s, KeySequenceCodeID))[CodeKey(id) := CodeV(info)]; Aside(s, s') && Shapes(s')
  {
    var w0, w1 := Advance(s, KeySequenceCodeID), Set(CodeKey(id), CodeV(info));
    var s1 := ApplyOne(s, w0);
    OneAside(s, w0);
    OneAside(s1, w1);
    AsideTrans(s, s1, ApplyOne(s1, w1));
  }

  lemma NewCodeCounted(s: Store, s1: Store, n: nat, id: u64, info: CodeInfo)
    requires Counted(s, n) && PinsOk(s) && id == NextCode(s) && s1 == ApplyOne(s, Advance(s, KeySequenceCodeID)) && NextCode(s1) == id + 1
    ensures Counted(s1[CodeKey(id) := CodeV(info)], n + 1) && PinsOk(s1[CodeKey(id) := CodeV(info)])
    ensures NextInstance(s1[CodeKey(id) := CodeV(info)]) == NextInstance(s)
  {
    var s' := s1[CodeKey(id) := CodeV(info)];
    TagsApart(id, id);
    assert NextCode(s') == id + 1 && NextInstance(s') == NextInstance(s);
    forall j: u64 | CodeKey(j) in s' || j == 0 ensures j < NextCode(s') { TagsApart(j, id); }
    forall j: u64 | PinKey(j) in s' ensures CodeKey(j) in s' { TagsApart(j, id); }
  }

  lemma StoreCodeKeeps(h: Host, s: Store, n: nat, m: Meter, ctx: Ctx, req: Request)
    requires Book(s, n) && n < MAX_U64 && req.StoreCode?
    ensures StepKeeps(s, n, DoStoreCode(h, s, m, ctx, req))
  {
    StoreCodeAside(h, s, n, m, ctx, req);
    AsideLeaf(s, n, DoStoreCode(h, s, m, ctx, req));
  }

  lemma StoreCodeAside(h: Host, s: Store, n: nat, m: Meter, ctx: Ctx, req: Request)
    requires Shapes(s) && n < MAX_U64 && Counted(s, n) && PinsOk(s) && req.StoreCode?
    ensures var l := DoStoreCode(h, s, m, ctx, req); Went(l) ==> AsideStep(s, n + 1)(Apply(s, l.writes))
  {
    var info := StoreCodeWrites(h, s, m, ctx, req);
    NewCodeFacts(s, n, info);
  }

  /** create writes nothing, or the advanced counter and one record under the old one. */
  lemma StoreCodeWrites(h: Host, s: Store, m: Meter, ctx: Ctx, req: Request) returns (info: CodeInfo)
    requires req.StoreCode?
    ensures var l := DoStoreCode(h, s, m, ctx, req);
            if l.writes == [] then !Went(l) else l.writes == [Advance(s, KeySequenceCodeID), Set(CodeKey(NextCode(s)), CodeV(info))]
  {
    var l := DoStoreCode(h, s, m, ctx, req);
    info := if l.writes == [] then CodeInfo([], [], AccessConfig(Nobody, [])) else l.writes[1].value.code;
  }

  lemma AsideLeaf(s: Store, n: nat, l: LeafResult)
    requires Book(s, n) && (Went(l) ==> AsideStep(s, n + 1)(Apply(s, l.writes)))
    ensures StepKeeps(s, n, l)
  {
    if Went(l) { AsideKeeps(s, Apply(s, l.writes), n, n + 1); }
  }

  lemma SetAccessKeeps(h: Host, s: Store, n: nat, ctx: Ctx, req: Request)
    requires Book(s, n) && req.SetAccess?
    ensures StepKeeps(s, n, DoSetAccess(h, s, ctx, req))
  {
    var l := DoSetAccess(h, s, ctx, req);
    if Went(l) {
      var info := GetCode(s, req.codeID).value.(access := req.config);
      OneWrite(s, Set(CodeKey(req.codeID), CodeV(info)));
      CodeSwapKeeps(s, n, req.codeID, info);
    }
  }

  lemma CodeSwapKeeps(s: Store, n: nat, id: u64, info: CodeInfo)
    requires Book(s, n) && CodeKey(id) in s
    ensures Book(s[CodeKey(id) := CodeV(info)], n + 1)
  {
    var s' := s[CodeKey(id) := CodeV(info)];
    OneAside(s, Set(CodeKey(id), CodeV(info)));
    CodeSwapCounted(s, n, id, info);
    AsideKeeps(s, s', n, n + 1);
  }

  lemma CodeSwapCounted(s: Store, n: nat, id: u64, info: CodeInfo)
    requires Counted(s, n) && PinsOk(s) && CodeKey(id) in s
    ensures Counted(s[CodeKey(id) := CodeV(info)], n + 1) && PinsOk(s[CodeKey(id) := CodeV(info)])
    ensures NextInstance(s[CodeKey(id) := CodeV(info)]) == NextInstance(s)
  {
    TagsApart(id, id);
    forall j: u64 ensures PinKey(j) != CodeKey(id) { TagsApart(j, id); }
  }

  lemma {:induction false} PinWritesKeep(s: Store, n: nat, ids: seq<u64>, pin: bool)
    requires Book(s, n) && (pin ==> forall i :: 0 <= i < |ids| ==> CodeKey(ids[i]) in s)
    ensures Book(Apply(s, PinWrites(ids, pin)), n)
    decreases |ids|
  {
    if ids != [] {
      var w := if pin then Set(PinKey(ids[0]), RawV([1])) else Delete(PinKey(ids[0]));
      var s' := ApplyOne(s, w);
      ApplyCons(s, w, PinWrites(ids[1..], pin));
      OnePinKeeps(s, n, ids[0], w);
      forall i | 0 <= i < |ids[1..]| && pin ensures CodeKey(ids[1..][i]) in s' {
        assert ids[1..][i] == ids[i + 1];
      }
      PinWritesKeep(s', n, ids[1..], pin);
    }
  }

  lemma OnePinKeeps(s: Store, n: nat, id: u64, w: Write)
    requires Book(s, n) && (w == Delete(PinKey(id)) || (w == Set(PinKey(id), RawV([1])) && CodeKey(id) in s))
    ensures Book(ApplyOne(s, w), n)
    ensures forall j: u64 :: CodeKey(j) in s <==> CodeKey(j) in ApplyOne(s, w)
  {
    OneAside(s, w);
    OnePinCounted(s, n, id, w);
    AsideKeeps(s, ApplyOne(s, w), n, n);
  }

  lemma OnePinCounted(s: Store, n: nat, id: u64, w: Write)
    requires Counted(s, n) && PinsOk(s) && (w == Delete(PinKey(id)) || (w == Set(PinKey(id), RawV([1])) && CodeKey(id) in s))
    ensures Counted(ApplyOne(s, w), n) && PinsOk(ApplyOne(s, w)) && NextInstance(ApplyOne(s, w)) == NextInstance(s)
    ensures forall j: u64 :: CodeKey(j) in s <==> CodeKey(j) in ApplyOne(s, w)
  {
    var s' := ApplyOne(s, w);
    TagsApart(id, id);
    forall j: u64 ensures (CodeKey(j) in s <==> CodeKey(j) in s') && (PinKey(j) in s' ==> CodeKey(j) in s') {
      TagsApart(id, j);
      TagsApart(j, id);
    }
    forall j: u64 | CodeKey(j) in s' || j == 0 ensures j < NextCode(s') { assert CodeKey(j) in s <==> CodeKey(j) in s'; }
  }

  lemma PinShape(h: Host, s: Store, req: Request)
    requires req.Pin? || req.Unpin?
    ensures var l := DoPin(h, s, req);
            Went(l) ==> l.writes == PinWrites(req.codeIDs, req.Pin?) && forall i :: 0 <= i < |req.codeIDs| ==> CodeKey(req.codeIDs[i]) in s
  {}

  lemma PinKeeps(h: Host, s: Store, n: nat, req: Request)
    requires Book(s, n) && (req.Pin? || req.Unpin?)
    ensures StepKeeps(s, n, DoPin(h, s, req))
  {
    PinShape(h, s, req);
    if Went(DoPin(h, s, req)) {
      PinWritesKeep(s, n, req.codeIDs, req.Pin?);
      BookGrows(Apply(s, PinWrites(req.codeIDs, req.Pin?)), n, n + 1);
    }
  }

  // ---------------------------------------------------------------- contract records

  /** Only contract records, histories and indexes changed. */
  ghost predicate OnlyRegistry(s: Store, s': Store) {
    forall k :: !Registered(k) ==> SameAt(s, s', k)
  }

  lemma {:induction false} RegistryWritesOnly(s: Store, ws: seq<Write>)
    requires forall i :: 0 <= i < |ws| ==> Registered(ws[i].key)
    ensures OnlyRegistry(s, Apply(s, ws))
    decreases |ws|
  {
    if ws != [] {
      var s' := ApplyOne(s, ws[0]);
      RegistryWritesOnly(s', ws[1..]);
      forall k | !Registered(k) ensures SameAt(s, Apply(s, ws), k) { assert SameAt(s, s', k) && SameAt(s', Apply(s', ws[1..]), k); }
    }
  }

  lemma OnlyRegistryCounters(s: Store, s': Store, n: nat, n': nat)
    requires OnlyRegistry(s, s') && n <= n' && Counted(s, n) && PinsOk(s)
    ensures Counted(s', n') && PinsOk(s') && NextInstance(s') == NextInstance(s) && CodesGrow(s, s')
  {
    assert SameAt(s, s', KeySequenceCodeID) && SameAt(s, s', KeySequenceInstanceID);
    forall id: u64 ensures SameAt(s, s', CodeKey(id)) && SameAt(s, s', PinKey(id)) {
      assert CodeKey(id)[0] == 1 && PinKey(id)[0] == 7;
    }
    forall id: u64 | CodeKey(id) in s' || id == 0 ensures id < NextCode(s') { assert SameAt(s, s', CodeKey(id)); }
  }

  /** The ledger after the registry entries of one contract changed. */
  lemma LedgerAround(s: Store, s': Store, n: nat, n': nat, a: Addr, info: ContractInfo, hist: seq<HistoryEntry>)
    requires Ledger(s, n) && n <= n' && OnlyRegistry(s, s') && Agreement(s') && OthersAgree(s, s', a)
    requires Tells(s', a, info, hist) && |hist| <= n' && |a| == 32
    ensures Ledger(s', n')
    ensures forall b: Addr :: ContractKey(b) in s ==> ContractKey(b) in s'
  {
    OnlyRegistryCounters(s, s', n, n');
    ContractsAround(s, s', n, n', a);
    forall b: Addr | ContractKey(b) in s ensures ContractKey(b) in s' {
      if b != a { assert AgreeFor(s, s', b); }
    }
  }

  lemma StateStays(s: Store, s': Store, s'': Store, home: Option<Addr>)
    requires StateAtHome(s, s', home) && OnlyRegistry(s', s'')
    ensures StateAtHome(s, s'', home)
  {
    forall k | k in s'' ensures AtHome(s, home, k) {
      if |k| > 0 && k[0] == 0x03 {
        assert SameAt(s', s'', k);
        assert AtHome(s, home, k);
      }
    }
  }

  /** The registry entries of one contract changed, and nothing else. */
  ghost function Around(s: Store, a: Addr): (around: (Store, ContractInfo, seq<HistoryEntry>) -> bool) {
    (s': Store, info: ContractInfo, hist: seq<HistoryEntry>) =>
      OnlyRegistry(s, s') && Agreement(s') && OthersAgree(s, s', a) && Tells(s', a, info, hist)
  }

  lemma BookAround(s: Store, s': Store, n: nat, n': nat, a: Addr, info: ContractInfo, hist: seq<HistoryEntry>)
    requires Book(s, n) && n <= n' && Around(s, a)(s', info, hist) && |hist| <= n' && ContractKey(a) in s
    ensures Book(s', n')
  {
    assert ContractOk(s, n, a);
    LedgerAround(s, s', n, n', a, info, hist);
    StateStays(s, s, s', None);
    HousedAfter(s, s', None);
  }

  lemma UpdateContractKeeps(h: Host, s: Store, n: nat, ctx: Ctx, req: Request)
    requires Book(s, n) && (req.SetAdmin? || req.SetLabel?)
    ensures StepKeeps(s, n, DoUpdateContract(h, s, ctx, req))
  {
    var l := DoUpdateContract(h, s, ctx, req);
    if Went(l) {
      OneWrite(s, l.writes[0]);
      RecordKeeps(s, n, req.contract, GetContract(s, req.contract).value, l.writes[0].value.contract);
    }
  }

  lemma RecordKeeps(s: Store, n: nat, a: Addr, held: ContractInfo, info: ContractInfo)
    requires Book(s, n) && ContractKey(a) in s && s[ContractKey(a)] == ContractV(held)
    requires info.codeID == held.codeID && info.creator == held.creator
    ensures Book(s[ContractKey(a) := ContractV(info)], n + 1)
  {
    assert ContractOk(s, n, a);
    RewriteIsAround(s, a, held, info);
    BookAround(s, s[ContractKey(a) := ContractV(info)], n, n + 1, a, info, HistoryOf(s, a));
  }

  lemma RewriteIsAround(s: Store, a: Addr, held: ContractInfo, info: ContractInfo)
    requires Agreement(s) && ContractKey(a) in s && s[ContractKey(a)] == ContractV(held) && TypedHistory(s)
    requires info.codeID == held.codeID && info.creator == held.creator
    ensures Around(s, a)(s[ContractKey(a) := ContractV(info)], info, HistoryOf(s, a))
  {
    RewriteKeepsAgreement(s, a, held, info);
    assert Registered(ContractKey(a));
  }

  lemma MigrationOnly(s: Store, a: Addr, last: HistoryEntry, info: ContractInfo, e: HistoryEntry)
    ensures OnlyRegistry(s, Apply(s, MigrationWrites(s, a, last, info, e)))
  {
    MigrationKeys(s, a, last, info, e);
    RegistryWritesOnly(s, MigrationWrites(s, a, last, info, e));
  }

  lemma MigrationKeys(s: Store, a: Addr, last: HistoryEntry, info: ContractInfo, e: HistoryEntry)
    ensures var ws := MigrationWrites(s, a, last, info, e); forall i :: 0 <= i < |ws| ==> Registered(ws[i].key)
  {
    var p := NextPosition(LastPosition(s, a));
    MigrationList(s, a, last, info, e);
    RegistryTags(a, last.codeID, last.updated, p, [0]);
    RegistryTags(a, e.codeID, e.updated, p, [0]);
  }

  /** The index and history updates of a migration, in a store where the book holds. */
  lemma MoveKeepsBook(s: Store, n: nat, a: Addr, held: ContractInfo, info: ContractInfo, e: HistoryEntry, last: HistoryEntry)
    requires Book(s, n) && n < MAX_U64 && GetContract(s, a) == Some(held) && LastEntry(s, a) == Some(last)
    requires CodeKey(info.codeID) in s && info.codeID == e.codeID && info.creator == held.creator
    ensures Book(Apply(s, MigrationWrites(s, a, last, info, e)), n + 1)
  {
    assert ContractOk(s, n, a);
    MoveIsAround(s, n, a, held, info, e, last);
    BookAround(s, Apply(s, MigrationWrites(s, a, last, info, e)), n, n + 1, a, info, HistoryOf(s, a) + [e]);
  }

  lemma MoveIsAround(s: Store, n: nat, a: Addr, held: ContractInfo, info: ContractInfo, e: HistoryEntry, last: HistoryEntry)
    requires Agreement(s) && n < MAX_U64 && GetContract(s, a) == Some(held) && LastEntry(s, a) == Some(last)
    requires TypedHistory(s) && |HistoryOf(s, a)| <= n
    requires CodeKey(info.codeID) in s && info.codeID == e.codeID && info.creator == held.creator
    ensures Around(s, a)(Apply(s, MigrationWrites(s, a, last, info, e)), info, HistoryOf(s, a) + [e])
  {
    MigrationKeepsAgreement(s, a, held, info, e);
    MigrationOnly(s, a, last, info, e);
  }

  /** The writes of a migration that went through: those of the contract, if it ran, then the records. */
  lemma MigrationShape(h: Host, s: Store, m: Meter, ctx: Ctx, req: Request, policy: Policy, hash: bytes, info: ContractInfo, call: bool)
    returns (ran: seq<Write>, last: HistoryEntry)
    requires req.Migrate? && Went(RunMigration(h, s, m, ctx, req, policy, hash, info, call))
    ensures AllQuiet(Some(req.contract), ran) && LastEntry(Apply(s, ran), req.contract) == Some(last)
    ensures RunMigration(h, s, m, ctx, req, policy, hash, info, call).writes
         == ran + MigrationWrites(Apply(s, ran), req.contract, last, info.(codeID := req.codeID),
                                  HistoryEntry(MigrateOp, req.codeID, ctx.position, req.payload))
  {
    if call {
      var i := InvokeVM(h, s, m, Setup(h, s, req.codeID, |req.payload|), hash, req.contract, req);
      InvokedQuietly(h, s, m, Setup(h, s, req.codeID, |req.payload|), hash, req.contract, req);
      FinishedShape(s, i.writes, i.charges, i.outcome, req.contract, info.(codeID := req.codeID),
                    HistoryEntry(MigrateOp, req.codeID, ctx.position, req.payload), ContractEvent(h, "migrate", req.contract), policy);
      ran, last := i.writes, LastEntry(Apply(s, i.writes), req.contract).value;
    } else {
      ran, last := [], LastEntry(s, req.contract).value;
    }
  }

  lemma FinishedShape(s: Store, ran: seq<Write>, charges: seq<Charge>, outcome: VMOutcome, a: Addr, after: ContractInfo,
                      e: HistoryEntry, event: Event, policy: Policy)
    requires Went(FinishMigration(s, ran, charges, outcome, a, after, e, event, policy))
    ensures LastEntry(Apply(s, ran), a).Some?
    ensures FinishMigration(s, ran, charges, outcome, a, after, e, event, policy).writes
         == ran + MigrationWrites(Apply(s, ran), a, LastEntry(Apply(s, ran), a).value, after, e)
  {}

  lemma RunMigrationKeeps(h: Host, s: Store, n: nat, m: Meter, ctx: Ctx, req: Request, policy: Policy, hash: bytes, held: ContractInfo, info: ContractInfo, call: bool)
    requires Book(s, n) && n < MAX_U64 && req.Migrate?
    requires GetContract(s, req.contract) == Some(held) && info.creator == held.creator && GetCode(s, req.codeID).Some?
    ensures StepKeeps(s, n, RunMigration(h, s, m, ctx, req, policy, hash, info, call))
  {
    if Went(RunMigration(h, s, m, ctx, req, policy, hash, info, call)) {
      var ran, last := MigrationShape(h, s, m, ctx, req, policy, hash, info, call);
      RanThenMoved(s, n, req.contract, ran, held, info.(codeID := req.codeID),
                   HistoryEntry(MigrateOp, req.codeID, ctx.position, req.payload), last);
    }
  }

  lemma RanThenMoved(s: Store, n: nat, a: Addr, ran: seq<Write>, held: ContractInfo, info: ContractInfo, e: HistoryEntry, last: HistoryEntry)
    requires Book(s, n) && n < MAX_U64 && AllQuiet(Some(a), ran) && GetContract(s, a) == Some(held)
    requires CodeKey(info.codeID) in s && info.codeID == e.codeID && info.creator == held.creator
    requires LastEntry(Apply(s, ran), a) == Some(last)
    ensures Book(Apply(s, ran + MigrationWrites(Apply(s, ran), a, last, info, e)), n + 1)
  {
    var s' := Apply(s, ran);
    QuietKeepsBook(s, Some(a), ran, n, n);
    SameAfterQuiet(s, a, ran, info.codeID);
    ApplyConcat(s, ran, MigrationWrites(s', a, last, info, e));
    MoveKeepsBook(s', n, a, held, info, e, last);
  }

  lemma SameAfterQuiet(s: Store, a: Addr, ran: seq<Write>, id: u64)
    requires AllQuiet(Some(a), ran)
    ensures SameAt(s, Apply(s, ran), ContractKey(a)) && SameAt(s, Apply(s, ran), CodeKey(id))
  {
    QuietUndisturbed(s, Some(a), ran);
    LoudKeys(id, a);
  }

  lemma MigrateKeeps(h: Host, s: Store, n: nat, m: Meter, ctx: Ctx, req: Request)
    requires Book(s, n) && n < MAX_U64 && req.Migrate?
    ensures StepKeeps(s, n, DoMigrate(h, s, m, ctx, req))
  {
    var l := DoMigrate(h, s, m, ctx, req);
    if Went(l) {
      var held := GetContract(s, req.contract).value;
      var policy := SelectPolicy(h.authority, h.propagate, ctx.policy, req.sender);
      var code := GetCode(s, req.codeID).value;
      var report := h.analyze(code.hash).value;
      var oldReport := h.analyze(GetCode(s, held.codeID).value.hash).value;
      var port := if report.hasIBC && held.ibcPort == [] then h.port(req.contract) else held.ibcPort;
      RunMigrationKeeps(h, s, n, m, ctx, req, policy, code.hash, held, held.(ibcPort := port, ibc2Port := h.port2(req.contract)),
                        report.migrateVersion.None? || report.migrateVersion != oldReport.migrateVersion);
    }
  }

  // ---------------------------------------------------------------- new contracts

  /** Contract and code records are the same in both stores. */
  ghost predicate SameRecords(s: Store, s': Store) {
    (forall b: Addr :: SameAt(s, s', ContractKey(b))) && (forall id: u64 :: SameAt(s, s', CodeKey(id)))
  }

  /** Reserving an address keeps the book and all records. */
  ghost predicate Reserved(s: Store, s': Store, n: nat) {
    Book(s', n) && SameRecords(s, s')
  }

  lemma ReserveKeeps(h: Host, s: Store, n: nat, req: Request, hash: bytes)
    requires Book(s, n) && n < MAX_U64 && req.Instantiate? && NewAddress(h, s, req, hash).Some?
    ensures Reserved(s, Apply(s, NewAddress(h, s, req, hash).value.1), n + 1)
  {
    if req.generator.Classic? { ClassicReserved(s, n); } else { BookGrows(s, n, n + 1); }
  }

  lemma ClassicReserved(s: Store, n: nat)
    requires Book(s, n) && n < MAX_U64
    ensures Reserved(s, Apply(s, [Advance(s, KeySequenceInstanceID)]), n + 1)
  {
    OneWrite(s, Advance(s, KeySequenceInstanceID));
    InstanceKeeps(s, n);
    InstanceFacts(s, n);
  }

  lemma InstanceKeeps(s: Store, n: nat)
    requires Book(s, n) && n < MAX_U64
    ensures Book(ApplyOne(s, Advance(s, KeySequenceInstanceID)), n + 1)
  {
    InstanceFacts(s, n);
    AsideKeeps(s, ApplyOne(s, Advance(s, KeySequenceInstanceID)), n, n + 1);
  }

  lemma InstanceFacts(s: Store, n: nat)
    requires Shapes(s) && Counted(s, n) && PinsOk(s) && n < MAX_U64
    ensures var s' := ApplyOne(s, Advance(s, KeySequenceInstanceID));
            && Aside(s, s') && Shapes(s') && Counted(s', n + 1) && PinsOk(s') && NextInstance(s') == NextInstance(s) + 1
            && SameRecords(s, s')
  {
    var s' := ApplyOne(s, Advance(s, KeySequenceInstanceID));
    OneAside(s, Advance(s, KeySequenceInstanceID));
    Advanced(s, KeySequenceInstanceID);
    TagsApart(0, 0);
    forall id: u64 ensures SameAt(s, s', CodeKey(id)) && SameAt(s, s', PinKey(id)) { TagsApart(id, id); }
    forall b: Addr ensures SameAt(s, s', ContractKey(b)) { assert Registered(ContractKey(b)); }
  }

  lemma PersistOnly(s: Store, a: Addr, info: ContractInfo, payload: bytes)
    ensures OnlyRegistry(s, Apply(s, PersistWrites(s, a, info, payload)))
  {
    PersistList(s, a, info, payload);
    RegistryTags(a, info.codeID, info.created, NextPosition(LastPosition(s, a)), info.creator);
    RegistryWritesOnly(s, PersistWrites(s, a, info, payload));
  }

  /** From a store where the address is reserved: quiet writes of the new contract, then its records. */
  lemma PersistKeepsBook(s: Store, n: nat, a: Addr, ran: seq<Write>, info: ContractInfo, payload: bytes)
    requires Book(s, n) && n > 0 && AllQuiet(Some(a), ran) && ContractKey(a) !in s && CodeKey(info.codeID) in s
    requires |a| == 32
    ensures var s' := Apply(s, ran); Book(Apply(s', PersistWrites(s', a, info, payload)), n)
  {
    var s1 := Apply(s, ran);
    QuietLedger(s, n, a, ran, info.codeID);
    RecordsKeepLedger(s1, n, a, info, payload);
    var s2 := Apply(s1, PersistWrites(s1, a, info, payload));
    StateStays(s, s1, s2, Some(a));
    HousedAfter(s, s2, Some(a));
  }

  lemma QuietLedger(s: Store, n: nat, a: Addr, ran: seq<Write>, id: u64)
    requires Ledger(s, n) && AllQuiet(Some(a), ran)
    ensures var s' := Apply(s, ran);
            && Ledger(s', n) && StateAtHome(s, s', Some(a)) && NextInstance(s') == NextInstance(s)
            && SameAt(s, s', ContractKey(a)) && SameAt(s, s', CodeKey(id))
            && (forall b: Addr :: ContractKey(b) in s ==> ContractKey(b) in s')
  {
    var s' := Apply(s, ran);
    QuietUndisturbed(s, Some(a), ran);
    LoudKeepsLedger(s, s', n, n);
    LoudCounters(s, s', n, n);
    ContractsSurvive(s, s');
    LoudKeys(id, a);
  }

  lemma RecordsKeepLedger(s: Store, n: nat, a: Addr, info: ContractInfo, payload: bytes)
    requires Ledger(s, n) && n > 0 && ContractKey(a) !in s && CodeKey(info.codeID) in s
    requires |a| == 32
    ensures var s' := Apply(s, PersistWrites(s, a, info, payload));
            && Ledger(s', n) && OnlyRegistry(s, s') && ContractKey(a) in s'
            && (forall b: Addr :: ContractKey(b) in s ==> ContractKey(b) in s')
  {
    PersistKeepsAgreement(s, a, info, payload);
    PersistOnly(s, a, info, payload);
    LedgerAround(s, Apply(s, PersistWrites(s, a, info, payload)), n, n, a, info, [HistoryEntry(InitOp, info.codeID, info.created, payload)]);
  }

  lemma EndowedQuietly(h: Host, s: Store, req: Request, a: Addr)
    requires req.Instantiate? && Endow(h, s, req, a).Success?
    ensures AllQuiet(Some(a), Endow(h, s, req, a).value)
  {
    var claimed := h.claim(s, a).value;
    ForeignWritesQuiet(Some(a), claimed);
    if req.funds != map[] {
      ForeignWritesQuiet(Some(a), h.transfer(Apply(s, ForeignWrites(claimed)), req.sender, a, req.funds).value);
    }
  }

  lemma FourParts(s: Store, r: seq<Write>, e: seq<Write>, w: seq<Write>, p: seq<Write>)
    ensures Apply(s, r + e + w) == Apply(Apply(s, r), e + w)
    ensures Apply(s, r + e + w + p) == Apply(Apply(Apply(s, r), e + w), p)
  {
    Assoc(r, e, w);
    ApplyConcat(s, r, e + w);
    ApplyConcat(s, r + e + w, p);
  }

  /** The writes of a successful set-up: quiet ones in the reserved store, then the records. */
  lemma SetUpShape(h: Host, s: Store, m: Meter, ctx: Ctx, req: Request, policy: Policy, hash: bytes, setup: u64, a: Addr, reserve: seq<Write>)
    returns (e: seq<Write>, w: seq<Write>, info: ContractInfo)
    requires req.Instantiate? && req.sender != [] && Went(SetUpContract(h, s, m, ctx, req, policy, hash, setup, a, reserve))
    ensures AllQuiet(Some(a), e) && AllQuiet(Some(a), w) && info.codeID == req.codeID
    ensures SetUpContract(h, s, m, ctx, req, policy, hash, setup, a, reserve).writes
         == reserve + e + w + PersistWrites(Apply(s, reserve + e + w), a, info, req.payload)
  {
    e := Endow(h, Apply(s, reserve), req, a).value;
    w := InvokeVM(h, Apply(s, reserve + e), m, setup, hash, a, req).writes;
    info := ContractInfo(req.codeID, req.sender, req.admin, req.title, ctx.position,
                         if h.analyze(hash).value.hasIBC then h.port(a) else [], h.port2(a));
    EndowedQuietly(h, Apply(s, reserve), req, a);
    InvokedQuietly(h, Apply(s, reserve + e), m, setup, hash, a, req);
  }

  lemma SetUpStore(h: Host, s: Store, m: Meter, ctx: Ctx, req: Request, policy: Policy, hash: bytes, setup: u64, a: Addr, reserve: seq<Write>)
    returns (ran: seq<Write>, info: ContractInfo)
    requires req.Instantiate? && req.sender != [] && Went(SetUpContract(h, s, m, ctx, req, policy, hash, setup, a, reserve))
    ensures AllQuiet(Some(a), ran) && info.codeID == req.codeID
    ensures var s1 := Apply(Apply(s, reserve), ran);
            Apply(s, SetUpContract(h, s, m, ctx, req, policy, hash, setup, a, reserve).writes) == Apply(s1, PersistWrites(s1, a, info, req.payload))
  {
    var e, w, info' := SetUpShape(h, s, m, ctx, req, policy, hash, setup, a, reserve);
    FourParts(s, reserve, e, w, PersistWrites(Apply(s, reserve + e + w), a, info', req.payload));
    ran, info := e + w, info';
  }

  lemma SetUpKeeps(h: Host, s: Store, n: nat, m: Meter, ctx: Ctx, req: Request, policy: Policy, hash: bytes, setup: u64, a: Addr, reserve: seq<Write>)
    requires req.Instantiate? && req.sender != [] && n > 0 && Book(Apply(s, reserve), n)
    requires |a| == 32
    requires ContractKey(a) !in Apply(s, reserve) && CodeKey(req.codeID) in Apply(s, reserve)
    ensures var l := SetUpContract(h, s, m, ctx, req, policy, hash, setup, a, reserve); Went(l) ==> Book(Apply(s, l.writes), n)
  {
    if Went(SetUpContract(h, s, m, ctx, req, policy, hash, setup, a, reserve)) {
      var ran, info := SetUpStore(h, s, m, ctx, req, policy, hash, setup, a, reserve);
      PersistKeepsBook(Apply(s, reserve), n, a, ran, info, req.payload);
    }
  }

  lemma InstantiateKeeps(h: Host, s: Store, n: nat, m: Meter, ctx: Ctx, req: Request)
    requires Book(s, n) && n < MAX_U64 && req.Instantiate?
    ensures StepKeeps(s, n, DoInstantiate(h, s, m, ctx, req))
  {
    var l := DoInstantiate(h, s, m, ctx, req);
    if Went(l) {
      var code := GetCode(s, req.codeID).value;
      var (a, reserve) := NewAddress(h, s, req, code.hash).value;
      var policy := SelectPolicy(h.authority, h.propagate, ctx.policy, req.sender);
      ReserveKeeps(h, s, n, req, code.hash);
      assert SameAt(s, Apply(s, reserve), ContractKey(a)) && SameAt(s, Apply(s, reserve), CodeKey(req.codeID));
      SetUpKeeps(h, s, n + 1, m, ctx, req, policy, code.hash, Setup(h, s, req.codeID, |req.payload|), a, reserve);
    }
  }

  // ---------------------------------------------------------------- all calls, all runs

  lemma LeafStepKeeps(h: Host, s: Store, n: nat, m: Meter, ctx: Ctx, req: Request)
    requires Book(s, n) && n < MAX_U64
    ensures StepKeeps(s, n, Leaf(h, s, m, ctx, req))
  {
    match req
    case StoreCode(_, _, _) => StoreCodeKeeps(h, s, n, m, ctx, req);
    case Instantiate(_, _, _, _, _, _, _) => InstantiateKeeps(h, s, n, m, ctx, req);
    case Execute(_, _, _, _) => ExecuteKeeps(h, s, n, m, ctx, req);
    case Migrate(_, _, _, _) => MigrateKeeps(h, s, n, m, ctx, req);
    case SetAdmin(_, _, _) => UpdateContractKeeps(h, s, n, ctx, req);
    case SetLabel(_, _, _) => UpdateContractKeeps(h, s, n, ctx, req);
    case SetAccess(_, _, _) => SetAccessKeeps(h, s, n, ctx, req);
    case Pin(_, _) => PinKeeps(h, s, n, req);
    case Unpin(_, _) => PinKeeps(h, s, n, req);
    case Sudo(sender, a, payload) =>
      CallContractKeeps(h, s, n, m, ctx, req, a,
                        Some(if GetContract(s, a).Some? then Setup(h, s, GetContract(s, a).value.codeID, |payload|) else 0), [], "sudo");
    case AckPacket(_, _, _, _) => AckPacketKeeps(h, s, n, req);
    case IbcSend(_, _, _) => NativeKeeps(h, s, n, req);
    case Native(_) => NativeKeeps(h, s, n, req);
    case Reply(a, _, result, _) =>
      CallContractKeeps(h, s, n, m, ctx, req, a, GasRegister.ReplyCosts(h.register, true, result), [], "reply");
    case Receive(a, packet) =>
      CallContractKeeps(h, s, n, m, ctx, req, a,
                        Some(if GetContract(s, a).Some? then Setup(h, s, GetContract(s, a).value.codeID, |packet.data|) else 0), [], "receive");
    case Unsigned =>
  }

  /** The book, until the 64-bit counters could wrap. */
  ghost predicate BookBy(n: nat, s: Store) {
    n < MAX_U64 ==> Book(s, n)
  }

  ghost function BookClaim(base: nat): (p: Claim) {
    Claim((s: Store, t: nat) => BookBy(base + t, s), _ => true, _ => true, _ => true, (_, _) => true, 0)
  }

  lemma StepBy(h: Host, n: nat, s: Store, m: Meter, ctx: Ctx, req: Request)
    requires BookBy(n, s)
    ensures var l := Leaf(h, s, m, ctx, req); Went(l) ==> BookBy(n + 1, Apply(s, l.writes))
  {
    if n + 1 < MAX_U64 { LeafStepKeeps(h, s, n, m, ctx, req); }
  }

  lemma BookByLater(n: nat, n': nat, s: Store)
    requires BookBy(n, s) && n <= n'
    ensures BookBy(n', s)
  {
    if n' < MAX_U64 { BookGrows(s, n, n'); }
  }

  lemma BookLeaves(h: Host, base: nat)
    ensures forall s, t, m, ctx, req :: BookClaim(base).store(s, t) ==> LeafKeeps(KeeperEnv(h), BookClaim(base), s, t, m, ctx, req)
  {
    var env, p := KeeperEnv(h), BookClaim(base);
    forall s, t: nat, m, ctx, req | p.store(s, t) ensures LeafKeeps(env, p, s, t, m, ctx, req) {
      StepBy(h, base + t, s, m, ctx, req);
      assert base + t + 1 == base + (t + 1);
    }
  }

  lemma BookIsInductive(h: Host, base: nat)
    ensures Inductive(KeeperEnv(h), BookClaim(base))
  {
    var env, p := KeeperEnv(h), BookClaim(base);
    BookLeaves(h, base);
    forall s, t: nat, t': nat | p.store(s, t) && t <= t' ensures p.store(s, t') { BookByLater(base + t, base + t', s); }
  }

  /**
   * Over every run of transactions the book holds at the end and at every single call, whatever
   * contracts and other modules do, as long as fewer than 2^64 calls were made.
   */
  lemma RunsKeepBook(h: Host, base: nat, w: World, txs: seq<Tx>)
    requires w.journal == [] && BookClaim(base).store(w.store, w.tick)
    ensures var w' := Chain(KeeperEnv(h), w, txs);
            BookClaim(base).store(w'.store, w'.tick) && CallsHold(KeeperEnv(h), BookClaim(base), w'.journal)
  {
    BookIsInductive(h, base);
    ChainKeeps(KeeperEnv(h), BookClaim(base), w, txs);
  }

  /** Runs may start from a store with nothing but parameters, where code can be stored. */
  lemma FreshStoreHasBook(params: Params)
    ensures Book(map[ParamsKey := ParamsV(params)], 1)
  {
    var s: Store := map[];
    forall a: Addr ensures AddressOk(s, a) { assert Absent(s, a); }
    var s' := s[ParamsKey := ParamsV(params)];
    assert s' == map[ParamsKey := ParamsV(params)] && ParamsKey[0] == 0x10;
    UndisturbedKeepsBook(s, s', None, 1, 1);
  }
}
