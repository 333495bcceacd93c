/**
 * The keeper's updates of its store, step by step as they happen: every method leaves the
 * store as the write list or import function of the same operation says.
 */
module KeeperStore {
  import opened Base
  import opened Types
  import opened Keys
  import opened OrderedStore
  import opened History
  import opened Registry
  import opened RegistrySteps
  import opened KeeperOps
  import opened Books
  import opened BookSteps
  import opened Pinning
  import G = Genesis

  // ---------------------------------------------------------------- codes

  /** mustAutoIncrementID */
  method AutoIncrementID(kv: KVStore, key: bytes) returns (id: u64)
    modifies kv
    ensures id == Peek(old(kv.data), key) && kv.data == ApplyOne(old(kv.data), Advance(old(kv.data), key))
  {
    id := Peek(kv.data, key);
    kv.Set(key, RawV(BE8(NextPosition(id))));
  }

  /** The end of create: a new identifier and the code record under it. */
  method StoreCodeInfo(kv: KVStore, info: CodeInfo) returns (id: u64)
    modifies kv
    ensures id == NextCode(old(kv.data))
    ensures kv.data == Apply(old(kv.data), [Advance(old(kv.data), KeySequenceCodeID), Set(CodeKey(id), CodeV(info))])
  {
    id := AutoIncrementID(kv, KeySequenceCodeID);
    TwoWrites(old(kv.data), Advance(old(kv.data), KeySequenceCodeID), Write.Set(CodeKey(id), CodeV(info)));
    kv.Set(CodeKey(id), CodeV(info));
  }

  // ---------------------------------------------------------------- contracts

  /** Index keys are no history keys, so positions do not move. */
  lemma LastPositionStays(s: Store, s': Store, a: Addr)
    requires forall k :: OwnShape(a, k) ==> (k in s <==> k in s')
    ensures LastPosition(s, a) == LastPosition(s', a)
  {
    var own := set k | k in s && HistoryPrefix(a) <= k && |k| == |HistoryPrefix(a)| + 8;
    var own' := set k | k in s' && HistoryPrefix(a) <= k && |k| == |HistoryPrefix(a)| + 8;
    forall k ensures k in own <==> k in own' { assert OwnShape(a, k) <==> HistoryPrefix(a) <= k && |k| == |HistoryPrefix(a)| + 8; }
    assert own == own';
  }

  lemma NotOwnShape(a: Addr, k: bytes)
    requires |k| > 0 && k[0] != 0x05
    ensures !OwnShape(a, k)
  {
    assert HistoryPrefix(a)[0] == 0x05;
  }

  /** instantiate: both indexes, the first history entry, the record. */
  method PersistContract(kv: KVStore, a: Addr, info: ContractInfo, payload: bytes)
    modifies kv
    ensures kv.data == Apply(old(kv.data), PersistWrites(old(kv.data), a, info, payload))
  {
    ghost var s := kv.data;
    var entry := HistoryEntry(InitOp, info.codeID, info.created, payload);
    var byCode := BuildCodeIndexKey(a, entry);
    kv.Set(byCode[..], RawV([]));
    var byCreator := BuildCreatorIndexKey(info.creator, info.created, a);
    kv.Set(byCreator[..], RawV([]));
    ghost var s2 := kv.data;
    NotOwnShape(a, CodeIndexKey(info.codeID, info.created, a));
    NotOwnShape(a, CreatorIndexKey(info.creator, info.created, a));
    LastPositionStays(s, s2, a);
    AppendToContractHistory(kv, a, [entry]);
    kv.Set(ContractKey(a), ContractV(info));
    PersistList(s, a, info, payload);
    PersistInOrder(s, s2, a, info, entry);
  }

  lemma PersistInOrder(s: Store, s2: Store, a: Addr, info: ContractInfo, e: HistoryEntry)
    requires LastPosition(s2, a) == LastPosition(s, a)
    requires s2 == s[CodeIndexKey(info.codeID, info.created, a) := RawV([])][CreatorIndexKey(info.creator, info.created, a) := RawV([])]
    ensures Appended(s2, a, [e])[ContractKey(a) := ContractV(info)]
         == Apply(s, NewContractWrites(a, NextPosition(LastPosition(s, a)), info, e))
  {
    var n := NextPosition(LastPosition(s, a));
    OneHistoryWrite(a, LastPosition(s, a), e);
    OneWrite(s2, Set(HistoryKey(a, n), EntryV(e)));
    var ws := NewContractWrites(a, n, info, e);
    FourWrites(s, ws[0], ws[1], ws[2], ws[3]);
  }

  /** migrate: the old index key goes, history and index get the new entry, the record is replaced. */
  method MoveContract(kv: KVStore, a: Addr, info: ContractInfo, entry: HistoryEntry) returns (ok: bool)
    requires TypedHistory(kv.data)
    modifies kv
    ensures ok <==> LastEntry(old(kv.data), a).Some?
    ensures ok ==> kv.data == Apply(old(kv.data), MigrationWrites(old(kv.data), a, LastEntry(old(kv.data), a).value, info, entry))
    ensures !ok ==> kv.data == old(kv.data)
  {
    var last := LastHistoryEntry(kv, a);
    if last.None? { return false; }
    MoveIndexAndRecord(kv, a, last.value, info, entry);
    ok := true;
  }

  method MoveIndexAndRecord(kv: KVStore, a: Addr, last: HistoryEntry, info: ContractInfo, entry: HistoryEntry)
    modifies kv
    ensures kv.data == Apply(old(kv.data), MigrationWrites(old(kv.data), a, last, info, entry))
  {
    ghost var s := kv.data;
    var before := BuildCodeIndexKey(a, last);
    kv.Delete(before[..]);
    ghost var s1 := kv.data;
    NotOwnShape(a, CodeIndexKey(last.codeID, last.updated, a));
    LastPositionStays(s, s1, a);
    AppendToContractHistory(kv, a, [entry]);
    var after := BuildCodeIndexKey(a, entry);
    kv.Set(after[..], RawV([]));
    kv.Set(ContractKey(a), ContractV(info));
    MigrationList(s, a, last, info, entry);
    MoveInOrder(s, s1, a, last, info, entry);
  }

  lemma MoveInOrder(s: Store, s1: Store, a: Addr, last: HistoryEntry, info: ContractInfo, e: HistoryEntry)
    requires LastPosition(s1, a) == LastPosition(s, a) && s1 == s - {CodeIndexKey(last.codeID, last.updated, a)}
    ensures Appended(s1, a, [e])[CodeIndexKey(e.codeID, e.updated, a) := RawV([])][ContractKey(a) := ContractV(info)]
         == Apply(s, MoveWrites(a, NextPosition(LastPosition(s, a)), last, info, e))
  {
    var n := NextPosition(LastPosition(s, a));
    OneHistoryWrite(a, LastPosition(s, a), e);
    OneWrite(s1, Set(HistoryKey(a, n), EntryV(e)));
    var ws := MoveWrites(a, n, last, info, e);
    FourWrites(s, ws[0], ws[1], ws[2], ws[3]);
  }

  // ---------------------------------------------------------------- packets waiting for their acknowledgement

  /** The WriteAcknowledgement branch of the raw IBC handler; core IBC's verdict is the host's. */
  method WriteAcknowledgement(h: Host, kv: KVStore, port: PortId, channel: ChannelId, sequence: u64, ack: bytes) returns (r: Result<(), Error>)
    modifies kv
    ensures var l := DoAckPacket(h, old(kv.data), AckPacket(port, channel, sequence, ack));
            && (r.Success? <==> l.end.Done?) && (r.Failure? ==> l == Failed(r.error))
            && kv.data == Apply(old(kv.data), l.writes)
  {
    var packet := PendingPacket(kv.data, port, channel, sequence);
    if packet.None? { return Failure(ErrInvalid); }
    var refusal := h.writeAck(kv.data, packet.value, ack);
    if refusal.Some? { return Failure(refusal.value); }
    var p := packet.value;
    var acks := AcksOf(kv.data, p.dstPort, p.dstChannel, p.sequence);
    TwoWrites(kv.data, Write.Set(AckKey(p.dstPort, p.dstChannel, p.sequence), AcksV(acks + [(p, ack)])),
              Write.Delete(AsyncKey(port, channel, sequence)));
    kv.Set(AckKey(p.dstPort, p.dstChannel, p.sequence), AcksV(acks + [(p, ack)]));
    kv.Delete(AsyncKey(port, channel, sequence));
    r := Success(());
  }

  // ---------------------------------------------------------------- genesis import

  /** An import method did what the import function says. */
  predicate Follows(r: Result<(), Error>, s: Store, spec: Result<Store, Error>) {
    match r
    case Success(_) => spec == Success(s)
    case Failure(e) => spec == Failure(e)
  }

  /** The same, except that pins without their code in the VM can make a pin fail. */
  predicate Imports(r: Result<(), Error>, s: Store, spec: Result<Store, Error>, ready: bool) {
    Follows(r, s, spec) || (!ready && (r == Failure(ErrNoSuchCode) || r == Failure(ErrSyncPinned)))
  }

  lemma NewCodeShapes(s: Store, id: u64, info: CodeInfo)
    requires Shapes(s)
    ensures Shapes(s[CodeKey(id) := CodeV(info)]) && GetCode(s[CodeKey(id) := CodeV(info)], id) == Some(info)
  {
    assert ShapeOk(CodeKey(id), CodeV(info));
  }

  /** A new code record does not touch the pins. */
  lemma NewCodeReady(s: Store, vm: WasmVM, id: u64, info: CodeInfo)
    requires Ready(s, vm) && CodeKey(id) !in s
    ensures Ready(s[CodeKey(id) := CodeV(info)], vm)
  {
    var s' := s[CodeKey(id) := CodeV(info)];
    forall j: u64 | IsPinned(s', j) ensures IsPinned(s, j) && GetCode(s', j) == GetCode(s, j) && GetCode(s', j).Some? {
      TagsApart(j, id);
      TagsApart(id, j);
    }
    forall x | x in PinnedHashes(s') ensures x in vm.codes {
      PinnedHash(s', x);
      PinnedHash(s, x);
    }
  }

  method ImportCode(h: Host, kv: KVStore, vm: WasmVM, c: G.GenCode) returns (r: Result<(), Error>)
    requires vm.Valid() && Shapes(kv.data)
    modifies kv, vm
    ensures vm.Valid() && (r.Success? ==> Shapes(kv.data))
    ensures r.Success? && old(Ready(kv.data, vm)) ==> Ready(kv.data, vm)
    ensures Imports(r, kv.data, G.ImportCode(h, vm.checksum, old(kv.data), c), old(Ready(kv.data, vm)))
  {
    ghost var ready := Ready(kv.data, vm);
    var unpacked := h.inflate(c.wasm);
    if unpacked.Corrupt? { return Failure(WasmError(2, "uncompress wasm archive")); }
    var hash := vm.StoreCodeUnchecked(if unpacked.Unpacked? then unpacked.wasm else c.wasm);
    if hash != c.info.hash { return Failure(ErrInvalid); }
    if CodeKey(c.id) in kv.data { return Failure(ErrDuplicate); }
    NewCodeShapes(kv.data, c.id, c.info);
    if ready { NewCodeReady(kv.data, vm, c.id, c.info); }
    kv.Set(CodeKey(c.id), CodeV(c.info));
    if c.pinned {
      ghost var s := kv.data;
      r := PinCode(kv, vm, c.id);
      if r.Success? {
        assert ShapeOk(PinKey(c.id), RawV([1]));
        if ready { PinnedReady(s, kv.data, c.id); }
      }
    } else {
      r := Success(());
    }
  }

  lemma PinnedReady(s: Store, s': Store, id: u64)
    requires s' == Marked(s, id, true) && Shapes(s) && GetCode(s, id).Some? && forall j: u64 :: IsPinned(s, j) ==> GetCode(s, j).Some?
    ensures Shapes(s') && forall j: u64 :: IsPinned(s', j) ==> GetCode(s', j).Some?
  {
    assert ShapeOk(PinKey(id), RawV([1]));
    forall j: u64 | IsPinned(s', j) ensures GetCode(s', j).Some? {
      MarkedCodes(s, id, true, j);
      TagsApart(j, id);
    }
  }

  method ImportCodes(h: Host, kv: KVStore, vm: WasmVM, cs: seq<G.GenCode>) returns (r: Result<(), Error>, maxID: u64)
    requires vm.Valid() && Shapes(kv.data)
    modifies kv, vm
    ensures Imports(r, kv.data, G.ImportCodes(h, vm.checksum, old(kv.data), cs), old(Ready(kv.data, vm)))
    ensures r.Success? ==> maxID == G.MaxID(cs, 0)
  {
    maxID := 0;
    ghost var spec, ready := G.ImportCodes(h, vm.checksum, kv.data, cs), Ready(kv.data, vm);
    assert cs[0..] == cs;
    for i := 0 to |cs|
      invariant vm.Valid() && Shapes(kv.data) && (ready ==> Ready(kv.data, vm))
      invariant G.ImportCodes(h, vm.checksum, kv.data, cs[i..]) == spec
      invariant G.MaxID(cs[i..], maxID) == G.MaxID(cs, 0)
    {
      assert cs[i..][0] == cs[i] && cs[i..][1..] == cs[i + 1..];
      r := ImportCode(h, kv, vm, cs[i]);
      if r.Failure? { return; }
      if cs[i].id > maxID { maxID := cs[i].id; }
    }
    assert cs[|cs|..] == [];
    r := Success(());
  }

  method ImportContractState(kv: KVStore, a: Addr, ms: seq<G.Model>) returns (r: Result<(), Error>)
    modifies kv
    ensures Follows(r, kv.data, G.ImportModels(old(kv.data), a, ms))
  {
    ghost var spec := G.ImportModels(kv.data, a, ms);
    assert ms[0..] == ms;
    for i := 0 to |ms|
      invariant G.ImportModels(kv.data, a, ms[i..]) == spec
    {
      assert ms[i..][0] == ms[i] && ms[i..][1..] == ms[i + 1..];
      if StateKey(a, ms[i].key) in kv.data { return Failure(ErrDuplicate); }
      kv.Set(StateKey(a, ms[i].key), RawV(ms[i].value));
    }
    assert ms[|ms|..] == [];
    r := Success(());
  }

  method ImportContract(kv: KVStore, c: G.GenContract) returns (r: Result<(), Error>)
    modifies kv
    ensures Follows(r, kv.data, G.ImportContract(old(kv.data), c))
  {
    if CodeKey(c.info.codeID) !in kv.data { return Failure(ErrNoSuchCode); }
    if ContractKey(c.addr) in kv.data { return Failure(ErrDuplicate); }
    if |c.history| == 0 { return Failure(ErrEmpty); }
    ghost var s := kv.data;
    AppendToContractHistory(kv, c.addr, c.history);
    kv.Set(ContractKey(c.addr), ContractV(c.info));
    var byCode := BuildCodeIndexKey(c.addr, c.history[|c.history| - 1]);
    kv.Set(byCode[..], RawV([]));
    var byCreator := BuildCreatorIndexKey(c.info.creator, c.history[0].updated, c.addr);
    kv.Set(byCreator[..], RawV([]));
    assert kv.data == G.Enrolled(s, c);
    r := ImportContractState(kv, c.addr, c.state);
  }

  method ImportContracts(kv: KVStore, cs: seq<G.GenContract>) returns (r: Result<(), Error>)
    modifies kv
    ensures Follows(r, kv.data, G.ImportContracts(old(kv.data), cs))
  {
    ghost var spec := G.ImportContracts(kv.data, cs);
    assert cs[0..] == cs;
    for i := 0 to |cs|
      invariant G.ImportContracts(kv.data, cs[i..]) == spec
    {
      assert cs[i..][0] == cs[i] && cs[i..][1..] == cs[i + 1..];
      r := ImportContract(kv, cs[i]);
      if r.Failure? { return; }
    }
    assert cs[|cs|..] == [];
    r := Success(());
  }

  method ImportSequences(kv: KVStore, qs: seq<G.Sequence>) returns (r: Result<(), Error>)
    modifies kv
    ensures Follows(r, kv.data, G.ImportSequences(old(kv.data), qs))
  {
    ghost var spec := G.ImportSequences(kv.data, qs);
    assert qs[0..] == qs;
    for i := 0 to |qs|
      invariant G.ImportSequences(kv.data, qs[i..]) == spec
    {
      assert qs[i..][0] == qs[i] && qs[i..][1..] == qs[i + 1..];
      if qs[i].key in kv.data { return Failure(ErrDuplicate); }
      kv.Set(qs[i].key, RawV(BE8(qs[i].value)));
    }
    assert qs[|qs|..] == [];
    r := Success(());
  }

  method InitGenesis(h: Host, kv: KVStore, vm: WasmVM, g: G.GenesisState) returns (r: Result<(), Error>)
    requires vm.Valid() && Shapes(kv.data)
    modifies kv, vm
    ensures Imports(r, kv.data, G.InitGenesis(h, vm.checksum, old(kv.data), g), old(Ready(kv.data[ParamsKey := ParamsV(g.params)], vm)))
  {
    kv.Set(ParamsKey, ParamsV(g.params));
    assert Shapes(kv.data) by { assert ShapeOk(ParamsKey, ParamsV(g.params)); }
    var maxID: u64;
    r, maxID := ImportCodes(h, kv, vm, g.codes);
    if r.Failure? { return; }
    r := ImportContracts(kv, g.contracts);
    if r.Failure? { return; }
    r := ImportSequences(kv, g.sequences);
    if r.Failure? { return; }
    if Peek(kv.data, KeySequenceCodeID) <= maxID { return Failure(ErrInvalid); }
    var next := Peek(kv.data, KeySequenceInstanceID);
    if ContractKey(h.addressOf(ClassicPreimage(next, next))) in kv.data { return Failure(ErrInvalid); }
    r := Success(());
  }

  // ---------------------------------------------------------------- genesis export

  function Onto<T>(done: seq<T>, rest: Option<seq<T>>): (r: Option<seq<T>>) {
    match rest
    case None => None
    case Some(more) => Some(done + more)
  }

  lemma OntoNothing<T>(rest: Option<seq<T>>)
    ensures Onto([], rest) == rest
  {
    if rest.Some? { assert [] + rest.value == rest.value; }
  }

  lemma OntoMore<T>(done: seq<T>, x: T, rest: Option<seq<T>>)
    ensures Onto(done, Onto([x], rest)) == Onto(done + [x], rest)
  {
    if rest.Some? { Assoc(done, [x], rest.value); }
  }

  method ExportCodes(s: Store, codes: map<bytes, bytes>, ks: seq<bytes>) returns (r: Option<seq<G.GenCode>>)
    requires G.CodeKeys(s, ks)
    ensures r == G.ExportCodes(s, codes, ks)
  {
    var done: seq<G.GenCode> := [];
    assert ks[0..] == ks;
    OntoNothing(G.ExportCodes(s, codes, ks));
    for i := 0 to |ks|
      invariant Onto(done, G.ExportCodes(s, codes, ks[i..])) == G.ExportCodes(s, codes, ks)
    {
      assert ks[i..][0] == ks[i] && ks[i..][1..] == ks[i + 1..];
      var id, info := FromBE8(ks[i][1..]), s[ks[i]].code;
      if info.hash !in codes { return None; }
      var code := G.GenCode(id, info, codes[info.hash], IsPinned(s, id));
      OntoMore(done, code, G.ExportCodes(s, codes, ks[i + 1..]));
      done := done + [code];
    }
    assert ks[|ks|..] == [] && done + [] == done;
    r := Some(done);
  }

  method ExportModels(s: Store, n: nat, ks: seq<bytes>) returns (r: seq<G.Model>)
    requires G.StateKeys(s, n, ks)
    ensures r == G.ExportModels(s, n, ks)
  {
    r := [];
    assert ks[0..] == ks;
    for i := 0 to |ks|
      invariant r + G.ExportModels(s, n, ks[i..]) == G.ExportModels(s, n, ks)
    {
      assert ks[i..][0] == ks[i] && ks[i..][1..] == ks[i + 1..];
      var m := G.Model(ks[i][n..], s[ks[i]].raw);
      Assoc(r, [m], G.ExportModels(s, n, ks[i + 1..]));
      r := r + [m];
    }
    assert ks[|ks|..] == [] && r + [] == r;
  }

  method ExportContract(kv: KVStore, k: bytes) returns (c: G.GenContract)
    requires TypedHistory(kv.data) && G.ContractEntry(kv.data, k)
    ensures c == G.ExportContract(kv.data, k)
  {
    var a: Addr := k[1..];
    var state := kv.Iterate(StatePrefix(a));
    var models := ExportModels(kv.data, |k|, state);
    var history := GetContractHistory(kv, a);
    c := G.GenContract(a, kv.data[k].contract, models, history);
  }

  lemma ExportStep(s: Store, ks: seq<bytes>, i: nat, r: seq<G.GenContract>)
    requires TypedHistory(s) && G.ContractKeys(s, ks) && i < |ks|
    ensures G.ContractEntry(s, ks[i])
    ensures r + G.ExportContracts(s, ks[i..]) == (r + [G.ExportContract(s, ks[i])]) + G.ExportContracts(s, ks[i + 1..])
  {
    assert ks[i..][0] == ks[i] && ks[i..][1..] == ks[i + 1..];
    Assoc(r, [G.ExportContract(s, ks[i])], G.ExportContracts(s, ks[i + 1..]));
  }

  method ExportContracts(kv: KVStore, ks: seq<bytes>) returns (r: seq<G.GenContract>)
    requires TypedHistory(kv.data) && G.ContractKeys(kv.data, ks)
    ensures r == G.ExportContracts(kv.data, ks)
  {
    r := [];
    assert ks[0..] == ks;
    for i := 0 to |ks|
      invariant r + G.ExportContracts(kv.data, ks[i..]) == G.ExportContracts(kv.data, ks)
    {
      var c := ExportContract(kv, ks[i]);
      ExportStep(kv.data, ks, i, r);
      r := r + [c];
    }
    assert ks[|ks|..] == [] && r + [] == r;
  }

  /** ExportGenesis; None stands for its panics. */
  method ExportGenesis(kv: KVStore, vm: WasmVM) returns (r: Option<G.GenesisState>)
    requires G.CodeKeys(kv.data, Scan(kv.data, [0x01])) && TypedHistory(kv.data) && G.ContractKeys(kv.data, Scan(kv.data, [0x02]))
    ensures r == G.ExportGenesis(kv.data, vm.codes)
  {
    var params := GetParams(kv.data);
    if params.None? { return None; }
    var ks := kv.Iterate([0x01]);
    var codes := ExportCodes(kv.data, vm.codes, ks);
    if codes.None? { return None; }
    ks := kv.Iterate([0x02]);
    var contracts := ExportContracts(kv, ks);
    r := Some(G.GenesisState(params.value, codes.value, contracts,
                             [G.Sequence(KeySequenceCodeID, Peek(kv.data, KeySequenceCodeID)),
                              G.Sequence(KeySequenceInstanceID, Peek(kv.data, KeySequenceInstanceID))]));
  }
}
