/**
 * Genesis import and export, and why exporting a store and importing the result into an empty
 * one rebuilds it: every key has an owner, a code or a contract, and importing an item adds
 * exactly the keys it owns.
 */
module Genesis {
  import opened Base
  import opened Types
  import opened Keys
  import opened OrderedStore
  import opened History
  import opened Registry
  import opened RegistrySteps
  import opened KeeperOps
  import opened Books
  import opened BookSteps
  import opened Origins
  import Listing

  datatype GenCode = GenCode(id: u64, info: CodeInfo, wasm: bytes, pinned: bool)
  datatype Model = Model(key: bytes, value: bytes)
  datatype GenContract = GenContract(addr: Addr, info: ContractInfo, state: seq<Model>, history: seq<HistoryEntry>)
  datatype Sequence = Sequence(key: bytes, value: u64)
  datatype GenesisState = GenesisState(params: Params, codes: seq<GenCode>, contracts: seq<GenContract>, sequences: seq<Sequence>)

  // ---------------------------------------------------------------- import

  /** importCode and, for a pinned code, PinCode. */
  function ImportCode(h: Host, checksum: bytes -> bytes, s: Store, c: GenCode): (r: Result<Store, Error>) {
    var unpacked := h.inflate(c.wasm);
    if unpacked.Corrupt? then Failure(WasmError(2, "uncompress wasm archive"))
    else if checksum(if unpacked.Unpacked? then unpacked.wasm else c.wasm) != c.info.hash then Failure(ErrInvalid)
    else if CodeKey(c.id) in s then Failure(ErrDuplicate)
    else
      var s' := s[CodeKey(c.id) := CodeV(c.info)];
      Success(if c.pinned then s'[PinKey(c.id) := RawV([1])] else s')
  }

  function ImportCodes(h: Host, checksum: bytes -> bytes, s: Store, cs: seq<GenCode>): (r: Result<Store, Error>)
    decreases |cs|
  {
    if cs == [] then Success(s)
    else
      match ImportCode(h, checksum, s, cs[0])
      case Failure(e) => Failure(e)
      case Success(s') => ImportCodes(h, checksum, s', cs[1..])
  }

  function ImportModels(s: Store, a: Addr, ms: seq<Model>): (r: Result<Store, Error>)
    decreases |ms|
  {
    if ms == [] then Success(s)
    else if StateKey(a, ms[0].key) in s then Failure(ErrDuplicate)
    else ImportModels(s[StateKey(a, ms[0].key) := RawV(ms[0].value)], a, ms[1..])
  }

  /** History, record and both index keys of an imported contract. */
  ghost function Enrolled(s: Store, c: GenContract): (r: Store)
    requires c.history != []
  {
    Recorded(Appended(s, c.addr, c.history), c)
  }

  /** Record and index keys on top of the history. */
  function Recorded(s: Store, c: GenContract): (r: Store)
    requires c.history != []
  {
    s[ContractKey(c.addr) := ContractV(c.info)]
      [CodeIndexKey(c.history[|c.history| - 1].codeID, c.history[|c.history| - 1].updated, c.addr) := RawV([])]
      [CreatorIndexKey(c.info.creator, c.history[0].updated, c.addr) := RawV([])]
  }

  ghost function ImportContract(s: Store, c: GenContract): (r: Result<Store, Error>) {
    if CodeKey(c.info.codeID) !in s then Failure(ErrNoSuchCode)
    else if ContractKey(c.addr) in s then Failure(ErrDuplicate)
    else if c.history == [] then Failure(ErrEmpty)
    else ImportModels(Enrolled(s, c), c.addr, c.state)
  }

  ghost function ImportContracts(s: Store, cs: seq<GenContract>): (r: Result<Store, Error>)
    decreases |cs|
  {
    if cs == [] then Success(s)
    else
      match ImportContract(s, cs[0])
      case Failure(e) => Failure(e)
      case Success(s') => ImportContracts(s', cs[1..])
  }

  function ImportSequences(s: Store, qs: seq<Sequence>): (r: Result<Store, Error>)
    decreases |qs|
  {
    if qs == [] then Success(s)
    else if qs[0].key in s then Failure(ErrDuplicate)
    else ImportSequences(s[qs[0].key := RawV(BE8(qs[0].value))], qs[1..])
  }

  function MaxID(cs: seq<GenCode>, m: u64): (r: u64) {
    if cs == [] then m else MaxID(cs[1..], if cs[0].id > m then cs[0].id else m)
  }

  /** The checks after the import: the code counter is ahead, the next classic address is free. */
  predicate Sane(h: Host, s: Store, maxID: u64) {
    NextCode(s) > maxID && ContractKey(h.addressOf(ClassicPreimage(NextInstance(s), NextInstance(s)))) !in s
  }

  ghost function InitGenesis(h: Host, checksum: bytes -> bytes, s: Store, g: GenesisState): (r: Result<Store, Error>) {
    match ImportCodes(h, checksum, s[ParamsKey := ParamsV(g.params)], g.codes)
    case Failure(e) => Failure(e)
    case Success(s1) =>
      match ImportContracts(s1, g.contracts)
      case Failure(e) => Failure(e)
      case Success(s2) =>
        match ImportSequences(s2, g.sequences)
        case Failure(e) => Failure(e)
        case Success(s3) => if Sane(h, s3, MaxID(g.codes, 0)) then Success(s3) else Failure(ErrInvalid)
  }

  // ---------------------------------------------------------------- export

  /** The codes found along a scan; None is the panic on a code the VM does not hold. */
  function ExportCodes(s: Store, vm: map<bytes, bytes>, ks: seq<bytes>): (r: Option<seq<GenCode>>)
    requires forall i :: 0 <= i < |ks| ==> |ks[i]| == 9 && ks[i] in s && s[ks[i]].CodeV?
  {
    if ks == [] then Some([])
    else
      var id, info := FromBE8(ks[0][1..]), s[ks[0]].code;
      if info.hash !in vm then None
      else
        match ExportCodes(s, vm, ks[1..])
        case None => None
        case Some(rest) => Some([GenCode(id, info, vm[info.hash], IsPinned(s, id))] + rest)
  }

  ghost predicate StateKeys(s: Store, n: nat, ks: seq<bytes>) {
    forall i :: 0 <= i < |ks| ==> n <= |ks[i]| && ks[i] in s && s[ks[i]].RawV?
  }

  ghost function ExportModels(s: Store, n: nat, ks: seq<bytes>): (r: seq<Model>)
    requires StateKeys(s, n, ks)
  {
    if ks == [] then [] else [Model(ks[0][n..], s[ks[0]].raw)] + ExportModels(s, n, ks[1..])
  }

  ghost predicate ContractEntry(s: Store, k: bytes) {
    1 <= |k| <= 256 && k in s && s[k].ContractV? && StateKeys(s, |k|, Scan(s, StatePrefix(k[1..])))
  }

  ghost predicate ContractKeys(s: Store, ks: seq<bytes>) {
    forall i :: 0 <= i < |ks| ==> ContractEntry(s, ks[i])
  }

  ghost function ExportContract(s: Store, k: bytes): (c: GenContract)
    requires TypedHistory(s) && ContractEntry(s, k)
  {
    GenContract(k[1..], s[k].contract, ExportModels(s, |k|, Scan(s, StatePrefix(k[1..]))), HistoryOf(s, k[1..]))
  }

  ghost function ExportContracts(s: Store, ks: seq<bytes>): (r: seq<GenContract>)
    requires TypedHistory(s) && ContractKeys(s, ks)
  {
    if ks == [] then [] else [ExportContract(s, ks[0])] + ExportContracts(s, ks[1..])
  }

  function ExportSequences(s: Store): (r: seq<Sequence>) {
    [Sequence(KeySequenceCodeID, NextCode(s)), Sequence(KeySequenceInstanceID, NextInstance(s))]
  }

  // ---------------------------------------------------------------- owners

  /** The code or contract record a key belongs to; empty for keys that are not exported. */
  function Owner(k: bytes): (r: bytes) {
    if |k| == 0 then []
    else if k[0] == 0x01 || k[0] == 0x02 || k == ParamsKey then k
    else if k[0] == 0x07 then [0x01] + k[1..]
    else if k[0] == 0x03 && |k| > 33 then [0x02] + k[1..33]
    else if k[0] == 0x05 && |k| >= 9 then [0x02] + k[1..|k| - 8]
    else if k[0] == 0x06 && |k| >= 25 then [0x02] + k[25..]
    else if k[0] == 0x09 && |k| >= 2 && |k| - 18 >= k[1] > 0 then [0x02] + k[18 + k[1] as int..]
    else []
  }

  lemma OwnerOfCode(id: u64)
    ensures Owner(CodeKey(id)) == CodeKey(id) && Owner(PinKey(id)) == CodeKey(id)
  {
    assert PinKey(id)[1..] == BE8(id);
  }

  lemma OwnerOfContract(a: Addr, c: u64, p: Position, n: u64)
    ensures Owner(ContractKey(a)) == ContractKey(a) && Owner(HistoryKey(a, n)) == ContractKey(a)
    ensures Owner(CodeIndexKey(c, p, a)) == ContractKey(a)
  {
    assert HistoryKey(a, n)[1..|HistoryKey(a, n)| - 8] == a;
    assert CodeIndexKey(c, p, a)[25..] == a;
  }

  lemma OwnerOfCreated(a: Addr, d: Account, p: Position)
    ensures Owner(CreatorIndexKey(d, p, a)) == ContractKey(a)
  {
    var k := CreatorIndexKey(d, p, a);
    assert k[1] == |d| && k[18 + |d|..] == a;
  }

  /** t holds exactly the keys of s whose owner has been imported. */
  ghost predicate IsPart(s: Store, t: Store, done: set<bytes>) {
    forall k :: if Owner(k) in done then SameAt(s, t, k) else k !in t
  }

  // ---------------------------------------------------------------- importing codes

  lemma OwnedByCode(id: u64, k: bytes)
    requires Owner(k) == CodeKey(id)
    ensures k == CodeKey(id) || k == PinKey(id)
  {
    assert CodeKey(id)[0] == 0x01;
    if k[0] == 0x07 { assert ([0x01] + k[1..])[1..] == k[1..] && CodeKey(id)[1..] == BE8(id); }
  }

  lemma CodePart(s: Store, t: Store, done: set<bytes>, id: u64, info: CodeInfo)
    requires Shapes(s) && IsPart(s, t, done) && CodeKey(id) !in done
    requires CodeKey(id) in s && s[CodeKey(id)] == CodeV(info)
    ensures var t' := t[CodeKey(id) := CodeV(info)];
            IsPart(s, if IsPinned(s, id) then t'[PinKey(id) := RawV([1])] else t', done + {CodeKey(id)})
  {
    var t' := t[CodeKey(id) := CodeV(info)];
    var t'' := if IsPinned(s, id) then t'[PinKey(id) := RawV([1])] else t';
    OwnerOfCode(id);
    if IsPinned(s, id) { assert ShapeOk(PinKey(id), s[PinKey(id)]); }
    forall k ensures if Owner(k) in done + {CodeKey(id)} then SameAt(s, t'', k) else k !in t'' {
      if Owner(k) == CodeKey(id) { OwnedByCode(id, k); }
    }
  }

  ghost predicate CodeKeys(s: Store, ks: seq<bytes>) {
    forall i :: 0 <= i < |ks| ==> |ks[i]| == 9 && ks[i] in s && s[ks[i]].CodeV? && ks[i][0] == 0x01
  }

  /** The VM returns the bytes it stored, under the checksum it stored them, and they are not packed. */
  ghost predicate Faithful(h: Host, checksum: bytes -> bytes, vm: map<bytes, bytes>) {
    forall x :: x in vm ==> checksum(vm[x]) == x && h.inflate(vm[x]).NotGzip?
  }

  lemma KeyOfCode(k: bytes)
    requires |k| == 9 && k[0] == 0x01
    ensures CodeKey(FromBE8(k[1..])) == k
  {
    BE8Onto(k[1..]);
  }

  /** Importing the exported codes one by one adds exactly what they own. */
  lemma {:induction false} CodesRoundTrip(h: Host, checksum: bytes -> bytes, vm: map<bytes, bytes>, s: Store, t: Store, ks: seq<bytes>, done: set<bytes>)
    requires Faithful(h, checksum, vm) && Shapes(s) && CodeKeys(s, ks) && Ascends(ks) && IsPart(s, t, done)
    requires (forall k :: k in ks ==> k !in done) && ExportCodes(s, vm, ks).Some?
    ensures var r := ImportCodes(h, checksum, t, ExportCodes(s, vm, ks).value);
            r.Success? && IsPart(s, r.value, done + set k | k in ks)
    decreases |ks|
  {
    var cs := ExportCodes(s, vm, ks).value;
    if ks == [] {
      assert done + (set k | k in ks) == done;
    } else {
      var id, info := FromBE8(ks[0][1..]), s[ks[0]].code;
      KeyOfCode(ks[0]);
      OwnerOfCode(id);
      assert ks[0] in ks;
      CodePart(s, t, done, id, info);
      var t' := ImportCode(h, checksum, t, cs[0]).value;
      TailDone(ks, done);
      CodesRoundTrip(h, checksum, vm, s, t', ks[1..], done + {ks[0]});
    }
  }

  lemma HeadApart(ks: seq<bytes>)
    requires Ascends(ks) && ks != []
    ensures Ascends(ks[1..]) && ks[0] !in ks[1..] && (forall k :: k in ks <==> k == ks[0] || k in ks[1..])
  {
    forall i | 0 <= i < |ks[1..]| ensures ks[1..][i] != ks[0] {
      assert Before(ks[0], ks[i + 1]);
      BeforeIrreflexive(ks[0]);
    }
  }

  // ---------------------------------------------------------------- importing contracts

  lemma OwnerIs(a: Addr, x: bytes)
    requires [0x02] + x == ContractKey(a)
    ensures x == a
  {
    assert ([0x02] + x)[1..] == x && ContractKey(a)[1..] == a;
  }

  lemma HistoryCase(a: Addr, k: bytes)
    requires Owner(k) == ContractKey(a) && k[0] == 0x05
    ensures k == HistoryKey(a, FromBE8(k[|k| - 8..]))
  {
    OwnerIs(a, k[1..|k| - 8]);
    BE8Onto(k[|k| - 8..]);
    assert k == [0x05] + k[1..|k| - 8] + k[|k| - 8..];
  }

  lemma CodeCase(a: Addr, k: bytes)
    requires Owner(k) == ContractKey(a) && k[0] == 0x06
    ensures k == CodeIndexKey(FromBE8(k[1..9]), Listing.Decoded(k[9..25]), a)
  {
    OwnerIs(a, k[25..]);
    BE8Onto(k[1..9]);
    assert k == [0x06] + k[1..9] + k[9..25] + k[25..];
  }

  lemma CreatorCase(a: Addr, k: bytes)
    requires Owner(k) == ContractKey(a) && k[0] == 0x09
    ensures var n: nat := k[1]; |k| == n + 18 + |a| && k == CreatorIndexKey(k[2..n + 2], Listing.Decoded(k[n + 2..n + 18]), a)
  {
    var n: nat := k[1];
    OwnerIs(a, k[n + 18..]);
    assert k == [0x09, n] + k[2..n + 2] + k[n + 2..n + 18] + k[n + 18..];
  }

  /** The only key of its kind. */
  predicate IndexedAs(t: Store, k: bytes, key: bytes) {
    (k in t <==> k == key) && (k in t ==> t[k] == RawV([]))
  }

  predicate OwnedIndex(a: Addr, k: bytes, tag: byte) {
    |k| > 0 && k[0] == tag && Owner(k) == ContractKey(a)
  }

  /** What the record, the history and the indexes of one contract are in a store. */
  ghost predicate Enrols(t: Store, a: Addr, info: ContractInfo, hist: seq<HistoryEntry>) {
    && ContractKey(a) in t && t[ContractKey(a)] == ContractV(info)
    && hist != [] && HistoryAt(t, a, hist)
    && (forall k :: OwnedIndex(a, k, 0x06) ==> IndexedAs(t, k, CodeIndexKey(hist[|hist| - 1].codeID, hist[|hist| - 1].updated, a)))
    && (forall k :: OwnedIndex(a, k, 0x09) ==> IndexedAs(t, k, CreatorIndexKey(info.creator, hist[0].updated, a)))
  }

  /** Two stores that enrol a contract alike agree on every registry key it owns. */
  lemma EnrolledAlike(s: Store, t: Store, a: Addr, info: ContractInfo, hist: seq<HistoryEntry>, k: bytes)
    requires Enrols(s, a, info, hist) && Enrols(t, a, info, hist) && Owner(k) == ContractKey(a) && k[0] != 0x03
    ensures SameAt(s, t, k)
  {
    if k[0] == 0x05 {
      HistoryCase(a, k);
      var p := FromBE8(k[|k| - 8..]);
      assert HistoryKey(a, p) in s <==> HistoryKey(a, p) in t;
    } else if k[0] == 0x06 {
      assert OwnedIndex(a, k, 0x06);
    } else if k[0] == 0x09 {
      assert OwnedIndex(a, k, 0x09);
    } else {
      assert ContractKey(a)[0] == 0x02;
    }
  }

  lemma PresentEnrols(s: Store, a: Addr, info: ContractInfo, hist: seq<HistoryEntry>)
    requires Shapes(s) && Present(s, a, info, hist)
    ensures Enrols(s, a, info, hist)
  {
    forall k | OwnedIndex(a, k, 0x06) ensures IndexedAs(s, k, CodeIndexKey(hist[|hist| - 1].codeID, hist[|hist| - 1].updated, a)) {
      PresentCode(s, a, info, hist, k);
    }
    forall k | OwnedIndex(a, k, 0x09) ensures IndexedAs(s, k, CreatorIndexKey(info.creator, hist[0].updated, a)) {
      PresentCreator(s, a, info, hist, k);
    }
  }

  lemma PresentCode(s: Store, a: Addr, info: ContractInfo, hist: seq<HistoryEntry>, k: bytes)
    requires Shapes(s) && OwnedIndex(a, k, 0x06) && hist != [] && OnlyIndexed(s, a, info, hist) && hist[|hist| - 1].codeID == info.codeID
    requires CodeIndexKey(info.codeID, hist[|hist| - 1].updated, a) in s
    ensures IndexedAs(s, k, CodeIndexKey(hist[|hist| - 1].codeID, hist[|hist| - 1].updated, a))
  {
    if k in s {
      CodeCase(a, k);
      var c: u64, p := FromBE8(k[1..9]), Listing.Decoded(k[9..25]);
      assert CodeIndexKey(c, p, a) in s;
      assert ShapeOk(k, s[k]);
    }
  }

  lemma PresentCreator(s: Store, a: Addr, info: ContractInfo, hist: seq<HistoryEntry>, k: bytes)
    requires Shapes(s) && OwnedIndex(a, k, 0x09) && hist != [] && OnlyIndexed(s, a, info, hist)
    requires CreatorIndexKey(info.creator, hist[0].updated, a) in s
    ensures IndexedAs(s, k, CreatorIndexKey(info.creator, hist[0].updated, a))
  {
    if k in s {
      CreatorCase(a, k);
      var n: nat := k[1];
      var c: Account, p := k[2..n + 2], Listing.Decoded(k[n + 2..n + 18]);
      assert CreatorIndexKey(c, p, a) in s;
      assert ShapeOk(k, s[k]);
    }
  }

  /** Nothing of the contract is there yet. */
  ghost predicate Missing(t: Store, a: Addr) {
    forall k :: Owner(k) == ContractKey(a) ==> k !in t
  }

  lemma MissingHistory(t: Store, a: Addr)
    requires Missing(t, a)
    ensures HistoryAt(t, a, []) && LastPosition(t, a) == 0
  {
    forall p: u64 ensures HistoryKey(a, p) !in t { OwnerOfContract(a, 0, Position(0, 0), p); }
    OwnKeysUpTo(t, a, []);
  }

  lemma EnrolledElsewhere(t: Store, c: GenContract, k: bytes)
    requires Missing(t, c.addr) && c.history != [] && |c.history| < TWO64 && Owner(k) != ContractKey(c.addr)
    ensures SameAt(t, Enrolled(t, c), k)
  {
    var a := c.addr;
    MissingHistory(t, a);
    WritesAppend(t, a, [], c.history);
    if OwnShape(a, k) { OwnShapeOwned(a, k); }
    RecordedElsewhere(Appended(t, a, c.history), c, k);
  }

  lemma RecordedElsewhere(t: Store, c: GenContract, k: bytes)
    requires c.history != [] && Owner(k) != ContractKey(c.addr)
    ensures SameAt(t, Recorded(t, c), k)
  {
    var a, last := c.addr, c.history[|c.history| - 1];
    OwnerOfContract(a, last.codeID, last.updated, 0);
    OwnerOfCreated(a, c.info.creator, c.history[0].updated);
  }

  lemma OwnShapeOwned(a: Addr, k: bytes)
    requires OwnShape(a, k)
    ensures Owner(k) == ContractKey(a)
  {
    assert k[0] == HistoryPrefix(a)[0] && k[1..|k| - 8] == a;
  }

  lemma EnrolledEnrols(t: Store, c: GenContract)
    requires Missing(t, c.addr) && c.history != [] && |c.history| < TWO64
    ensures Enrols(Enrolled(t, c), c.addr, c.info, c.history)
  {
    var a := c.addr;
    var t1 := Appended(t, a, c.history);
    MissingHistory(t, a);
    WritesAppend(t, a, [], c.history);
    assert [] + c.history == c.history;
    RecordedHistory(t1, c);
    forall k | OwnedIndex(a, k, 0x06) || OwnedIndex(a, k, 0x09) ensures k !in t1 { NoIndexYet(t, t1, a, k); }
    forall k | OwnedIndex(a, k, 0x06) { RecordedCode(t1, c, k); }
    forall k | OwnedIndex(a, k, 0x09) { RecordedCreator(t1, c, k); }
  }

  lemma NoIndexYet(t: Store, t1: Store, a: Addr, k: bytes)
    requires Missing(t, a) && SameOutside(t, t1, a) && Owner(k) == ContractKey(a) && |k| > 0 && k[0] != 0x05
    ensures k !in t1
  {
    assert !OwnShape(a, k) by { assert HistoryPrefix(a)[0] == 0x05; }
  }

  lemma RecordedHistory(t1: Store, c: GenContract)
    requires c.history != [] && HistoryAt(t1, c.addr, c.history)
    ensures ContractKey(c.addr) in Recorded(t1, c) && Recorded(t1, c)[ContractKey(c.addr)] == ContractV(c.info)
    ensures HistoryAt(Recorded(t1, c), c.addr, c.history)
  {
    var a, t', first, last := c.addr, Recorded(t1, c), c.history[0], c.history[|c.history| - 1];
    KeysOfOneContract(a, last.codeID, c.info.creator, last.updated, first.updated, 0);
    forall p: u64 ensures SameAt(t1, t', HistoryKey(a, p)) {
      KeysOfOneContract(a, last.codeID, c.info.creator, last.updated, first.updated, p);
    }
    HistoryAtSame(t1, t', a, c.history);
  }

  lemma RecordedCode(t1: Store, c: GenContract, k: bytes)
    requires c.history != [] && |k| > 0 && k[0] == 0x06 && k !in t1
    ensures IndexedAs(Recorded(t1, c), k, CodeIndexKey(c.history[|c.history| - 1].codeID, c.history[|c.history| - 1].updated, c.addr))
  {
    assert ContractKey(c.addr)[0] == 0x02 && CreatorIndexKey(c.info.creator, c.history[0].updated, c.addr)[0] == 0x09;
  }

  lemma RecordedCreator(t1: Store, c: GenContract, k: bytes)
    requires c.history != [] && |k| > 0 && k[0] == 0x09 && k !in t1
    ensures IndexedAs(Recorded(t1, c), k, CreatorIndexKey(c.info.creator, c.history[0].updated, c.addr))
  {
    var last := c.history[|c.history| - 1];
    assert ContractKey(c.addr)[0] == 0x02 && CodeIndexKey(last.codeID, last.updated, c.addr)[0] == 0x06;
  }

  // ---------------------------------------------------------------- contract state

  ghost predicate Below(a: Addr, ks: seq<bytes>) {
    forall i :: 0 <= i < |ks| ==> StatePrefix(a) <= ks[i]
  }

  lemma {:induction false} ModelsRoundTrip(s: Store, t: Store, a: Addr, ks: seq<bytes>)
    requires StateKeys(s, |a| + 1, ks) && Below(a, ks) && Ascends(ks) && forall k :: k in ks ==> k !in t
    ensures var r := ImportModels(t, a, ExportModels(s, |a| + 1, ks));
            r.Success? && forall k :: if k in ks then SameAt(s, r.value, k) else SameAt(t, r.value, k)
    decreases |ks|
  {
    if ks != [] {
      var k0 := ks[0];
      assert k0 == StateKey(a, k0[|a| + 1..]);
      assert k0 in ks;
      HeadApart(ks);
      var t' := t[k0 := s[k0]];
      ModelsRoundTrip(s, t', a, ks[1..]);
      var r := ImportModels(t', a, ExportModels(s, |a| + 1, ks[1..])).value;
      assert ImportModels(t, a, ExportModels(s, |a| + 1, ks)) == Success(r);
      forall k ensures if k in ks then SameAt(s, r, k) else SameAt(t, r, k) {
        assert if k in ks[1..] then SameAt(s, r, k) else SameAt(t', r, k);
      }
    }
  }

  lemma StateScan(s: Store, n: nat, a: Addr)
    requires Book(s, n) && |a| == 32
    ensures StateOf(s, a, Scan(s, StatePrefix(a)))
  {
    var ks := Scan(s, StatePrefix(a));
    forall k ensures k in ks <==> k in s && Owner(k) == ContractKey(a) && k[0] == 0x03 { StateScanned(s, a, k); }
    forall i | 0 <= i < |ks| ensures 33 <= |ks[i]| && ks[i] in s && s[ks[i]].RawV? && StatePrefix(a) <= ks[i] {
      assert ks[i] in ks;
      assert ShapeOk(ks[i], s[ks[i]]);
    }
  }

  lemma StateScanned(s: Store, a: Addr, k: bytes)
    requires StateHoused(s) && |a| == 32
    ensures k in Scan(s, StatePrefix(a)) <==> k in s && Owner(k) == ContractKey(a) && k[0] == 0x03
  {
    assert StatePrefix(a)[0] == 0x03;
    if k in s {
      assert Housed(s, k);
      if StatePrefix(a) <= k {
        assert k[..33] == StatePrefix(a);
        assert k[1..33] == a;
      }
      if Owner(k) == ContractKey(a) && k[0] == 0x03 {
        OwnerIs(a, k[1..33]);
        assert k[..33] == [0x03] + k[1..33];
      }
    }
  }

  // ---------------------------------------------------------------- one contract after the other

  /** The keys of a contract's state, in order. */
  ghost predicate StateOf(s: Store, a: Addr, ks: seq<bytes>) {
    && StateKeys(s, |a| + 1, ks) && Below(a, ks) && Ascends(ks)
    && (forall k :: k in ks <==> k in s && Owner(k) == ContractKey(a) && k[0] == 0x03)
  }

  /** A contract record whose history, indexes, code and state are all in place. */
  ghost function Shippable(s: Store): (ships: bytes -> bool) {
    (k: bytes) =>
      && |k| == 33 && [0x02] <= k && k in s && s[k].ContractV? && TypedHistory(s)
      && CodeKey(s[k].contract.codeID) in s
      && Present(s, k[1..], s[k].contract, HistoryOf(s, k[1..]))
      && StateOf(s, k[1..], Scan(s, StatePrefix(k[1..])))
  }

  lemma BookShips(s: Store, n: nat, k: bytes)
    requires Book(s, n) && k in s && [0x02] <= k
    ensures Shippable(s)(k)
  {
    assert ShapeOk(k, s[k]);
    var a: Addr := k[1..];
    assert k == ContractKey(a);
    assert ContractOk(s, n, a) && AddressOk(s, a);
    StateScan(s, n, a);
  }

  lemma KeyOfContract(k: bytes)
    requires [0x02] <= k && |k| <= 256
    ensures ContractKey(k[1..]) == k
  {
    assert k[..1] == [0x02];
  }

  lemma ContractPart(s: Store, t: Store, done: set<bytes>, k: bytes)
    requires Shapes(s) && TypedHistory(s) && ContractEntry(s, k)
    requires Shippable(s)(k) && IsPart(s, t, done) && k !in done && CodeKey(s[k].contract.codeID) in done
    ensures var r := ImportContract(t, ExportContract(s, k)); r.Success? && IsPart(s, r.value, done + {k})
  {
    var a: Addr := k[1..];
    KeyOfContract(k);
    RecordsIn(s, t, done, a, s[k].contract.codeID);
    ImportedPart(s, t, done, ExportContract(s, k), Scan(s, StatePrefix(a)));
  }

  /** Which records a part holds: the code is in, the contract is not. */
  lemma RecordsIn(s: Store, t: Store, done: set<bytes>, a: Addr, id: u64)
    requires IsPart(s, t, done) && ContractKey(a) !in done && CodeKey(id) in done
    ensures ContractKey(a) !in t && SameAt(s, t, CodeKey(id))
  {
    OwnerOfContract(a, 0, Position(0, 0), 0);
    OwnerOfCode(id);
  }

  /** The contract's keys as the import leaves them: its state is still missing. */
  ghost predicate Halfway(s: Store, t: Store, t2: Store, a: Addr, k: bytes) {
    if Owner(k) == ContractKey(a) then (if k[0] == 0x03 then k !in t2 else SameAt(s, t2, k)) else SameAt(t, t2, k)
  }

  lemma ImportedPart(s: Store, t: Store, done: set<bytes>, c: GenContract, ks: seq<bytes>)
    requires Shapes(s) && IsPart(s, t, done) && ContractKey(c.addr) !in done && Shippable(s)(ContractKey(c.addr))
    requires c == ExportContract(s, ContractKey(c.addr)) && ks == Scan(s, StatePrefix(c.addr))
    ensures var r := ImportModels(Enrolled(t, c), c.addr, c.state); r.Success? && IsPart(s, r.value, done + {ContractKey(c.addr)})
  {
    var a, t2 := c.addr, Enrolled(t, c);
    assert ContractKey(a)[1..] == a;
    forall k | k in ks ensures k !in t2 { EnrolledPart(s, t, c, k); }
    ModelsRoundTrip(s, t2, a, ks);
    var r := ImportModels(t2, a, c.state).value;
    forall k ensures if Owner(k) in done + {ContractKey(a)} then SameAt(s, r, k) else k !in r {
      EnrolledPart(s, t, c, k);
      PartAt(s, t, t2, r, done, ks, a, k);
    }
  }

  lemma PartAt(s: Store, t: Store, t2: Store, r: Store, done: set<bytes>, ks: seq<bytes>, a: Addr, k: bytes)
    requires Halfway(s, t, t2, a, k) && (if Owner(k) in done then SameAt(s, t, k) else k !in t)
    requires ContractKey(a) !in done && (k in ks <==> k in s && Owner(k) == ContractKey(a) && k[0] == 0x03)
    requires if k in ks then SameAt(s, r, k) else SameAt(t2, r, k)
    ensures if Owner(k) in done + {ContractKey(a)} then SameAt(s, r, k) else k !in r
  {}

  lemma EnrolledPart(s: Store, t: Store, c: GenContract, k: bytes)
    requires Shapes(s) && Missing(t, c.addr) && Present(s, c.addr, c.info, c.history)
    ensures Halfway(s, t, Enrolled(t, c), c.addr, k)
  {
    if Owner(k) != ContractKey(c.addr) {
      EnrolledElsewhere(t, c, k);
    } else if k[0] != 0x03 {
      PresentEnrols(s, c.addr, c.info, c.history);
      EnrolledEnrols(t, c);
      EnrolledAlike(s, Enrolled(t, c), c.addr, c.info, c.history, k);
    } else {
      EnrolledState(t, c, k);
    }
  }

  lemma EnrolledState(t: Store, c: GenContract, k: bytes)
    requires Missing(t, c.addr) && c.history != [] && |c.history| < TWO64 && Owner(k) == ContractKey(c.addr) && k[0] == 0x03
    ensures k !in Enrolled(t, c)
  {
    var a := c.addr;
    MissingHistory(t, a);
    WritesAppend(t, a, [], c.history);
    assert !OwnShape(a, k) by { assert HistoryPrefix(a)[0] == 0x05; }
  }

  ghost predicate AllShippable(s: Store, ks: seq<bytes>) {
    forall i :: 0 <= i < |ks| ==> Shippable(s)(ks[i])
  }

  lemma ShippableKeys(s: Store, ks: seq<bytes>)
    requires AllShippable(s, ks)
    ensures ContractKeys(s, ks)
  {}

  lemma ImportContractsStep(t: Store, c: GenContract, cs: seq<GenContract>)
    requires ImportContract(t, c).Success?
    ensures ImportContracts(t, [c] + cs) == ImportContracts(ImportContract(t, c).value, cs)
  {
    assert ([c] + cs)[1..] == cs;
  }

  lemma {:induction false} ContractsRoundTrip(s: Store, t: Store, ks: seq<bytes>, done: set<bytes>)
    requires Shapes(s) && TypedHistory(s) && AllShippable(s, ks) && ContractKeys(s, ks) && Ascends(ks) && IsPart(s, t, done)
    requires (forall k :: k in ks ==> k !in done) && (forall id: u64 :: CodeKey(id) in s ==> CodeKey(id) in done)
    ensures var r := ImportContracts(t, ExportContracts(s, ks)); r.Success? && IsPart(s, r.value, done + set k | k in ks)
    decreases |ks|
  {
    if ks == [] {
      assert done + (set k | k in ks) == done;
    } else {
      assert ks[0] in ks && Shippable(s)(ks[0]);
      ContractPart(s, t, done, ks[0]);
      TailShippable(s, ks);
      TailDone(ks, done);
      ExportedFirst(s, ks);
      var c := ExportContract(s, ks[0]);
      ImportContractsStep(t, c, ExportContracts(s, ks[1..]));
      ContractsRoundTrip(s, ImportContract(t, c).value, ks[1..], done + {ks[0]});
    }
  }

  lemma ExportedFirst(s: Store, ks: seq<bytes>)
    requires TypedHistory(s) && ContractKeys(s, ks) && ks != []
    ensures ContractEntry(s, ks[0]) && ContractKeys(s, ks[1..])
    ensures ExportContracts(s, ks) == [ExportContract(s, ks[0])] + ExportContracts(s, ks[1..])
  {}

  lemma TailShippable(s: Store, ks: seq<bytes>)
    requires ks != [] && AllShippable(s, ks)
    ensures AllShippable(s, ks[1..])
  {
    forall i | 0 <= i < |ks[1..]| ensures Shippable(s)(ks[1..][i]) {
      assert ks[1..][i] == ks[i + 1];
      assert Shippable(s)(ks[i + 1]);
    }
  }

  lemma TailDone(ks: seq<bytes>, done: set<bytes>)
    requires ks != [] && Ascends(ks) && (forall k :: k in ks ==> k !in done)
    ensures Ascends(ks[1..]) && (forall k :: k in ks[1..] ==> k !in done + {ks[0]})
    ensures done + {ks[0]} + (set k | k in ks[1..]) == done + (set k | k in ks)
  {
    HeadApart(ks);
  }

  // ---------------------------------------------------------------- sequences and sanity checks

  /** The store after both counters were imported. */
  function WithCounters(t: Store, code: u64, instance: u64): (r: Store) {
    t[KeySequenceCodeID := RawV(BE8(code))][KeySequenceInstanceID := RawV(BE8(instance))]
  }

  lemma CountersRead(t: Store, code: u64, instance: u64)
    ensures NextCode(WithCounters(t, code, instance)) == code && NextInstance(WithCounters(t, code, instance)) == instance
  {
    BE8RoundTrip(code);
    BE8RoundTrip(instance);
    assert |KeySequenceCodeID| != |KeySequenceInstanceID|;
  }

  lemma SequencesRoundTrip(s: Store, t: Store, done: set<bytes>)
    requires IsPart(s, t, done) && [] !in done
    ensures ImportSequences(t, ExportSequences(s)) == Success(WithCounters(t, NextCode(s), NextInstance(s)))
  {
    assert Owner(KeySequenceCodeID) == [] && Owner(KeySequenceInstanceID) == [];
    assert |KeySequenceCodeID| != |KeySequenceInstanceID|;
    var qs := ExportSequences(s);
    var t1 := t[KeySequenceCodeID := RawV(BE8(NextCode(s)))];
    assert qs[1..] == [qs[1]] && qs[1..][1..] == [];
    assert ImportSequences(t, qs) == ImportSequences(t1, qs[1..]);
    assert ImportSequences(t1, qs[1..]) == ImportSequences(t1[KeySequenceInstanceID := RawV(BE8(NextInstance(s)))], []);
  }

  lemma {:induction false} MaxBelow(cs: seq<GenCode>, m: u64, bound: u64)
    requires m < bound && forall i :: 0 <= i < |cs| ==> cs[i].id < bound
    ensures MaxID(cs, m) < bound
    decreases |cs|
  {
    if cs != [] { MaxBelow(cs[1..], if cs[0].id > m then cs[0].id else m, bound); }
  }

  lemma {:induction false} ExportedIDs(s: Store, vm: map<bytes, bytes>, ks: seq<bytes>, n: nat)
    requires CodeKeys(s, ks) && ExportCodes(s, vm, ks).Some? && Counted(s, n)
    ensures forall i :: 0 <= i < |ExportCodes(s, vm, ks).value| ==> ExportCodes(s, vm, ks).value[i].id < NextCode(s)
    decreases |ks|
  {
    if ks != [] {
      KeyOfCode(ks[0]);
      ExportedIDs(s, vm, ks[1..], n);
    }
  }

  // ---------------------------------------------------------------- the round trip

  ghost function ExportGenesis(s: Store, vm: map<bytes, bytes>): (r: Option<GenesisState>)
    requires CodeKeys(s, Scan(s, [0x01])) && TypedHistory(s) && ContractKeys(s, Scan(s, [0x02]))
  {
    match (GetParams(s), ExportCodes(s, vm, Scan(s, [0x01])))
    case (Some(params), Some(codes)) =>
      Some(GenesisState(params, codes, ExportContracts(s, Scan(s, [0x02])), ExportSequences(s)))
    case _ => None
  }

  /** Keys that belong to the exported part of the module's store. */
  predicate Exportable(k: bytes) {
    k == ParamsKey
    || (|k| > 0 && (k[0] == 0x01 || k[0] == 0x02 || k[0] == 0x03 || k[0] == 0x05 || k[0] == 0x06 || k[0] == 0x07 || k[0] == 0x09))
  }

  /** The same params, codes, pins, contracts, state, histories, indexes and counters, and nothing else. */
  ghost predicate Rebuilt(s: Store, t: Store) {
    && (forall k :: Exportable(k) ==> SameAt(s, t, k))
    && (forall k :: k in t && !Exportable(k) ==> (k == KeySequenceCodeID || k == KeySequenceInstanceID) && t[k].RawV? && |t[k].raw| == 8)
    && NextCode(t) == NextCode(s) && NextInstance(t) == NextInstance(s)
  }

  /** Registry keys of an address that is in order lead to its record. */
  lemma RegisteredOwner(s: Store, a: Addr, k: bytes)
    requires AddressOk(s, a) && k in s && Owner(k) == ContractKey(a) && (k[0] == 0x05 || k[0] == 0x06 || k[0] == 0x09)
    ensures ContractKey(a) in s
  {
    if k[0] == 0x05 {
      HistoryCase(a, k);
    } else if k[0] == 0x06 {
      CodeCase(a, k);
    } else {
      CreatorCase(a, k);
    }
  }

  lemma OwnerAddress(k: bytes, v: Value) returns (a: Addr)
    requires ShapeOk(k, v) && (k[0] == 0x05 || k[0] == 0x06 || k[0] == 0x09)
    ensures Owner(k) == ContractKey(a)
  {
    a := if k[0] == 0x05 then k[1..|k| - 8] else if k[0] == 0x06 then k[25..] else k[18 + k[1] as int..];
  }

  lemma PinOwner(s: Store, k: bytes)
    requires PinsOk(s) && k in s && |k| == 9 && k[0] == 0x07
    ensures Owner(k) in s && [0x01] <= Owner(k)
  {
    BE8Onto(k[1..]);
    assert k == PinKey(FromBE8(k[1..])) && Owner(k) == CodeKey(FromBE8(k[1..]));
  }

  /** Under the book every exportable key has a code or contract record as its owner. */
  lemma OwnerStored(s: Store, n: nat, k: bytes)
    requires Book(s, n) && k in s && Exportable(k)
    ensures Owner(k) in s && (Owner(k) == ParamsKey || [0x01] <= Owner(k) || [0x02] <= Owner(k))
  {
    assert ShapeOk(k, s[k]);
    if k[0] == 0x07 {
      PinOwner(s, k);
    } else if k[0] == 0x03 {
      assert Housed(s, k);
    } else if k[0] == 0x05 || k[0] == 0x06 || k[0] == 0x09 {
      var a := OwnerAddress(k, s[k]);
      assert AddressOk(s, a);
      RegisteredOwner(s, a, k);
    }
  }

  /** A code or contract record, or the parameters. */
  ghost function AllOwners(s: Store): (r: set<bytes>) {
    {ParamsKey} + (set k | k in Scan(s, [0x01])) + (set k | k in Scan(s, [0x02]))
  }

  lemma OwnersOnly(s: Store, x: bytes)
    ensures x in AllOwners(s) <==> x == ParamsKey || (x in s && ([0x01] <= x || [0x02] <= x))
  {}

  lemma ParamsPart(s: Store, params: Params)
    requires GetParams(s) == Some(params)
    ensures IsPart(s, map[ParamsKey := ParamsV(params)], {ParamsKey})
  {
    forall k | Owner(k) == ParamsKey ensures k == ParamsKey { assert ParamsKey[0] == 0x10; }
  }

  lemma ScansAreGood(s: Store, n: nat)
    requires Book(s, n)
    ensures CodeKeys(s, Scan(s, [0x01])) && AllShippable(s, Scan(s, [0x02])) && TypedHistory(s) && ContractKeys(s, Scan(s, [0x02]))
  {
    ShapesTyped(s);
    CodesScanned(s);
    var cs := Scan(s, [0x02]);
    forall i | 0 <= i < |cs| ensures Shippable(s)(cs[i]) {
      assert cs[i] in cs;
      BookShips(s, n, cs[i]);
    }
    ShippableKeys(s, cs);
  }

  lemma CodesScanned(s: Store)
    requires Shapes(s)
    ensures CodeKeys(s, Scan(s, [0x01]))
    ensures forall id: u64 :: CodeKey(id) in s ==> CodeKey(id) in Scan(s, [0x01])
  {
    var ks := Scan(s, [0x01]);
    forall i | 0 <= i < |ks| ensures |ks[i]| == 9 && ks[i] in s && s[ks[i]].CodeV? && ks[i][0] == 0x01 {
      assert ks[i] in ks;
      assert ShapeOk(ks[i], s[ks[i]]);
    }
  }

  /** Parameters and codes of the export go in without an error. */
  lemma CodesGoIn(h: Host, checksum: bytes -> bytes, vm: map<bytes, bytes>, s: Store, params: Params)
    requires Shapes(s) && Faithful(h, checksum, vm) && GetParams(s) == Some(params)
    requires CodeKeys(s, Scan(s, [0x01])) && ExportCodes(s, vm, Scan(s, [0x01])).Some?
    ensures var r := ImportCodes(h, checksum, map[ParamsKey := ParamsV(params)], ExportCodes(s, vm, Scan(s, [0x01])).value);
            r.Success? && IsPart(s, r.value, {ParamsKey} + set k | k in Scan(s, [0x01]))
  {
    ParamsPart(s, params);
    CodesRoundTrip(h, checksum, vm, s, map[ParamsKey := ParamsV(params)], Scan(s, [0x01]), {ParamsKey});
  }

  lemma ScansApart(s: Store, done: set<bytes>)
    requires done == {ParamsKey} + set k | k in Scan(s, [0x01])
    ensures forall k :: k in Scan(s, [0x02]) ==> k !in done
    ensures done + (set k | k in Scan(s, [0x02])) == AllOwners(s)
  {
    forall k | k in Scan(s, [0x02]) ensures k !in done { assert k[0] == 0x02; }
  }

  /** And then the contracts. */
  lemma ContractsGoIn(s: Store, t: Store, done: set<bytes>)
    requires Shapes(s) && TypedHistory(s) && AllShippable(s, Scan(s, [0x02])) && ContractKeys(s, Scan(s, [0x02]))
    requires IsPart(s, t, done) && done == {ParamsKey} + set k | k in Scan(s, [0x01])
    ensures var r := ImportContracts(t, ExportContracts(s, Scan(s, [0x02]))); r.Success? && IsPart(s, r.value, AllOwners(s))
  {
    CodesScanned(s);
    ScansApart(s, done);
    ContractsRoundTrip(s, t, Scan(s, [0x02]), done);
  }

  lemma PartIsRebuilt(s: Store, n: nat, t: Store)
    requires Book(s, n) && IsPart(s, t, AllOwners(s))
    ensures Rebuilt(s, WithCounters(t, NextCode(s), NextInstance(s)))
  {
    var t' := WithCounters(t, NextCode(s), NextInstance(s));
    CountersRead(t, NextCode(s), NextInstance(s));
    forall k | Exportable(k) ensures SameAt(s, t', k) {
      if k in s { OwnerStored(s, n, k); }
      ExportableSame(s, t, k);
    }
    forall k | k in t' && !Exportable(k) ensures (k == KeySequenceCodeID || k == KeySequenceInstanceID) && t'[k].RawV? && |t'[k].raw| == 8 {
      OwnersOnly(s, Owner(k));
    }
  }

  lemma ExportableSame(s: Store, t: Store, k: bytes)
    requires Exportable(k) && (if Owner(k) in AllOwners(s) then SameAt(s, t, k) else k !in t)
    requires k in s ==> Owner(k) in s && (Owner(k) == ParamsKey || [0x01] <= Owner(k) || [0x02] <= Owner(k))
    ensures SameAt(s, WithCounters(t, NextCode(s), NextInstance(s)), k)
  {
    OwnersOnly(s, Owner(k));
    CountersAside(t, NextCode(s), NextInstance(s), k);
  }

  lemma CountersAside(t: Store, code: u64, instance: u64, k: bytes)
    requires Exportable(k)
    ensures SameAt(t, WithCounters(t, code, instance), k)
  {
    assert KeySequenceCodeID[0] == 0x04 && KeySequenceInstanceID[0] == 0x04;
  }

  /** The items of the export go in, one kind after the other. */
  lemma ItemsGoIn(h: Host, checksum: bytes -> bytes, vm: map<bytes, bytes>, s: Store, params: Params, codes: seq<GenCode>)
    returns (t1: Store, t: Store)
    requires Shapes(s) && Faithful(h, checksum, vm) && GetParams(s) == Some(params)
    requires CodeKeys(s, Scan(s, [0x01])) && ExportCodes(s, vm, Scan(s, [0x01])) == Some(codes)
    requires TypedHistory(s) && AllShippable(s, Scan(s, [0x02])) && ContractKeys(s, Scan(s, [0x02]))
    ensures ImportCodes(h, checksum, map[ParamsKey := ParamsV(params)], codes) == Success(t1)
    ensures ImportContracts(t1, ExportContracts(s, Scan(s, [0x02]))) == Success(t)
    ensures IsPart(s, t, AllOwners(s)) && ImportSequences(t, ExportSequences(s)) == Success(WithCounters(t, NextCode(s), NextInstance(s)))
  {
    CodesGoIn(h, checksum, vm, s, params);
    t1 := ImportCodes(h, checksum, map[ParamsKey := ParamsV(params)], codes).value;
    ContractsGoIn(s, t1, {ParamsKey} + set k | k in Scan(s, [0x01]));
    t := ImportContracts(t1, ExportContracts(s, Scan(s, [0x02]))).value;
    OwnersOnly(s, []);
    SequencesRoundTrip(s, t, AllOwners(s));
  }

  /** Where the next instance would be, as the check after the import computes it. */
  function NextClassic(h: Host, s: Store): (k: bytes) {
    ContractKey(h.addressOf(ClassicPreimage(NextInstance(s), NextInstance(s))))
  }

  /**
   * Importing the export of any store that keeps the book into an empty store rebuilds everything
   * that is exported. It succeeds exactly when the address of the next instance is free.
   */
  lemma GenesisRoundTrip(h: Host, checksum: bytes -> bytes, vm: map<bytes, bytes>, s: Store, n: nat, g: GenesisState)
    requires Book(s, n) && Faithful(h, checksum, vm)
    requires CodeKeys(s, Scan(s, [0x01])) && TypedHistory(s) && ContractKeys(s, Scan(s, [0x02]))
    requires ExportGenesis(s, vm) == Some(g)
    ensures var r := InitGenesis(h, checksum, map[], g);
            (r.Success? <==> NextClassic(h, s) !in s) && (r.Success? ==> Rebuilt(s, r.value))
  {
    ScansAreGood(s, n);
    var t1, t := ItemsGoIn(h, checksum, vm, s, g.params, g.codes);
    PartIsRebuilt(s, n, t);
    CheckedMax(s, n, vm, g.codes);
    RebuiltIsSane(h, s, WithCounters(t, NextCode(s), NextInstance(s)), MaxID(g.codes, 0));
  }

  /** Without collisions of the address hash among the inputs in use it always succeeds, and the result is as good a start. */
  lemma GenesisSucceeds(h: Host, checksum: bytes -> bytes, vm: map<bytes, bytes>, s: Store, n: nat, g: GenesisState, used: set<bytes>)
    requires Book(s, n) && Faithful(h, checksum, vm) && Lineage(h, used, s) && NoCollisions(h, used)
    requires CodeKeys(s, Scan(s, [0x01])) && TypedHistory(s) && ContractKeys(s, Scan(s, [0x02]))
    requires ExportGenesis(s, vm) == Some(g)
    ensures var r := InitGenesis(h, checksum, map[], g);
            r.Success? && Rebuilt(s, r.value) && Book(r.value, n) && Lineage(h, used, r.value)
  {
    ClassicAddressIsNew(h, used, s, NextInstance(s));
    GenesisRoundTrip(h, checksum, vm, s, n, g);
    var t := InitGenesis(h, checksum, map[], g).value;
    RebuiltKeepsBook(s, n, t);
    RebuiltKeepsLineage(h, used, s, t);
  }

  lemma RebuiltKeepsLineage(h: Host, used: set<bytes>, s: Store, t: Store)
    requires Lineage(h, used, s) && Rebuilt(s, t)
    ensures Lineage(h, used, t)
  {
    forall a: Addr | ContractKey(a) in t ensures BornFrom(h, used, NextInstance(t), a) { assert Exportable(ContractKey(a)); }
  }

  lemma {:induction false} AllExported(s: Store, vm: map<bytes, bytes>, ks: seq<bytes>)
    requires CodeKeys(s, ks) && forall i :: 0 <= i < |ks| ==> s[ks[i]].code.hash in vm
    ensures ExportCodes(s, vm, ks).Some?
  {
    if ks != [] { AllExported(s, vm, ks[1..]); }
  }

  /** There are hosts and stores with contracts for which all of this happens. */
  lemma RoundTripHappens(host: Host, params: Params, code: CodeInfo, info: ContractInfo, wasm: bytes, pre: bytes)
    returns (h: Host, s: Store, g: GenesisState)
    requires |pre| > 16 && info.codeID == 1
    ensures Book(s, 3) && Lineage(h, {pre}, s) && NoCollisions(h, {pre}) && Faithful(h, _ => code.hash, map[code.hash := wasm])
    ensures CodeKeys(s, Scan(s, [0x01])) && TypedHistory(s) && ContractKeys(s, Scan(s, [0x02]))
    ensures ContractKey(h.addressOf(ClassicPreimage(1, 1))) in s && ExportGenesis(s, map[code.hash := wasm]) == Some(g)
  {
    h := host.(addressOf := Spread, inflate := _ => NotGzip);
    s := SomeStore(h, pre, params, code, info);
    ScansAreGood(s, 3);
    AllExported(s, map[code.hash := wasm], Scan(s, [0x01]));
    g := ExportGenesis(s, map[code.hash := wasm]).value;
  }

  lemma CheckedMax(s: Store, n: nat, vm: map<bytes, bytes>, codes: seq<GenCode>)
    requires Book(s, n) && CodeKeys(s, Scan(s, [0x01])) && ExportCodes(s, vm, Scan(s, [0x01])) == Some(codes)
    ensures MaxID(codes, 0) < NextCode(s)
  {
    ExportedIDs(s, vm, Scan(s, [0x01]), n);
    assert CodeKey(0) in s || 0 == 0;
    MaxBelow(codes, 0, NextCode(s));
  }

  lemma RebuiltIsSane(h: Host, s: Store, t: Store, maxID: u64)
    requires Rebuilt(s, t) && maxID < NextCode(s)
    ensures Sane(h, t, maxID) <==> NextClassic(h, s) !in s
  {
    assert Exportable(NextClassic(h, s));
  }

  /** The rebuilt store keeps the book, so runs may start from it. */
  lemma RebuiltKeepsBook(s: Store, n: nat, t: Store)
    requires Book(s, n) && Rebuilt(s, t)
    ensures Book(t, n)
  {
    RebuiltIsAside(s, n, t);
    AsideKeeps(s, t, n, n);
  }

  lemma RebuiltIsAside(s: Store, n: nat, t: Store)
    requires Shapes(s) && Counted(s, n) && PinsOk(s) && Rebuilt(s, t)
    ensures AsideStep(s, n)(t)
  {
    RebuiltShapes(s, t);
    RebuiltCounted(s, n, t);
    forall k | Registered(k) || (|k| > 0 && k[0] == 0x03) ensures SameAt(s, t, k) { assert Exportable(k); }
  }

  lemma RebuiltShapes(s: Store, t: Store)
    requires Shapes(s) && Rebuilt(s, t)
    ensures Shapes(t)
  {
    forall k | k in t ensures ShapeOk(k, t[k]) {
      if Exportable(k) {
        assert SameAt(s, t, k);
        assert ShapeOk(k, s[k]);
      }
    }
  }

  lemma RebuiltCounted(s: Store, n: nat, t: Store)
    requires Counted(s, n) && PinsOk(s) && Rebuilt(s, t)
    ensures Counted(t, n) && PinsOk(t) && CodesGrow(s, t)
  {
    forall id: u64 ensures SameAt(s, t, CodeKey(id)) && SameAt(s, t, PinKey(id)) { assert Exportable(CodeKey(id)) && Exportable(PinKey(id)); }
    forall id: u64 | CodeKey(id) in t || id == 0 ensures id < NextCode(t) { assert SameAt(s, t, CodeKey(id)); }
    forall id: u64 | PinKey(id) in t ensures CodeKey(id) in t { assert SameAt(s, t, CodeKey(id)) && SameAt(s, t, PinKey(id)); }
    forall id: u64 | CodeKey(id) in s ensures CodeKey(id) in t { assert SameAt(s, t, CodeKey(id)); }
  }
}
