/** Creating and migrating contracts keeps the registry in agreement. */
module RegistrySteps {
  import opened Base
  import opened Types
  import opened Keys
  import opened OrderedStore
  import opened History
  import opened Registry
  import opened KeeperOps

  /** What the registry writes for one contract leaves every other address alone. */
  ghost predicate OthersAgree(s: Store, s': Store, a: Addr) {
    forall b: Addr :: b != a ==> AgreeFor(s, s', b)
  }

  /** The record and the history a reader finds. */
  ghost predicate Tells(s: Store, a: Addr, info: ContractInfo, h: seq<HistoryEntry>) {
    TypedHistory(s) && ContractKey(a) in s && s[ContractKey(a)] == ContractV(info) && HistoryOf(s, a) == h
  }

  /** A registry key of contract a. */
  ghost predicate Owns(a: Addr, k: bytes) {
    || k == ContractKey(a)
    || (exists p: u64 :: k == HistoryKey(a, p))
    || (exists c: u64, p: Position :: k == CodeIndexKey(c, p, a))
    || (exists c: Account, p: Position :: k == CreatorIndexKey(c, p, a))
  }

  /** Two records with the same key are the same record, so they belong to the same contract. */
  lemma RecordsApart(a: Addr, b: Addr, k: bytes)
    requires a != b && Owns(a, k)
    ensures !Owns(b, k)
  {
    if Owns(b, k) {
      var r := Witness(a, k);
      var q := Witness(b, k);
      KeySpaceInjective(r, q);
    }
  }

  ghost function Witness(a: Addr, k: bytes): (r: Record)
    requires Owns(a, k)
    ensures KeyOf(r) == k && !r.StateRec? && (r.ContractRec? || r.HistoryRec? || r.CodeIndexRec? || r.CreatorIndexRec?) && r.addr == a
  {
    if k == ContractKey(a) then ContractRec(a)
    else if exists p: u64 :: k == HistoryKey(a, p) then
      var p: u64 :| k == HistoryKey(a, p); HistoryRec(a, p)
    else if exists c: u64, p: Position :: k == CodeIndexKey(c, p, a) then
      var c: u64, p: Position :| k == CodeIndexKey(c, p, a); CodeIndexRec(c, p, a)
    else
      var c: Account, p: Position :| k == CreatorIndexKey(c, p, a); CreatorIndexRec(c, p, a)
  }

  lemma OneWriteElsewhere(s: Store, s': Store, a: Addr, b: Addr, k: bytes)
    requires a != b && Owns(a, k) && forall j :: j != k ==> SameAt(s, s', j)
    ensures AgreeFor(s, s', b)
  {
    RecordsApart(a, b, k);
    OwnsItsKeys(b, 0, [0], Position(0, 0), 0);
    forall p: u64 ensures SameAt(s, s', HistoryKey(b, p)) { OwnsItsKeys(b, 0, [0], Position(0, 0), p); }
    forall c: u64, p: Position ensures SameAt(s, s', CodeIndexKey(c, p, b)) { OwnsItsKeys(b, c, [0], p, 0); }
    forall c: Account, p: Position ensures SameAt(s, s', CreatorIndexKey(c, p, b)) { OwnsItsKeys(b, 0, c, p, 0); }
  }

  lemma AgreeTrans(s: Store, s': Store, s'': Store, b: Addr)
    requires AgreeFor(s, s', b) && AgreeFor(s', s'', b)
    ensures AgreeFor(s, s'', b)
  {
    forall p: u64 ensures SameAt(s, s'', HistoryKey(b, p)) { assert SameAt(s, s', HistoryKey(b, p)) && SameAt(s', s'', HistoryKey(b, p)); }
    forall c: u64, p: Position ensures SameAt(s, s'', CodeIndexKey(c, p, b)) {
      assert SameAt(s, s', CodeIndexKey(c, p, b)) && SameAt(s', s'', CodeIndexKey(c, p, b));
    }
    forall c: Account, p: Position ensures SameAt(s, s'', CreatorIndexKey(c, p, b)) {
      assert SameAt(s, s', CreatorIndexKey(c, p, b)) && SameAt(s', s'', CreatorIndexKey(c, p, b));
    }
  }

  lemma FourWrites(s: Store, w0: Write, w1: Write, w2: Write, w3: Write)
    ensures Apply(s, [w0, w1, w2, w3]) == ApplyOne(ApplyOne(ApplyOne(ApplyOne(s, w0), w1), w2), w3)
  {
    assert [w0, w1, w2, w3] == [w0] + ([w1] + ([w2] + ([w3] + [])));
    ApplyCons(s, w0, [w1] + ([w2] + ([w3] + [])));
    ApplyCons(ApplyOne(s, w0), w1, [w2] + ([w3] + []));
    ApplyCons(ApplyOne(ApplyOne(s, w0), w1), w2, [w3] + []);
    ApplyCons(ApplyOne(ApplyOne(ApplyOne(s, w0), w1), w2), w3, []);
  }

  lemma FourSame(s: Store, w0: Write, w1: Write, w2: Write, w3: Write, k: bytes)
    requires k != w0.key && k != w1.key && k != w2.key && k != w3.key
    ensures SameAt(s, Apply(s, [w0, w1, w2, w3]), k)
  {
    FourWrites(s, w0, w1, w2, w3);
  }

  /** Each write shows unless a later one hits the same key. */
  lemma FourShow(s: Store, w0: Write, w1: Write, w2: Write, w3: Write)
    ensures Shows(Apply(s, [w0, w1, w2, w3]), w3)
    ensures w2.key != w3.key ==> Shows(Apply(s, [w0, w1, w2, w3]), w2)
    ensures w1.key != w2.key && w1.key != w3.key ==> Shows(Apply(s, [w0, w1, w2, w3]), w1)
    ensures w0.key != w1.key && w0.key != w2.key && w0.key != w3.key ==> Shows(Apply(s, [w0, w1, w2, w3]), w0)
  {
    FourWrites(s, w0, w1, w2, w3);
  }

  predicate Shows(s: Store, w: Write) {
    if w.Set? then w.key in s && s[w.key] == w.value else w.key !in s
  }

  lemma FourElsewhere(s: Store, a: Addr, b: Addr, w0: Write, w1: Write, w2: Write, w3: Write)
    requires a != b && Owns(a, w0.key) && Owns(a, w1.key) && Owns(a, w2.key) && Owns(a, w3.key)
    ensures AgreeFor(s, Apply(s, [w0, w1, w2, w3]), b)
  {
    FourWrites(s, w0, w1, w2, w3);
    var s0 := ApplyOne(s, w0);
    var s1 := ApplyOne(s0, w1);
    var s2 := ApplyOne(s1, w2);
    OneApplied(s, a, b, w0);
    OneApplied(s0, a, b, w1);
    OneApplied(s1, a, b, w2);
    OneApplied(s2, a, b, w3);
    AgreeTrans(s, s0, s1, b);
    AgreeTrans(s, s1, s2, b);
    AgreeTrans(s, s2, ApplyOne(s2, w3), b);
  }

  lemma OneApplied(s: Store, a: Addr, b: Addr, w: Write)
    requires a != b && Owns(a, w.key)
    ensures AgreeFor(s, ApplyOne(s, w), b)
  {
    OneWriteElsewhere(s, ApplyOne(s, w), a, b, w.key);
  }

  /** If the address written to is fine and the rest agrees, the whole store is. */
  lemma AgreementAround(s: Store, s': Store, a: Addr)
    requires Agreement(s) && Shapes(s') && CodesGrow(s, s') && OthersAgree(s, s', a) && AddressOk(s', a)
    ensures Agreement(s')
  {
    forall b: Addr ensures AddressOk(s', b) {
      if b != a { AddressKept(s, s', b); }
    }
  }

  // ---------------------------------------------------------------- a new contract

  ghost function NewContractWrites(a: Addr, n: u64, info: ContractInfo, e: HistoryEntry): (ws: seq<Write>) {
    [Set(CodeIndexKey(info.codeID, info.created, a), RawV([])), Set(CreatorIndexKey(info.creator, info.created, a), RawV([])),
     Set(HistoryKey(a, n), EntryV(e)), Set(ContractKey(a), ContractV(info))]
  }

  /** A fresh address has no history yet, so the first entry goes to position 1. */
  lemma PersistIsFourWrites(s: Store, a: Addr, info: ContractInfo, payload: bytes)
    requires Shapes(s) && Absent(s, a)
    ensures PersistWrites(s, a, info, payload)
         == NewContractWrites(a, 1, info, HistoryEntry(InitOp, info.codeID, info.created, payload))
  {
    assert LastPosition(s, a) == 0 by {
      ShapesTyped(s);
      GaplessLookup(s, a, []);
    }
    PersistList(s, a, info, payload);
  }

  lemma OneHistoryWrite(a: Addr, n: u64, e: HistoryEntry)
    ensures HistoryWrites(a, n, [e]) == [Set(HistoryKey(a, NextPosition(n)), EntryV(e))]
  {
    assert [e][1..] == [];
  }

  /** The four writes of persisting and of moving a contract, wherever its history stands. */
  lemma PersistList(s: Store, a: Addr, info: ContractInfo, payload: bytes)
    ensures var e := HistoryEntry(InitOp, info.codeID, info.created, payload);
            PersistWrites(s, a, info, payload) == NewContractWrites(a, NextPosition(LastPosition(s, a)), info, e)
  {
    OneHistoryWrite(a, LastPosition(s, a), HistoryEntry(InitOp, info.codeID, info.created, payload));
  }

  lemma MigrationList(s: Store, a: Addr, last: HistoryEntry, info: ContractInfo, e: HistoryEntry)
    ensures MigrationWrites(s, a, last, info, e) == MoveWrites(a, NextPosition(LastPosition(s, a)), last, info, e)
  {
    OneHistoryWrite(a, LastPosition(s, a), e);
  }

  lemma OwnsItsKeys(a: Addr, c: u64, d: Account, p: Position, n: u64)
    ensures Owns(a, ContractKey(a)) && Owns(a, HistoryKey(a, n)) && Owns(a, CodeIndexKey(c, p, a)) && Owns(a, CreatorIndexKey(d, p, a))
  {}

  lemma NewContractOthers(s: Store, a: Addr, info: ContractInfo, e: HistoryEntry)
    ensures OthersAgree(s, Apply(s, NewContractWrites(a, 1, info, e)), a)
  {
    OwnsItsKeys(a, info.codeID, info.creator, info.created, 1);
    var ws := NewContractWrites(a, 1, info, e);
    forall b: Addr | b != a ensures AgreeFor(s, Apply(s, ws), b) {
      FourElsewhere(s, a, b, ws[0], ws[1], ws[2], ws[3]);
    }
  }

  lemma KeysOfOneContract(a: Addr, c: u64, d: Account, p: Position, q: Position, n: u64)
    ensures ContractKey(a) != HistoryKey(a, n) && ContractKey(a) != CodeIndexKey(c, p, a) && ContractKey(a) != CreatorIndexKey(d, q, a)
    ensures HistoryKey(a, n) != CodeIndexKey(c, p, a) && HistoryKey(a, n) != CreatorIndexKey(d, q, a)
    ensures CodeIndexKey(c, p, a) != CreatorIndexKey(d, q, a)
  {
    assert ContractKey(a)[0] == 2 && HistoryKey(a, n)[0] == 5 && CodeIndexKey(c, p, a)[0] == 6 && CreatorIndexKey(d, q, a)[0] == 9;
  }

  lemma NewContractShows(s: Store, a: Addr, info: ContractInfo, e: HistoryEntry)
    ensures var s' := Apply(s, NewContractWrites(a, 1, info, e));
            && ContractKey(a) in s' && s'[ContractKey(a)] == ContractV(info)
            && HistoryKey(a, 1) in s' && s'[HistoryKey(a, 1)] == EntryV(e)
            && CodeIndexKey(info.codeID, info.created, a) in s'
            && CreatorIndexKey(info.creator, info.created, a) in s'
  {
    var ws := NewContractWrites(a, 1, info, e);
    KeysOfOneContract(a, info.codeID, info.creator, info.created, info.created, 1);
    FourShow(s, ws[0], ws[1], ws[2], ws[3]);
  }

  lemma NewContractHistory(s: Store, a: Addr, info: ContractInfo, e: HistoryEntry, n: u64)
    requires n != 1
    ensures SameAt(s, Apply(s, NewContractWrites(a, 1, info, e)), HistoryKey(a, n))
  {
    var ws := NewContractWrites(a, 1, info, e);
    KeysOfOneContract(a, info.codeID, info.creator, info.created, info.created, n);
    if HistoryKey(a, n) == HistoryKey(a, 1) { HistoryKeyInjective(a, n, a, 1); }
    FourSame(s, ws[0], ws[1], ws[2], ws[3], HistoryKey(a, n));
  }

  lemma NewContractCodeIndex(s: Store, a: Addr, info: ContractInfo, e: HistoryEntry, c: u64, p: Position)
    requires !(c == info.codeID && p == info.created)
    ensures SameAt(s, Apply(s, NewContractWrites(a, 1, info, e)), CodeIndexKey(c, p, a))
  {
    var ws := NewContractWrites(a, 1, info, e);
    KeysOfOneContract(a, c, info.creator, p, info.created, 1);
    if CodeIndexKey(c, p, a) == CodeIndexKey(info.codeID, info.created, a) { CodeIndexKeyInjective(c, p, a, info.codeID, info.created, a); }
    FourSame(s, ws[0], ws[1], ws[2], ws[3], CodeIndexKey(c, p, a));
  }

  lemma NewContractCreatorIndex(s: Store, a: Addr, info: ContractInfo, e: HistoryEntry, c: Account, p: Position)
    requires !(c == info.creator && p == info.created)
    ensures SameAt(s, Apply(s, NewContractWrites(a, 1, info, e)), CreatorIndexKey(c, p, a))
  {
    var ws := NewContractWrites(a, 1, info, e);
    KeysOfOneContract(a, info.codeID, c, info.created, p, 1);
    if CreatorIndexKey(c, p, a) == CreatorIndexKey(info.creator, info.created, a) { CreatorIndexKeyInjective(c, p, a, info.creator, info.created, a); }
    FourSame(s, ws[0], ws[1], ws[2], ws[3], CreatorIndexKey(c, p, a));
  }

  lemma NewContractPresent(s: Store, a: Addr, info: ContractInfo, e: HistoryEntry)
    requires Absent(s, a) && e.codeID == info.codeID && e.updated == info.created
    requires CodeKey(info.codeID) in Apply(s, NewContractWrites(a, 1, info, e))
    ensures Present(Apply(s, NewContractWrites(a, 1, info, e)), a, info, [e])
  {
    var s' := Apply(s, NewContractWrites(a, 1, info, e));
    NewContractShows(s, a, info, e);
    forall n: u64
      ensures HistoryKey(a, n) in s' <==> n == 1
      ensures n == 1 ==> s'[HistoryKey(a, n)] == EntryV(e)
    {
      if n != 1 { NewContractHistory(s, a, info, e, n); }
    }
    forall c: u64, p: Position | CodeIndexKey(c, p, a) in s' ensures c == info.codeID && p == info.created {
      if !(c == info.codeID && p == info.created) { NewContractCodeIndex(s, a, info, e, c, p); }
    }
    forall c: Account, p: Position | CreatorIndexKey(c, p, a) in s' ensures c == info.creator && p == info.created {
      if !(c == info.creator && p == info.created) { NewContractCreatorIndex(s, a, info, e, c, p); }
    }
  }

  lemma NewContractShapes(s: Store, a: Addr, info: ContractInfo, e: HistoryEntry)
    requires Shapes(s)
    ensures Shapes(Apply(s, NewContractWrites(a, 1, info, e))) && CodesGrow(s, Apply(s, NewContractWrites(a, 1, info, e)))
  {
    var ws := NewContractWrites(a, 1, info, e);
    FourWrites(s, ws[0], ws[1], ws[2], ws[3]);
    assert ShapeOk(CodeIndexKey(info.codeID, info.created, a), RawV([]));
    assert ShapeOk(CreatorIndexKey(info.creator, info.created, a), RawV([])) by {
      assert CreatorIndexKey(info.creator, info.created, a)[1] == |info.creator|;
    }
    assert ShapeOk(HistoryKey(a, 1), EntryV(e)) && ShapeOk(ContractKey(a), ContractV(info));
  }

  /** instantiate: the registry agrees before the response of the new contract is dispatched. */
  lemma PersistKeepsAgreement(s: Store, a: Addr, info: ContractInfo, payload: bytes)
    requires Agreement(s) && ContractKey(a) !in s && CodeKey(info.codeID) in s
    ensures var s' := Apply(s, PersistWrites(s, a, info, payload));
            && Agreement(s') && CodesGrow(s, s') && OthersAgree(s, s', a)
            && Tells(s', a, info, [HistoryEntry(InitOp, info.codeID, info.created, payload)])
  {
    assert AddressOk(s, a);
    var e := HistoryEntry(InitOp, info.codeID, info.created, payload);
    PersistIsFourWrites(s, a, info, payload);
    NewContractShapes(s, a, info, e);
    NewContractOthers(s, a, info, e);
    NewContractPresent(s, a, info, e);
    PresentIsOk(Apply(s, NewContractWrites(a, 1, info, e)), a, info, [e]);
    AgreementAround(s, Apply(s, NewContractWrites(a, 1, info, e)), a);
  }

  // ---------------------------------------------------------------- a migrated contract

  ghost function MoveWrites(a: Addr, n: u64, last: HistoryEntry, info: ContractInfo, e: HistoryEntry): (ws: seq<Write>) {
    [Delete(CodeIndexKey(last.codeID, last.updated, a)), Set(HistoryKey(a, n), EntryV(e)),
     Set(CodeIndexKey(e.codeID, e.updated, a), RawV([])), Set(ContractKey(a), ContractV(info))]
  }

  lemma MigrationIsFourWrites(s: Store, a: Addr, h: seq<HistoryEntry>, last: HistoryEntry, info: ContractInfo, e: HistoryEntry)
    requires TypedHistory(s) && HistoryAt(s, a, h) && |h| + 1 < TWO64
    ensures MigrationWrites(s, a, last, info, e) == MoveWrites(a, |h| + 1, last, info, e)
  {
    assert LastPosition(s, a) == |h| by { GaplessLookup(s, a, h); }
    MigrationList(s, a, last, info, e);
  }

  lemma MoveOthers(s: Store, a: Addr, n: u64, last: HistoryEntry, info: ContractInfo, e: HistoryEntry)
    ensures OthersAgree(s, Apply(s, MoveWrites(a, n, last, info, e)), a)
  {
    OwnsItsKeys(a, last.codeID, [0], last.updated, n);
    OwnsItsKeys(a, e.codeID, [0], e.updated, n);
    var ws := MoveWrites(a, n, last, info, e);
    forall b: Addr | b != a ensures AgreeFor(s, Apply(s, ws), b) {
      FourElsewhere(s, a, b, ws[0], ws[1], ws[2], ws[3]);
    }
  }

  lemma MoveShows(s: Store, a: Addr, n: u64, last: HistoryEntry, info: ContractInfo, e: HistoryEntry)
    ensures var s' := Apply(s, MoveWrites(a, n, last, info, e));
            && ContractKey(a) in s' && s'[ContractKey(a)] == ContractV(info)
            && HistoryKey(a, n) in s' && s'[HistoryKey(a, n)] == EntryV(e)
            && CodeIndexKey(e.codeID, e.updated, a) in s'
            && (!(last.codeID == e.codeID && last.updated == e.updated) ==> CodeIndexKey(last.codeID, last.updated, a) !in s')
  {
    var ws := MoveWrites(a, n, last, info, e);
    KeysOfOneContract(a, last.codeID, [0], last.updated, last.updated, n);
    KeysOfOneContract(a, e.codeID, [0], e.updated, e.updated, n);
    if CodeIndexKey(last.codeID, last.updated, a) == CodeIndexKey(e.codeID, e.updated, a) {
      CodeIndexKeyInjective(last.codeID, last.updated, a, e.codeID, e.updated, a);
    }
    FourShow(s, ws[0], ws[1], ws[2], ws[3]);
  }

  lemma MoveHistory(s: Store, a: Addr, n: u64, last: HistoryEntry, info: ContractInfo, e: HistoryEntry, m: u64)
    requires m != n
    ensures SameAt(s, Apply(s, MoveWrites(a, n, last, info, e)), HistoryKey(a, m))
  {
    var ws := MoveWrites(a, n, last, info, e);
    KeysOfOneContract(a, last.codeID, [0], last.updated, last.updated, m);
    KeysOfOneContract(a, e.codeID, [0], e.updated, e.updated, m);
    if HistoryKey(a, m) == HistoryKey(a, n) { HistoryKeyInjective(a, m, a, n); }
    FourSame(s, ws[0], ws[1], ws[2], ws[3], HistoryKey(a, m));
  }

  lemma MoveCodeIndex(s: Store, a: Addr, n: u64, last: HistoryEntry, info: ContractInfo, e: HistoryEntry, c: u64, p: Position)
    requires !(c == e.codeID && p == e.updated) && !(c == last.codeID && p == last.updated)
    ensures SameAt(s, Apply(s, MoveWrites(a, n, last, info, e)), CodeIndexKey(c, p, a))
  {
    var ws := MoveWrites(a, n, last, info, e);
    KeysOfOneContract(a, c, [0], p, p, n);
    if CodeIndexKey(c, p, a) == CodeIndexKey(e.codeID, e.updated, a) { CodeIndexKeyInjective(c, p, a, e.codeID, e.updated, a); }
    if CodeIndexKey(c, p, a) == CodeIndexKey(last.codeID, last.updated, a) { CodeIndexKeyInjective(c, p, a, last.codeID, last.updated, a); }
    FourSame(s, ws[0], ws[1], ws[2], ws[3], CodeIndexKey(c, p, a));
  }

  lemma MoveCreatorIndex(s: Store, a: Addr, n: u64, last: HistoryEntry, info: ContractInfo, e: HistoryEntry, c: Account, p: Position)
    ensures SameAt(s, Apply(s, MoveWrites(a, n, last, info, e)), CreatorIndexKey(c, p, a))
  {
    var ws := MoveWrites(a, n, last, info, e);
    KeysOfOneContract(a, last.codeID, c, last.updated, p, n);
    KeysOfOneContract(a, e.codeID, c, e.updated, p, n);
    FourSame(s, ws[0], ws[1], ws[2], ws[3], CreatorIndexKey(c, p, a));
  }

  lemma MoveShapes(s: Store, a: Addr, n: u64, last: HistoryEntry, info: ContractInfo, e: HistoryEntry)
    requires Shapes(s)
    ensures Shapes(Apply(s, MoveWrites(a, n, last, info, e))) && CodesGrow(s, Apply(s, MoveWrites(a, n, last, info, e)))
  {
    var ws := MoveWrites(a, n, last, info, e);
    FourWrites(s, ws[0], ws[1], ws[2], ws[3]);
    assert ShapeOk(CodeIndexKey(e.codeID, e.updated, a), RawV([]));
    assert ShapeOk(HistoryKey(a, n), EntryV(e)) && ShapeOk(ContractKey(a), ContractV(info));
  }

  lemma MovePresent(s: Store, a: Addr, held: ContractInfo, h: seq<HistoryEntry>, info: ContractInfo, e: HistoryEntry)
    requires Present(s, a, held, h) && |h| + 1 < TWO64
    requires info.codeID == e.codeID && info.creator == held.creator
    requires CodeKey(info.codeID) in Apply(s, MoveWrites(a, |h| + 1, h[|h| - 1], info, e))
    ensures Present(Apply(s, MoveWrites(a, |h| + 1, h[|h| - 1], info, e)), a, info, h + [e])
  {
    var n, last := |h| + 1, h[|h| - 1];
    var s', h' := Apply(s, MoveWrites(a, n, last, info, e)), h + [e];
    MoveShows(s, a, n, last, info, e);
    MoveCreatorIndex(s, a, n, last, info, e, info.creator, h[0].updated);
    forall m: u64
      ensures HistoryKey(a, m) in s' <==> 1 <= m <= |h'|
      ensures 1 <= m <= |h'| ==> s'[HistoryKey(a, m)] == EntryV(h'[m - 1])
    {
      if m != n { MoveHistory(s, a, n, last, info, e, m); }
    }
    forall c: u64, p: Position | CodeIndexKey(c, p, a) in s' ensures c == info.codeID && p == e.updated {
      if !(c == e.codeID && p == e.updated) && !(c == last.codeID && p == last.updated) { MoveCodeIndex(s, a, n, last, info, e, c, p); }
    }
    forall c: Account, p: Position | CreatorIndexKey(c, p, a) in s' ensures c == info.creator && p == h'[0].updated {
      MoveCreatorIndex(s, a, n, last, info, e, c, p);
    }
  }

  lemma MoveKeepsAgreement(s: Store, a: Addr, held: ContractInfo, h: seq<HistoryEntry>, info: ContractInfo, e: HistoryEntry)
    requires Agreement(s) && Present(s, a, held, h) && |h| + 1 < TWO64 && CodeKey(info.codeID) in s
    requires info.codeID == e.codeID && info.creator == held.creator
    ensures var s' := Apply(s, MoveWrites(a, |h| + 1, h[|h| - 1], info, e));
            Agreement(s') && CodesGrow(s, s') && OthersAgree(s, s', a) && Present(s', a, info, h + [e])
  {
    var last := h[|h| - 1];
    var s' := Apply(s, MoveWrites(a, |h| + 1, last, info, e));
    MoveShapes(s, a, |h| + 1, last, info, e);
    MoveOthers(s, a, |h| + 1, last, info, e);
    MovePresent(s, a, held, h, info, e);
    PresentIsOk(s', a, info, h + [e]);
    AgreementAround(s, s', a);
  }

  /** migrate: one more history entry, the old code-index key gone, the new one in its place. */
  lemma MigrationKeepsAgreement(s: Store, a: Addr, held: ContractInfo, info: ContractInfo, e: HistoryEntry)
    requires Agreement(s) && ContractKey(a) in s && s[ContractKey(a)] == ContractV(held) && CodeKey(info.codeID) in s
    requires info.codeID == e.codeID && info.creator == held.creator
    requires TypedHistory(s) && |HistoryOf(s, a)| + 1 < TWO64
    ensures var h := HistoryOf(s, a);
            h != [] && var s' := Apply(s, MigrationWrites(s, a, h[|h| - 1], info, e));
            Agreement(s') && CodesGrow(s, s') && OthersAgree(s, s', a) && Tells(s', a, info, h + [e])
  {
    var h := HistoryOf(s, a);
    assert Present(s, a, held, h) by { assert AddressOk(s, a); }
    MigrationIsFourWrites(s, a, h, h[|h| - 1], info, e);
    MoveKeepsAgreement(s, a, held, h, info, e);
    PresentIsOk(Apply(s, MoveWrites(a, |h| + 1, h[|h| - 1], info, e)), a, info, h + [e]);
  }

  // ---------------------------------------------------------------- a rewritten record

  /** setContractAdmin and setContractLabel change neither code nor creator. */
  lemma RewriteKeepsAgreement(s: Store, a: Addr, held: ContractInfo, info: ContractInfo)
    requires Agreement(s) && ContractKey(a) in s && s[ContractKey(a)] == ContractV(held)
    requires info.codeID == held.codeID && info.creator == held.creator
    requires TypedHistory(s)
    ensures var s' := s[ContractKey(a) := ContractV(info)];
            && Agreement(s') && CodesGrow(s, s') && OthersAgree(s, s', a)
            && Tells(s', a, info, HistoryOf(s, a))
  {
    var h := HistoryOf(s, a);
    assert Present(s, a, held, h) by { assert AddressOk(s, a); }
    SwapKeepsAgreement(s, a, held, info, h);
    PresentIsOk(s[ContractKey(a) := ContractV(info)], a, info, h);
  }

  lemma SwapKeepsAgreement(s: Store, a: Addr, held: ContractInfo, info: ContractInfo, h: seq<HistoryEntry>)
    requires Agreement(s) && Present(s, a, held, h) && info.codeID == held.codeID && info.creator == held.creator
    ensures var s' := s[ContractKey(a) := ContractV(info)];
            Agreement(s') && CodesGrow(s, s') && OthersAgree(s, s', a) && Present(s', a, info, h)
  {
    var s' := s[ContractKey(a) := ContractV(info)];
    RewriteOthers(s, a, info);
    RewriteShapes(s, a, info);
    RecordSwap(s, a, held, info, h);
    PresentIsOk(s', a, info, h);
    AgreementAround(s, s', a);
  }

  lemma RewriteOthers(s: Store, a: Addr, info: ContractInfo)
    ensures OthersAgree(s, s[ContractKey(a) := ContractV(info)], a)
  {
    OwnsItsKeys(a, 0, [0], Position(0, 0), 0);
    var s' := s[ContractKey(a) := ContractV(info)];
    forall b: Addr | b != a ensures AgreeFor(s, s', b) {
      OneApplied(s, a, b, Set(ContractKey(a), ContractV(info)));
    }
  }

  lemma RewriteShapes(s: Store, a: Addr, info: ContractInfo)
    requires Shapes(s)
    ensures Shapes(s[ContractKey(a) := ContractV(info)]) && CodesGrow(s, s[ContractKey(a) := ContractV(info)])
  {
    assert ShapeOk(ContractKey(a), ContractV(info));
  }

  lemma RecordSwap(s: Store, a: Addr, held: ContractInfo, info: ContractInfo, h: seq<HistoryEntry>)
    requires Present(s, a, held, h) && info.codeID == held.codeID && info.creator == held.creator
    ensures Present(s[ContractKey(a) := ContractV(info)], a, info, h)
  {
    var s' := s[ContractKey(a) := ContractV(info)];
    forall n: u64 ensures SameAt(s, s', HistoryKey(a, n)) { KeysOfOneContract(a, 0, [0], Position(0, 0), Position(0, 0), n); }
    forall c: u64, p: Position ensures SameAt(s, s', CodeIndexKey(c, p, a)) { KeysOfOneContract(a, c, [0], p, p, 0); }
    forall c: Account, p: Position ensures SameAt(s, s', CreatorIndexKey(c, p, a)) { KeysOfOneContract(a, 0, c, p, p, 0); }
    assert CodeKey(info.codeID)[0] != ContractKey(a)[0];
    HistoryAtSame(s, s', a, h);
    OnlyIndexedSame(s, s', a, held, info, h);
  }

  lemma HistoryAtSame(s: Store, s': Store, a: Addr, h: seq<HistoryEntry>)
    requires HistoryAt(s, a, h) && forall n: u64 :: SameAt(s, s', HistoryKey(a, n))
    ensures HistoryAt(s', a, h)
  {}

  lemma OnlyIndexedSame(s: Store, s': Store, a: Addr, held: ContractInfo, info: ContractInfo, h: seq<HistoryEntry>)
    requires h != [] && OnlyIndexed(s, a, held, h) && info.codeID == held.codeID && info.creator == held.creator
    requires forall c: u64, p: Position :: SameAt(s, s', CodeIndexKey(c, p, a))
    requires forall c: Account, p: Position :: SameAt(s, s', CreatorIndexKey(c, p, a))
    ensures OnlyIndexed(s', a, info, h)
  {
    forall c: u64, p: Position | CodeIndexKey(c, p, a) in s' ensures c == info.codeID && p == h[|h| - 1].updated {
      assert SameAt(s, s', CodeIndexKey(c, p, a));
    }
    forall c: Account, p: Position | CreatorIndexKey(c, p, a) in s' ensures c == info.creator && p == h[0].updated {
      assert SameAt(s, s', CreatorIndexKey(c, p, a));
    }
  }
}
