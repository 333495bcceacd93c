/**
 * Pinned codes: the index in the store and the cache of the wasm VM. The cache survives rolled
 * back transactions, so every pin and unpin sets it from the store anew. The VM is reduced to
 * the codes it holds and the set it keeps pinned.
 */
module Pinning {
  import opened Base
  import opened Types
  import opened Keys
  import opened OrderedStore
  import opened Registry
  import opened KeeperOps

  // ---------------------------------------------------------------- what the store says

  predicate IsPinKey(k: bytes) {
    |k| == 9 && k[0] == 0x07
  }

  /** ParsePinnedCodeIndex on the key behind the prefix. */
  function PinnedID(k: bytes): (id: u64)
    requires |k| == 9
  {
    FromBE8(k[1..])
  }

  lemma PinnedIDOf(id: u64)
    ensures IsPinKey(PinKey(id)) && PinnedID(PinKey(id)) == id
  {
    assert PinKey(id)[1..] == BE8(id);
    BE8RoundTrip(id);
  }

  lemma PinKeyOf(k: bytes)
    requires IsPinKey(k)
    ensures PinKey(PinnedID(k)) == k
  {
    BE8Onto(k[1..]);
  }

  /** The hashes of the pinned codes. */
  ghost function PinnedHashes(s: Store): (r: set<bytes>) {
    set k | k in s && IsPinKey(k) && GetCode(s, PinnedID(k)).Some? :: GetCode(s, PinnedID(k)).value.hash
  }

  lemma PinnedHash(s: Store, x: bytes)
    ensures x in PinnedHashes(s) <==> exists id: u64 :: IsPinned(s, id) && GetCode(s, id).Some? && GetCode(s, id).value.hash == x
  {
    if x in PinnedHashes(s) {
      var k :| k in s && IsPinKey(k) && GetCode(s, PinnedID(k)).Some? && GetCode(s, PinnedID(k)).value.hash == x;
      PinKeyOf(k);
      assert IsPinned(s, PinnedID(k));
    }
    if exists id: u64 :: IsPinned(s, id) && GetCode(s, id).Some? && GetCode(s, id).value.hash == x {
      var id: u64 :| IsPinned(s, id) && GetCode(s, id).Some? && GetCode(s, id).value.hash == x;
      PinnedIDOf(id);
    }
  }

  // ---------------------------------------------------------------- the virtual machine

  class WasmVM {
    const checksum: bytes -> bytes
    var codes: map<bytes, bytes>
    var pinned: set<bytes>

    ghost predicate Valid()
      reads this
    {
      forall c :: c in codes ==> checksum(codes[c]) == c
    }

    constructor (checksum: bytes -> bytes)
      ensures Valid() && codes == map[] && pinned == {} && this.checksum == checksum
    {
      this.checksum := checksum;
      codes := map[];
      pinned := {};
    }

    method StoreCodeUnchecked(wasm: bytes) returns (hash: bytes)
      requires Valid()
      modifies this`codes
      ensures Valid() && hash == checksum(wasm) && codes == old(codes)[hash := wasm]
    {
      hash := checksum(wasm);
      codes := codes[hash := wasm];
    }

    /** Pins exactly these codes; it fails without effect when one of them is not stored. */
    method SyncPinnedCodes(cs: seq<bytes>) returns (ok: bool)
      modifies this`pinned
      ensures ok <==> forall i :: 0 <= i < |cs| ==> cs[i] in codes
      ensures pinned == if ok then (set c | c in cs) else old(pinned)
    {
      for i := 0 to |cs|
        invariant forall j :: 0 <= j < i ==> cs[j] in codes
        invariant pinned == old(pinned)
      {
        if cs[i] !in codes { return false; }
      }
      pinned := set c | c in cs;
      ok := true;
    }
  }

  // ---------------------------------------------------------------- collectPinnedChecksums

  ghost predicate PinKeys(ks: seq<bytes>) {
    forall i :: 0 <= i < |ks| ==> |ks[i]| == 9
  }

  /** The hashes found along a scan of the pin index, or None at a pin without a code. */
  ghost function Collected(s: Store, ks: seq<bytes>, exclude: Option<u64>): (r: Option<seq<bytes>>)
    requires PinKeys(ks)
  {
    if ks == [] then Some([])
    else if exclude == Some(PinnedID(ks[0])) then Collected(s, ks[1..], exclude)
    else if GetCode(s, PinnedID(ks[0])).None? then None
    else Joined([GetCode(s, PinnedID(ks[0])).value.hash], Collected(s, ks[1..], exclude))
  }

  function Joined(sums: seq<bytes>, rest: Option<seq<bytes>>): (r: Option<seq<bytes>>) {
    match rest
    case None => None
    case Some(more) => Some(sums + more)
  }

  lemma CollectedStep(s: Store, ks: seq<bytes>, exclude: Option<u64>, i: nat, sums: seq<bytes>)
    requires PinKeys(ks) && i < |ks|
    ensures var id := PinnedID(ks[i]);
            Joined(sums, Collected(s, ks[i..], exclude))
            == (if exclude == Some(id) then Joined(sums, Collected(s, ks[i + 1..], exclude))
                else if GetCode(s, id).None? then None
                else Joined(sums + [GetCode(s, id).value.hash], Collected(s, ks[i + 1..], exclude)))
  {
    assert ks[i..][0] == ks[i] && ks[i..][1..] == ks[i + 1..];
    var rest := Collected(s, ks[i + 1..], exclude);
    var code := GetCode(s, PinnedID(ks[i]));
    if rest.Some? && code.Some? { Assoc(sums, [code.value.hash], rest.value); }
  }

  method CollectAlong(s: Store, ks: seq<bytes>, exclude: Option<u64>) returns (r: Option<seq<bytes>>)
    requires PinKeys(ks)
    ensures r == Collected(s, ks, exclude)
  {
    var sums: seq<bytes> := [];
    assert ks[0..] == ks;
    JoinedNone(Collected(s, ks, exclude));
    for i := 0 to |ks|
      invariant Joined(sums, Collected(s, ks[i..], exclude)) == Collected(s, ks, exclude)
    {
      CollectedStep(s, ks, exclude, i, sums);
      if exclude != Some(PinnedID(ks[i])) {
        var code := GetCode(s, PinnedID(ks[i]));
        if code == None { return None; }
        sums := sums + [code.value.hash];
      }
    }
    assert ks[|ks|..] == [] && sums + [] == sums;
    r := Some(sums);
  }

  lemma JoinedNone(rest: Option<seq<bytes>>)
    ensures Joined([], rest) == rest
  {
    if rest.Some? { assert [] + rest.value == rest.value; }
  }

  lemma PinScan(s: Store)
    requires Shapes(s)
    ensures PinKeys(Scan(s, [0x07])) && forall k :: k in Scan(s, [0x07]) <==> k in s && IsPinKey(k)
  {
    var ks := Scan(s, [0x07]);
    forall k ensures k in ks <==> k in s && IsPinKey(k) {
      if k in s { assert ShapeOk(k, s[k]); }
    }
    forall i | 0 <= i < |ks| ensures |ks[i]| == 9 { assert ks[i] in ks; }
  }

  /** A pin that counts: not the excluded one. */
  predicate Counts(k: bytes, exclude: Option<u64>)
    requires |k| == 9
  {
    exclude != Some(PinnedID(k))
  }

  /** A scan without a dangling pin collects exactly the hashes of the pins it passes. */
  lemma {:induction false} CollectedHashes(s: Store, ks: seq<bytes>, exclude: Option<u64>)
    requires PinKeys(ks)
    ensures Collected(s, ks, exclude).Some? <==> forall i :: 0 <= i < |ks| && Counts(ks[i], exclude) ==> GetCode(s, PinnedID(ks[i])).Some?
    ensures Collected(s, ks, exclude).Some? ==>
              forall x :: x in Collected(s, ks, exclude).value <==>
                exists i :: 0 <= i < |ks| && Counts(ks[i], exclude) && GetCode(s, PinnedID(ks[i])).value.hash == x
  {
    if ks != [] {
      CollectedHashes(s, ks[1..], exclude);
      assert forall i :: 0 < i < |ks| ==> ks[1..][i - 1] == ks[i];
      assert forall i :: 0 <= i < |ks[1..]| ==> ks[1..][i] == ks[i + 1];
    }
  }

  // ---------------------------------------------------------------- pin and unpin

  /** The store after a pin or an unpin. */
  function Marked(s: Store, id: u64, pin: bool): (r: Store) {
    if pin then s[PinKey(id) := RawV([1])] else s - {PinKey(id)}
  }

  lemma MarkedCodes(s: Store, id: u64, pin: bool, j: u64)
    ensures GetCode(Marked(s, id, pin), j) == GetCode(s, j)
  {
    assert CodeKey(j)[0] == 0x01 && PinKey(id)[0] == 0x07;
  }

  /** The hashes pinned after the step, from a collected list: all others, and the new one. */
  ghost predicate HashesAfter(s: Store, id: u64, pin: bool, sums: seq<bytes>) {
    PinnedHashes(Marked(s, id, pin)) == set x | x in sums
  }

  lemma PinHashes(s: Store, id: u64, sums: seq<bytes>)
    requires Shapes(s) && GetCode(s, id).Some? && PinKeys(Scan(s, [0x07])) && Collected(s, Scan(s, [0x07]), None) == Some(sums)
    ensures HashesAfter(s, id, true, sums + [GetCode(s, id).value.hash])
  {
    PinScan(s);
    forall x ensures x in PinnedHashes(Marked(s, id, true)) <==> x in sums + [GetCode(s, id).value.hash] {
      OnePinHash(s, Scan(s, [0x07]), id, sums, x);
    }
  }

  lemma OnePinHash(s: Store, ks: seq<bytes>, id: u64, sums: seq<bytes>, x: bytes)
    requires PinKeys(ks) && Collected(s, ks, None) == Some(sums) && (forall k :: k in ks <==> k in s && IsPinKey(k)) && GetCode(s, id).Some?
    ensures x in PinnedHashes(Marked(s, id, true)) <==> x in sums || x == GetCode(s, id).value.hash
  {
    var s' := Marked(s, id, true);
    PinnedIDOf(id);
    CollectedHashes(s, ks, None);
    if x in PinnedHashes(s') {
      var k :| k in s' && IsPinKey(k) && GetCode(s', PinnedID(k)).Some? && GetCode(s', PinnedID(k)).value.hash == x;
      MarkedCodes(s, id, true, PinnedID(k));
      if k != PinKey(id) {
        var i :| 0 <= i < |ks| && ks[i] == k;
        assert Counts(ks[i], None);
      }
    }
    if x in sums {
      var i :| 0 <= i < |ks| && Counts(ks[i], None) && GetCode(s, PinnedID(ks[i])).value.hash == x;
      MarkedCodes(s, id, true, PinnedID(ks[i]));
      assert ks[i] in ks && ks[i] in s';
    }
    if x == GetCode(s, id).value.hash {
      MarkedCodes(s, id, true, id);
      assert PinKey(id) in s';
    }
  }

  lemma UnpinHashes(s: Store, id: u64, sums: seq<bytes>)
    requires Shapes(s) && PinKeys(Scan(s, [0x07])) && Collected(s, Scan(s, [0x07]), Some(id)) == Some(sums)
    ensures HashesAfter(s, id, false, sums)
  {
    var ks, s' := Scan(s, [0x07]), Marked(s, id, false);
    PinScan(s);
    PinnedIDOf(id);
    CollectedHashes(s, ks, Some(id));
    forall x ensures x in PinnedHashes(s') <==> x in sums {
      if x in PinnedHashes(s') {
        var k :| k in s' && IsPinKey(k) && GetCode(s', PinnedID(k)).Some? && GetCode(s', PinnedID(k)).value.hash == x;
        MarkedCodes(s, id, false, PinnedID(k));
        PinKeyOf(k);
        var i :| 0 <= i < |ks| && ks[i] == k;
        assert Counts(ks[i], Some(id));
      }
      if x in sums {
        var i :| 0 <= i < |ks| && Counts(ks[i], Some(id)) && GetCode(s, PinnedID(ks[i])).value.hash == x;
        MarkedCodes(s, id, false, PinnedID(ks[i]));
        assert ks[i] in ks && ks[i] in s';
      }
    }
  }

  /** After a successful pin the VM pins exactly the pinned codes, whatever it pinned before. */
  method PinCode(kv: KVStore, vm: WasmVM, id: u64) returns (r: Result<(), Error>)
    requires Shapes(kv.data)
    modifies kv, vm`pinned
    ensures r.Success? ==> kv.data == Marked(old(kv.data), id, true) && vm.pinned == PinnedHashes(kv.data)
    ensures r.Failure? ==> kv.data == old(kv.data) && vm.pinned == old(vm.pinned)
    ensures GetCode(old(kv.data), id).None? ==> r == Failure(ErrNoSuchCode)
    ensures r.Failure? ==> r.error == ErrNoSuchCode || r.error == ErrSyncPinned
    ensures old(Ready(kv.data, vm)) && GetCode(old(kv.data), id).Some? && GetCode(old(kv.data), id).value.hash in vm.codes ==> r.Success?
    ensures r.Success? ==> forall x :: x in PinnedHashes(kv.data) ==> x in vm.codes
  {
    var code := GetCode(kv.data, id);
    if code == None { return Failure(ErrNoSuchCode); }
    PinScan(kv.data);
    var ks := kv.Iterate([0x07]);
    var sums := CollectAlong(kv.data, ks, None);
    ReadyMeans(kv.data, vm, ks);
    if sums.Some? { AllHashes(kv.data, sums.value); }
    if sums == None { return Failure(ErrNoSuchCode); }
    PinHashes(kv.data, id, sums.value);
    var ok := vm.SyncPinnedCodes(sums.value + [code.value.hash]);
    if !ok { return Failure(ErrSyncPinned); }
    kv.Set(PinKey(id), RawV([1]));
    r := Success(());
  }

  /** The same for an unpin: a hash stays pinned as long as another pinned code shares it. */
  method UnpinCode(kv: KVStore, vm: WasmVM, id: u64) returns (r: Result<(), Error>)
    requires Shapes(kv.data)
    modifies kv, vm`pinned
    ensures r.Success? ==> kv.data == Marked(old(kv.data), id, false) && vm.pinned == PinnedHashes(kv.data)
    ensures r.Failure? ==> kv.data == old(kv.data) && vm.pinned == old(vm.pinned)
    ensures GetCode(old(kv.data), id).None? ==> r == Failure(ErrNoSuchCode)
  {
    var code := GetCode(kv.data, id);
    if code == None { return Failure(ErrNoSuchCode); }
    PinScan(kv.data);
    var ks := kv.Iterate([0x07]);
    var sums := CollectAlong(kv.data, ks, Some(id));
    if sums == None { return Failure(ErrNoSuchCode); }
    UnpinHashes(kv.data, id, sums.value);
    var ok := vm.SyncPinnedCodes(sums.value);
    if !ok { return Failure(ErrSyncPinned); }
    kv.Delete(PinKey(id));
    r := Success(());
  }

  /** No pin points to a missing code, and the VM holds the code of every pin. */
  ghost predicate Ready(s: Store, vm: WasmVM)
    reads vm
  {
    && (forall id: u64 :: IsPinned(s, id) ==> GetCode(s, id).Some?)
    && (forall x :: x in PinnedHashes(s) ==> x in vm.codes)
  }

  lemma AllHashes(s: Store, sums: seq<bytes>)
    requires Shapes(s) && PinKeys(Scan(s, [0x07])) && Collected(s, Scan(s, [0x07]), None) == Some(sums)
    ensures PinnedHashes(s) == set x | x in sums
  {
    PinScan(s);
    forall x ensures x in PinnedHashes(s) <==> x in sums { OneHash(s, Scan(s, [0x07]), sums, x); }
  }

  lemma OneHash(s: Store, ks: seq<bytes>, sums: seq<bytes>, x: bytes)
    requires PinKeys(ks) && Collected(s, ks, None) == Some(sums) && (forall k :: k in ks <==> k in s && IsPinKey(k))
    ensures x in PinnedHashes(s) <==> x in sums
  {
    CollectedHashes(s, ks, None);
    if x in PinnedHashes(s) {
      var k :| k in s && IsPinKey(k) && GetCode(s, PinnedID(k)).Some? && GetCode(s, PinnedID(k)).value.hash == x;
      var i :| 0 <= i < |ks| && ks[i] == k;
      assert Counts(ks[i], None);
    }
    if x in sums {
      var i :| 0 <= i < |ks| && Counts(ks[i], None) && GetCode(s, PinnedID(ks[i])).value.hash == x;
      assert ks[i] in ks;
    }
  }

  /**
   * Startup and the end of a snapshot restore. With nothing pinned the cache is left alone, so
   * store and cache agree afterwards exactly when something is pinned or the cache was empty.
   */
  method InitializePinnedCodes(kv: KVStore, vm: WasmVM) returns (r: Result<(), Error>)
    requires Shapes(kv.data)
    modifies vm`pinned
    ensures r.Success? ==> (vm.pinned == PinnedHashes(kv.data) <==> PinnedHashes(kv.data) != {} || old(vm.pinned) == {})
    ensures r.Success? && PinnedHashes(kv.data) == {} ==> vm.pinned == old(vm.pinned)
    ensures r.Success? <==> Ready(kv.data, vm)
    ensures r.Failure? ==> vm.pinned == old(vm.pinned)
  {
    PinScan(kv.data);
    var ks := kv.Iterate([0x07]);
    var sums := CollectAlong(kv.data, ks, None);
    ReadyMeans(kv.data, vm, ks);
    if sums == None { return Failure(ErrNoSuchCode); }
    AllHashes(kv.data, sums.value);
    if |sums.value| == 0 { return Success(()); }
    assert sums.value[0] in PinnedHashes(kv.data);
    var ok := vm.SyncPinnedCodes(sums.value);
    if !ok { return Failure(ErrPinFailed); }
    r := Success(());
  }

  lemma ReadyMeans(s: Store, vm: WasmVM, ks: seq<bytes>)
    requires Shapes(s) && ks == Scan(s, [0x07]) && PinKeys(ks)
    ensures Collected(s, ks, None).None? ==> !Ready(s, vm)
    ensures Collected(s, ks, None).Some? ==> forall id: u64 :: IsPinned(s, id) ==> GetCode(s, id).Some?
  {
    PinScan(s);
    CollectedHashes(s, ks, None);
    if Collected(s, ks, None).None? {
      var i :| 0 <= i < |ks| && Counts(ks[i], None) && GetCode(s, PinnedID(ks[i])).None?;
      PinKeyOf(ks[i]);
      assert ks[i] in ks;
      assert IsPinned(s, PinnedID(ks[i]));
    } else {
      forall id: u64 | IsPinned(s, id) ensures GetCode(s, id).Some? {
        PinnedIDOf(id);
        var i :| 0 <= i < |ks| && ks[i] == PinKey(id);
        assert Counts(ks[i], None);
      }
    }
  }
}
