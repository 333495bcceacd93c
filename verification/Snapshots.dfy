/** State-sync snapshots of wasm code: every distinct code once, and a restore that brings all of them back. */
module Snapshots {
  import opened Base
  import opened Types
  import opened Keys
  import opened OrderedStore
  import opened Registry
  import opened KeeperOps
  import opened Pinning

  /** Compression; unpack refuses what is not a gzip. */
  datatype Gzip = Gzip(pack: bytes -> bytes, unpack: bytes -> Option<bytes>)

  ghost predicate Lossless(z: Gzip) {
    forall b: bytes :: z.unpack(z.pack(b)) == Some(b)
  }

  // ---------------------------------------------------------------- the codes of a store

  ghost predicate CodeEntries(s: Store, ks: seq<bytes>) {
    forall i :: 0 <= i < |ks| ==> |ks[i]| == 9 && ks[i] in s && s[ks[i]].CodeV?
  }

  ghost function Hashes(s: Store, ks: seq<bytes>): (r: seq<bytes>)
    requires CodeEntries(s, ks)
    ensures |r| == |ks| && forall i :: 0 <= i < |ks| ==> r[i] == s[ks[i]].code.hash
  {
    if ks == [] then [] else [s[ks[0]].code.hash] + Hashes(s, ks[1..])
  }

  lemma CodeScan(s: Store)
    requires Shapes(s)
    ensures CodeEntries(s, Scan(s, [0x01]))
    ensures forall id: u64 :: CodeKey(id) in s ==> CodeKey(id) in Scan(s, [0x01])
  {
    var ks := Scan(s, [0x01]);
    forall i | 0 <= i < |ks| ensures |ks[i]| == 9 && ks[i] in s && s[ks[i]].CodeV? {
      assert ks[i] in ks;
      assert ShapeOk(ks[i], s[ks[i]]);
    }
  }

  /** The hashes not seen before, in order of their first occurrence. */
  function FirstSeen(hashes: seq<bytes>, seen: set<bytes>): (r: seq<bytes>) {
    if hashes == [] then []
    else if hashes[0] in seen then FirstSeen(hashes[1..], seen)
    else [hashes[0]] + FirstSeen(hashes[1..], seen + {hashes[0]})
  }

  /** Each distinct hash exactly once. */
  lemma {:induction false} FirstSeenOnce(hashes: seq<bytes>, seen: set<bytes>)
    ensures forall x :: x in FirstSeen(hashes, seen) <==> x in hashes && x !in seen
    ensures forall i, j :: 0 <= i < j < |FirstSeen(hashes, seen)| ==> FirstSeen(hashes, seen)[i] != FirstSeen(hashes, seen)[j]
    decreases |hashes|
  {
    if hashes != [] {
      assert forall x :: x in hashes <==> x == hashes[0] || x in hashes[1..];
      if hashes[0] in seen {
        FirstSeenOnce(hashes[1..], seen);
      } else {
        FirstSeenOnce(hashes[1..], seen + {hashes[0]});
        var rest := FirstSeen(hashes[1..], seen + {hashes[0]});
        assert forall j :: 0 <= j < |rest| ==> rest[j] in rest;
      }
    }
  }

  /** What the snapshot holds when every code is found. */
  function Packed(z: Gzip, codes: map<bytes, bytes>, hashes: seq<bytes>): (r: seq<bytes>)
    requires forall x :: x in hashes ==> x in codes
    ensures |r| == |hashes| && forall i :: 0 <= i < |hashes| ==> hashes[i] in codes && r[i] == z.pack(codes[hashes[i]])
  {
    if hashes == [] then [] else [z.pack(codes[hashes[0]])] + Packed(z, codes, hashes[1..])
  }

  /** SnapshotExtension; None is the error of a code the VM does not hold. */
  method SnapshotExtension(kv: KVStore, vm: WasmVM, z: Gzip) returns (payloads: seq<bytes>, ok: bool)
    requires Shapes(kv.data)
    ensures CodeEntries(kv.data, Scan(kv.data, [0x01]))
    ensures ok <==> forall x :: x in Hashes(kv.data, Scan(kv.data, [0x01])) ==> x in vm.codes
    ensures ok ==> var distinct := FirstSeen(Hashes(kv.data, Scan(kv.data, [0x01])), {});
                   (forall x :: x in distinct ==> x in vm.codes) && payloads == Packed(z, vm.codes, distinct)
  {
    CodeScan(kv.data);
    var ks := kv.Iterate([0x01]);
    payloads, ok := PackAlong(kv.data, vm.codes, z, ks);
  }

  lemma PackedMore(z: Gzip, codes: map<bytes, bytes>, done: seq<bytes>, hash: bytes)
    requires (forall x :: x in done ==> x in codes) && hash in codes
    ensures (forall x :: x in done + [hash] ==> x in codes) && Packed(z, codes, done + [hash]) == Packed(z, codes, done) + [z.pack(codes[hash])]
  {}

  lemma FirstSeenStep(hashes: seq<bytes>, i: nat, done: seq<bytes>, seen: set<bytes>)
    requires i < |hashes|
    ensures done + FirstSeen(hashes[i..], seen)
         == if hashes[i] in seen then done + FirstSeen(hashes[i + 1..], seen)
            else (done + [hashes[i]]) + FirstSeen(hashes[i + 1..], seen + {hashes[i]})
  {
    assert hashes[i..][0] == hashes[i] && hashes[i..][1..] == hashes[i + 1..];
    Assoc(done, [hashes[i]], FirstSeen(hashes[i + 1..], seen + {hashes[i]}));
  }

  method PackAlong(s: Store, codes: map<bytes, bytes>, z: Gzip, ks: seq<bytes>) returns (payloads: seq<bytes>, ok: bool)
    requires CodeEntries(s, ks)
    ensures ok <==> forall x :: x in Hashes(s, ks) ==> x in codes
    ensures ok ==> var distinct := FirstSeen(Hashes(s, ks), {});
                   (forall x :: x in distinct ==> x in codes) && payloads == Packed(z, codes, distinct)
  {
    ghost var hashes := Hashes(s, ks);
    ghost var done: seq<bytes> := [];
    var seen: set<bytes> := {};
    payloads := [];
    assert hashes[0..] == hashes;
    for i := 0 to |ks|
      invariant FirstSeen(hashes, {}) == done + FirstSeen(hashes[i..], seen)
      invariant forall j :: 0 <= j < i ==> hashes[j] in codes
      invariant forall x :: x in seen ==> x in codes
      invariant forall x :: x in done ==> x in codes
      invariant payloads == Packed(z, codes, done)
    {
      FirstSeenStep(hashes, i, done, seen);
      var hash := s[ks[i]].code.hash;
      if hash !in seen {
        seen := seen + {hash};
        if hash !in codes {
          assert hash in hashes;
          return payloads, false;
        }
        PackedMore(z, codes, done, hash);
        payloads := payloads + [z.pack(codes[hash])];
        done := done + [hash];
      }
    }
    FirstSeenOnce(hashes, {});
    assert hashes[|ks|..] == [] && done + [] == done;
    ok := true;
  }

  // ---------------------------------------------------------------- restore

  /** The codes of a VM after storing every payload; None when one is not a gzip. */
  function Restored(z: Gzip, checksum: bytes -> bytes, codes: map<bytes, bytes>, payloads: seq<bytes>): (r: Option<map<bytes, bytes>>)
    decreases |payloads|
  {
    if payloads == [] then Some(codes)
    else
      match z.unpack(payloads[0])
      case None => None
      case Some(wasm) => Restored(z, checksum, codes[checksum(wasm) := wasm], payloads[1..])
  }

  /** RestoreExtension: the payloads up to the end of the stream, then the pinned codes of the store. */
  method ProcessAllItems(kv: KVStore, vm: WasmVM, z: Gzip, payloads: seq<bytes>) returns (r: Result<(), Error>)
    requires vm.Valid() && Shapes(kv.data)
    modifies vm
    ensures vm.Valid()
    ensures Restored(z, vm.checksum, old(vm.codes), payloads).None? ==> r == Failure(ErrInvalid)
    ensures Restored(z, vm.checksum, old(vm.codes), payloads).Some? ==> vm.codes == Restored(z, vm.checksum, old(vm.codes), payloads).value
    ensures r.Success? <==> Restored(z, vm.checksum, old(vm.codes), payloads).Some? && Ready(kv.data, vm)
    ensures r.Success? && old(vm.pinned) == {} ==> vm.pinned == PinnedHashes(kv.data)
  {
    assert payloads[0..] == payloads;
    for i := 0 to |payloads|
      invariant vm.Valid() && vm.pinned == old(vm.pinned)
      invariant Restored(z, vm.checksum, vm.codes, payloads[i..]) == Restored(z, vm.checksum, old(vm.codes), payloads)
    {
      assert payloads[i..][0] == payloads[i] && payloads[i..][1..] == payloads[i + 1..];
      var wasm := z.unpack(payloads[i]);
      if wasm == None { return Failure(ErrInvalid); }
      var _ := vm.StoreCodeUnchecked(wasm.value);
    }
    assert payloads[|payloads|..] == [];
    r := InitializePinnedCodes(kv, vm);
  }

  /** The codes of the listed hashes on top of what was there. */
  ghost predicate Adds(into: map<bytes, bytes>, codes: map<bytes, bytes>, hashes: seq<bytes>, r: map<bytes, bytes>) {
    && (forall x :: x in r <==> x in into || x in hashes)
    && (forall x :: x in hashes ==> x in codes && x in r && r[x] == codes[x])
    && (forall x :: x in into && x !in hashes ==> x in r && r[x] == into[x])
  }

  lemma {:induction false} UnpackAll(z: Gzip, checksum: bytes -> bytes, codes: map<bytes, bytes>, hashes: seq<bytes>, into: map<bytes, bytes>)
    requires Lossless(z) && (forall x :: x in hashes ==> x in codes) && (forall x :: x in codes ==> checksum(codes[x]) == x)
    ensures var r := Restored(z, checksum, into, Packed(z, codes, hashes)); r.Some? && Adds(into, codes, hashes, r.value)
    decreases |hashes|
  {
    if hashes != [] {
      var into' := into[hashes[0] := codes[hashes[0]]];
      assert Packed(z, codes, hashes)[1..] == Packed(z, codes, hashes[1..]);
      UnpackAll(z, checksum, codes, hashes[1..], into');
      assert forall x :: x in hashes <==> x == hashes[0] || x in hashes[1..];
    }
  }

  /** A fresh VM restored from the snapshot of a store holds exactly the codes that store refers to. */
  lemma SnapshotRestoresCodes(s: Store, z: Gzip, checksum: bytes -> bytes, codes: map<bytes, bytes>)
    requires Shapes(s) && Lossless(z) && (forall x :: x in codes ==> checksum(codes[x]) == x)
    requires CodeEntries(s, Scan(s, [0x01])) && forall x :: x in Hashes(s, Scan(s, [0x01])) ==> x in codes
    ensures var hashes := Hashes(s, Scan(s, [0x01]));
            var distinct := FirstSeen(hashes, {});
            && (forall x :: x in distinct ==> x in codes)
            && var r := Restored(z, checksum, map[], Packed(z, codes, distinct));
               r.Some? && (forall x :: x in r.value <==> x in hashes) && (forall x :: x in hashes ==> r.value[x] == codes[x])
  {
    var hashes := Hashes(s, Scan(s, [0x01]));
    FirstSeenOnce(hashes, {});
    UnpackAll(z, checksum, codes, FirstSeen(hashes, {}), map[]);
  }

  /** Every pin of the store has its code in a VM with these codes. */
  ghost predicate PinsHeld(s: Store, codes: map<bytes, bytes>) {
    forall x :: x in PinnedHashes(s) ==> x in codes
  }

  lemma RestoredPinsHeld(s: Store, codes: map<bytes, bytes>)
    requires Shapes(s) && CodeEntries(s, Scan(s, [0x01])) && forall x :: x in Hashes(s, Scan(s, [0x01])) ==> x in codes
    ensures PinsHeld(s, codes)
  {
    var ks := Scan(s, [0x01]);
    CodeScan(s);
    forall x | x in PinnedHashes(s) ensures x in codes {
      var k :| k in s && IsPinKey(k) && GetCode(s, PinnedID(k)).Some? && GetCode(s, PinnedID(k)).value.hash == x;
      var i :| 0 <= i < |ks| && ks[i] == CodeKey(PinnedID(k));
      assert Hashes(s, ks)[i] == x;
    }
  }

  /**
   * A node that restores a store's own snapshot into a fresh VM always succeeds, holds exactly the
   * codes the store refers to, with their bytes, and pins exactly the pinned ones.
   */
  method RestoreOwnSnapshot(kv: KVStore, vm: WasmVM, z: Gzip) returns (node: WasmVM, r: Result<(), Error>)
    requires vm.Valid() && Shapes(kv.data) && Lossless(z) && CodeEntries(kv.data, Scan(kv.data, [0x01]))
    requires forall x :: x in Hashes(kv.data, Scan(kv.data, [0x01])) ==> x in vm.codes
    requires forall id: u64 :: IsPinned(kv.data, id) ==> GetCode(kv.data, id).Some?
    ensures fresh(node) && r.Success? && node.pinned == PinnedHashes(kv.data)
    ensures forall x :: x in node.codes <==> x in Hashes(kv.data, Scan(kv.data, [0x01]))
    ensures forall x :: x in node.codes ==> x in vm.codes && node.codes[x] == vm.codes[x]
  {
    node := new WasmVM(vm.checksum);
    var payloads, ok := SnapshotExtension(kv, vm, z);
    SnapshotRestoresCodes(kv.data, z, vm.checksum, vm.codes);
    r := ProcessAllItems(kv, node, z, payloads);
    RestoredPinsHeld(kv.data, node.codes);
  }
}
