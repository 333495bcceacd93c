/**
 * The code history of a contract. All entries of all contracts share one prefix, and the
 * addresses in it have no length prefix, so a scan for one contract can also visit entries of
 * contracts whose longer address starts with its own. Only keys with exactly eight bytes
 * behind the address count.
 */
module History {
  import opened Base
  import opened Types
  import opened Keys
  import opened OrderedStore

  /** The history keys of a contract, in store order. */
  ghost function OwnKeys(s: Store, a: Addr): (r: seq<bytes>) {
    Ascending(set k | k in s && HistoryPrefix(a) <= k && |k| == |HistoryPrefix(a)| + 8)
  }

  function PositionOf(a: Addr, k: bytes): (p: u64)
    requires |k| == |HistoryPrefix(a)| + 8
  {
    FromBE8(k[|HistoryPrefix(a)|..])
  }

  ghost predicate TypedHistory(s: Store) {
    forall k :: k in s && |k| > 0 && k[0] == 0x05 ==> s[k].EntryV?
  }

  ghost function Entries(s: Store, ks: seq<bytes>): (r: seq<HistoryEntry>)
    requires forall k :: k in ks ==> k in s && s[k].EntryV?
    ensures |r| == |ks|
  {
    if ks == [] then [] else [s[ks[0]].entry] + Entries(s, ks[1..])
  }

  /** The entries of a contract in the order of their positions. */
  ghost function HistoryOf(s: Store, a: Addr): (r: seq<HistoryEntry>)
    requires TypedHistory(s)
  {
    OwnKeysTyped(s, a);
    Entries(s, OwnKeys(s, a))
  }

  /** The position of the last entry, 0 when there is none. */
  ghost function LastPosition(s: Store, a: Addr): (p: u64) {
    var ks := OwnKeys(s, a);
    if ks == [] then 0
    else
      assert ks[|ks| - 1] in ks;
      PositionOf(a, ks[|ks| - 1])
  }

  lemma OwnKeysTyped(s: Store, a: Addr)
    requires TypedHistory(s)
    ensures forall k :: k in OwnKeys(s, a) ==> k in s && s[k].EntryV?
  {
    assert forall k :: HistoryPrefix(a) <= k ==> k[0] == HistoryPrefix(a)[0];
  }

  /** Eight bytes behind the address are a position and nothing else, whatever other addresses exist. */
  lemma OwnKeysAreHistoryKeys(s: Store, a: Addr, k: bytes)
    ensures k in OwnKeys(s, a) <==>
            k in s && |k| == |HistoryPrefix(a)| + 8 && k == HistoryKey(a, PositionOf(a, k))
    ensures k in OwnKeys(s, a) ==> HistoryPrefix(a) <= k
  {
    if |k| == |HistoryPrefix(a)| + 8 {
      BE8Onto(k[|HistoryPrefix(a)|..]);
      assert HistoryPrefix(a) <= k ==> k == HistoryPrefix(a) + k[|HistoryPrefix(a)|..];
    }
  }

  /** Own entries come in strictly increasing position order. */
  lemma PositionsIncrease(s: Store, a: Addr, i: nat, j: nat)
    requires i < j < |OwnKeys(s, a)|
    ensures var ks := OwnKeys(s, a);
            |ks[i]| == |ks[j]| == |HistoryPrefix(a)| + 8 && PositionOf(a, ks[i]) < PositionOf(a, ks[j])
  {
    var ks := OwnKeys(s, a);
    assert ks[i] in ks && ks[j] in ks;
    OwnKeysAreHistoryKeys(s, a, ks[i]);
    OwnKeysAreHistoryKeys(s, a, ks[j]);
    var p, q := PositionOf(a, ks[i]), PositionOf(a, ks[j]);
    BeforePrefixed(HistoryPrefix(a), BE8(p), BE8(q));
    BE8Order(p, q);
  }

  lemma PositionBack(a: Addr, p: u64)
    ensures PositionOf(a, HistoryKey(a, p)) == p
  {
    assert HistoryKey(a, p)[|HistoryPrefix(a)|..] == BE8(p);
    BE8RoundTrip(p);
  }

  /** The reverse scan finds the highest position there is. */
  lemma LastIsHighest(s: Store, a: Addr, p: u64)
    requires HistoryKey(a, p) in s
    ensures p <= LastPosition(s, a) && HistoryKey(a, LastPosition(s, a)) in s
  {
    var ks, k := OwnKeys(s, a), HistoryKey(a, p);
    PositionBack(a, p);
    OwnKeysAreHistoryKeys(s, a, k);
    var i :| 0 <= i < |ks| && ks[i] == k;
    OwnKeysAreHistoryKeys(s, a, ks[|ks| - 1]);
    if i < |ks| - 1 { PositionsIncrease(s, a, i, |ks| - 1); }
  }

  // ---------------------------------------------------------------- gapless histories

  /** The history of a is exactly h, at positions 1 to |h|. */
  ghost predicate HistoryAt(s: Store, a: Addr, h: seq<HistoryEntry>) {
    && |h| < TWO64
    && (forall p: u64 :: HistoryKey(a, p) in s <==> 1 <= p <= |h|)
    && (forall p: u64 :: 1 <= p <= |h| ==> s[HistoryKey(a, p)] == EntryV(h[p - 1]))
  }

  ghost function KeysUpTo(a: Addr, n: nat): (r: seq<bytes>)
    requires n < TWO64
    ensures |r| == n && forall i :: 0 <= i < n ==> r[i] == HistoryKey(a, i + 1)
  {
    seq(n, i requires 0 <= i < n => HistoryKey(a, i + 1))
  }

  lemma KeysUpToAscend(a: Addr, n: nat)
    requires n < TWO64
    ensures Ascends(KeysUpTo(a, n))
  {
    var r := KeysUpTo(a, n);
    forall i, j | 0 <= i < j < |r| ensures Before(r[i], r[j]) { HistoryKeyOrder(a, i + 1, j + 1); }
  }

  lemma HistoryKeyOrder(a: Addr, p: u64, q: u64)
    ensures Before(HistoryKey(a, p), HistoryKey(a, q)) <==> p < q
  {
    BeforePrefixed(HistoryPrefix(a), BE8(p), BE8(q));
    BE8Order(p, q);
  }

  lemma OwnKeysUpTo(s: Store, a: Addr, h: seq<HistoryEntry>)
    requires HistoryAt(s, a, h)
    ensures OwnKeys(s, a) == KeysUpTo(a, |h|)
  {
    var r := KeysUpTo(a, |h|);
    var own := set k | k in s && HistoryPrefix(a) <= k && |k| == |HistoryPrefix(a)| + 8;
    forall k ensures k in r <==> k in own {
      if k in own { OwnIsListed(s, a, h, k); }
      if k in r { ListedIsOwn(s, a, h, k); }
    }
    KeysUpToAscend(a, |h|);
    AscendingUnique(r, own);
  }

  lemma OwnIsListed(s: Store, a: Addr, h: seq<HistoryEntry>, k: bytes)
    requires HistoryAt(s, a, h) && k in s && OwnShape(a, k)
    ensures k in KeysUpTo(a, |h|)
  {
    OwnKeysAreHistoryKeys(s, a, k);
    assert KeysUpTo(a, |h|)[PositionOf(a, k) - 1] == k;
  }

  lemma ListedIsOwn(s: Store, a: Addr, h: seq<HistoryEntry>, k: bytes)
    requires HistoryAt(s, a, h) && k in KeysUpTo(a, |h|)
    ensures k in s && OwnShape(a, k)
  {
    var r := KeysUpTo(a, |h|);
    var i :| 0 <= i < |r| && r[i] == k;
    assert HistoryKey(a, i + 1) in s;
  }

  lemma {:induction false} EntriesAt(s: Store, ks: seq<bytes>, i: nat)
    requires forall k :: k in ks ==> k in s && s[k].EntryV?
    requires i < |ks|
    ensures Entries(s, ks)[i] == s[ks[i]].entry
  {
    if i > 0 { EntriesAt(s, ks[1..], i - 1); }
  }

  /** A gapless history is what the lookups return: its list, its length and its last entry. */
  lemma GaplessLookup(s: Store, a: Addr, h: seq<HistoryEntry>)
    requires TypedHistory(s) && HistoryAt(s, a, h)
    ensures HistoryOf(s, a) == h && LastPosition(s, a) == |h|
  {
    OwnKeysUpTo(s, a, h);
    var ks := OwnKeys(s, a);
    OwnKeysTyped(s, a);
    forall i | 0 <= i < |h| ensures HistoryOf(s, a)[i] == h[i] {
      EntriesAt(s, ks, i);
      assert s[HistoryKey(a, i + 1)] == EntryV(h[i]);
    }
    if ks != [] {
      assert ks[|ks| - 1] == HistoryKey(a, |h|);
      assert ks[|ks| - 1][|HistoryPrefix(a)|..] == BE8(|h|);
      BE8RoundTrip(|h|);
    }
  }

  // ---------------------------------------------------------------- appending

  /** The writes of appendToContractHistory behind position pos; positions are 64-bit words. */
  function NextPosition(pos: u64): (r: u64) {
    if pos == MAX_U64 then 0 else pos + 1
  }

  function HistoryWrites(a: Addr, pos: u64, entries: seq<HistoryEntry>): (ws: seq<Write>)
    decreases |entries|
  {
    if entries == [] then []
    else
      var next := NextPosition(pos);
      [Set(HistoryKey(a, next), EntryV(entries[0]))] + HistoryWrites(a, next, entries[1..])
  }

  ghost function Appended(s: Store, a: Addr, entries: seq<HistoryEntry>): (r: Store) {
    Apply(s, HistoryWrites(a, LastPosition(s, a), entries))
  }

  /** A key that a lookup for a takes for one of its own. */
  predicate OwnShape(a: Addr, k: bytes) {
    HistoryPrefix(a) <= k && |k| == |HistoryPrefix(a)| + 8
  }

  ghost predicate SameOutside(s: Store, s': Store, a: Addr) {
    forall k :: !OwnShape(a, k) ==> (k in s <==> k in s') && (k in s ==> s[k] == s'[k])
  }

  lemma OwnShapeIsOwn(a: Addr, b: Addr, p: u64)
    ensures OwnShape(a, HistoryKey(b, p)) <==> a == b
  {
    if OwnShape(a, HistoryKey(b, p)) {
      var k := HistoryKey(b, p);
      assert k == HistoryPrefix(a) + k[|HistoryPrefix(a)|..];
      SplitEqual(HistoryPrefix(a), k[|HistoryPrefix(a)|..], HistoryPrefix(b), BE8(p));
      SplitEqual([0x05], a, [0x05], b);
    }
  }

  /** The same writes one key at a time. */
  ghost function AppendAt(s: Store, a: Addr, n: nat, entries: seq<HistoryEntry>): (r: Store)
    requires n + |entries| < TWO64
    decreases |entries|
  {
    if entries == [] then s
    else AppendAt(s[HistoryKey(a, n + 1) := EntryV(entries[0])], a, n + 1, entries[1..])
  }

  lemma {:induction false} WritesAreAppends(s: Store, a: Addr, n: nat, entries: seq<HistoryEntry>)
    requires n + |entries| < TWO64
    ensures Apply(s, HistoryWrites(a, n, entries)) == AppendAt(s, a, n, entries)
    decreases |entries|
  {
    if entries != [] {
      var next: u64 := NextPosition(n);
      var w := Set(HistoryKey(a, next), EntryV(entries[0]));
      ApplyCons(s, w, HistoryWrites(a, next, entries[1..]));
      WritesAreAppends(ApplyOne(s, w), a, next, entries[1..]);
    }
  }

  lemma {:induction false} AppendKeepsHistory(s: Store, a: Addr, h: seq<HistoryEntry>, entries: seq<HistoryEntry>, all: seq<HistoryEntry>)
    requires HistoryAt(s, a, h) && |h| + |entries| < TWO64 && all == h + entries
    ensures HistoryAt(AppendAt(s, a, |h|, entries), a, all)
    decreases |entries|
  {
    if entries == [] {
      assert all == h;
    } else {
      OneMore(s, a, h, entries[0]);
      AppendStep(s, a, h, entries, all);
      AppendKeepsHistory(s[HistoryKey(a, |h| + 1) := EntryV(entries[0])], a, h + [entries[0]], entries[1..], all);
    }
  }

  lemma AppendStep(s: Store, a: Addr, h: seq<HistoryEntry>, entries: seq<HistoryEntry>, all: seq<HistoryEntry>)
    requires entries != [] && |h| + |entries| < TWO64 && all == h + entries
    ensures all == (h + [entries[0]]) + entries[1..]
    ensures AppendAt(s, a, |h|, entries)
         == AppendAt(s[HistoryKey(a, |h| + 1) := EntryV(entries[0])], a, |h + [entries[0]]|, entries[1..])
  {
    assert entries == [entries[0]] + entries[1..];
    Assoc(h, [entries[0]], entries[1..]);
  }

  lemma SetSameOutside(s: Store, a: Addr, p: u64, v: Value)
    ensures SameOutside(s, s[HistoryKey(a, p) := v], a)
  {
    OwnShapeIsOwn(a, a, p);
  }

  lemma {:induction false} AppendSameOutside(s: Store, a: Addr, n: nat, entries: seq<HistoryEntry>)
    requires n + |entries| < TWO64
    ensures SameOutside(s, AppendAt(s, a, n, entries), a)
    decreases |entries|
  {
    if entries != [] {
      var s' := s[HistoryKey(a, n + 1) := EntryV(entries[0])];
      var s'' := AppendAt(s', a, n + 1, entries[1..]);
      SetSameOutside(s, a, n + 1, EntryV(entries[0]));
      AppendSameOutside(s', a, n + 1, entries[1..]);
      SameOutsideTrans(s, s', s'', a);
      assert AppendAt(s, a, n, entries) == s'';
    }
  }

  lemma WritesAppend(s: Store, a: Addr, h: seq<HistoryEntry>, entries: seq<HistoryEntry>)
    requires HistoryAt(s, a, h) && |h| + |entries| < TWO64
    ensures HistoryAt(Apply(s, HistoryWrites(a, |h|, entries)), a, h + entries)
    ensures SameOutside(s, Apply(s, HistoryWrites(a, |h|, entries)), a)
  {
    WritesAreAppends(s, a, |h|, entries);
    AppendKeepsHistory(s, a, h, entries, h + entries);
    AppendSameOutside(s, a, |h|, entries);
  }

  lemma SameOutsideTrans(s: Store, s': Store, s'': Store, a: Addr)
    requires SameOutside(s, s', a) && SameOutside(s', s'', a)
    ensures SameOutside(s, s'', a)
  {}

  lemma OneMore(s: Store, a: Addr, h: seq<HistoryEntry>, e: HistoryEntry)
    requires HistoryAt(s, a, h) && |h| + 1 < TWO64
    ensures HistoryAt(s[HistoryKey(a, |h| + 1) := EntryV(e)], a, h + [e])
  {
    var s' := s[HistoryKey(a, |h| + 1) := EntryV(e)];
    forall p: u64
      ensures HistoryKey(a, p) in s' <==> 1 <= p <= |h| + 1
      ensures 1 <= p <= |h| + 1 ==> s'[HistoryKey(a, p)] == EntryV((h + [e])[p - 1])
    {
      if HistoryKey(a, p) == HistoryKey(a, |h| + 1) { HistoryKeyInjective(a, p, a, |h| + 1); }
    }
  }

  /** Appending to a gapless history continues it, next to any contracts with longer or shorter addresses. */
  lemma AppendContinues(s: Store, a: Addr, h: seq<HistoryEntry>, entries: seq<HistoryEntry>)
    requires TypedHistory(s) && HistoryAt(s, a, h) && |h| + |entries| < TWO64
    ensures HistoryAt(Appended(s, a, entries), a, h + entries)
    ensures SameOutside(s, Appended(s, a, entries), a)
    ensures forall b: Addr, g :: b != a && HistoryAt(s, b, g) ==> HistoryAt(Appended(s, a, entries), b, g)
  {
    GaplessLookup(s, a, h);
    WritesAppend(s, a, h, entries);
    var s' := Appended(s, a, entries);
    forall b: Addr, g | b != a && HistoryAt(s, b, g) ensures HistoryAt(s', b, g) {
      OthersKept(s, s', a, b, g);
    }
  }

  lemma OthersKept(s: Store, s': Store, a: Addr, b: Addr, g: seq<HistoryEntry>)
    requires SameOutside(s, s', a) && b != a && HistoryAt(s, b, g)
    ensures HistoryAt(s', b, g)
  {
    forall p: u64 ensures !OwnShape(a, HistoryKey(b, p)) { OwnShapeIsOwn(a, b, p); }
  }

  // ---------------------------------------------------------------- the scans as they run

  method AppendToContractHistory(kv: KVStore, a: Addr, entries: seq<HistoryEntry>)
    modifies kv
    ensures kv.data == Appended(old(kv.data), a, entries)
  {
    var pos: u64 := FindLastPosition(kv, a);
    ghost var before := kv.data;
    ghost var first := pos;
    for i := 0 to |entries|
      invariant 0 <= pos < TWO64
      invariant Apply(before, HistoryWrites(a, first, entries)) == Apply(kv.data, HistoryWrites(a, pos, entries[i..]))
    {
      assert entries[i..][0] == entries[i] && entries[i..][1..] == entries[i + 1..];
      pos := NextPosition(pos);
      var key := BuildHistoryKey(a, pos);
      ApplyCons(kv.data, Write.Set(HistoryKey(a, pos), EntryV(entries[i])), HistoryWrites(a, pos, entries[i + 1..]));
      kv.Set(key[..], EntryV(entries[i]));
    }
    assert entries[|entries|..] == [];
  }

  /** Scans backwards for the first key of the right length. */
  method LastOfLength(ks: seq<bytes>, n: nat) returns (k: Option<bytes>)
    ensures var own := OfLength(ks, n); k == if own == [] then None else Some(own[|own| - 1])
    ensures k.Some? ==> |k.value| == n && k.value in ks
  {
    var i := |ks|;
    assert ks[..|ks|] == ks;
    while i > 0
      invariant 0 <= i <= |ks| && OfLength(ks, n) == OfLength(ks[..i], n)
    {
      i := i - 1;
      OfLengthConcat(ks[..i], [ks[i]], n);
      assert ks[..i + 1] == ks[..i] + [ks[i]];
      var one: seq<bytes> := [ks[i]];
      assert one[1..] == [];
      if |ks[i]| == n { return Some(ks[i]); }
    }
    return None;
  }

  method FindLastPosition(kv: KVStore, a: Addr) returns (pos: u64)
    ensures pos == LastPosition(kv.data, a)
  {
    var ks := kv.Iterate(HistoryPrefix(a));
    OfLengthIsScan(kv.data, HistoryPrefix(a), |HistoryPrefix(a)| + 8);
    var last := LastOfLength(ks, |HistoryPrefix(a)| + 8);
    pos := if last.None? then 0 else PositionOf(a, last.value);
  }

  /** The entries at the keys of length n, in the order of the keys. */
  ghost function Collect(s: Store, ks: seq<bytes>, n: nat): (r: seq<HistoryEntry>)
    requires forall k :: k in ks ==> k in s && s[k].EntryV?
  {
    if ks == [] then [] else (if |ks[0]| == n then [s[ks[0]].entry] else []) + Collect(s, ks[1..], n)
  }

  lemma {:induction false} CollectIsFilter(s: Store, ks: seq<bytes>, n: nat)
    requires forall k :: k in ks ==> k in s && s[k].EntryV?
    ensures forall k :: k in OfLength(ks, n) ==> k in s && s[k].EntryV?
    ensures Collect(s, ks, n) == Entries(s, OfLength(ks, n))
  {
    OfLengthMembers(ks, n);
    if ks != [] {
      CollectIsFilter(s, ks[1..], n);
      if |ks[0]| == n {
        assert OfLength(ks, n)[1..] == OfLength(ks[1..], n);
      } else {
        assert OfLength(ks, n) == OfLength(ks[1..], n);
      }
    }
  }

  lemma CollectStep(s: Store, ks: seq<bytes>, i: nat, n: nat)
    requires i < |ks| && forall k :: k in ks ==> k in s && s[k].EntryV?
    ensures Collect(s, ks[i..], n) == (if |ks[i]| == n then [s[ks[i]].entry] else []) + Collect(s, ks[i + 1..], n)
  {
    assert ks[i..][1..] == ks[i + 1..];
  }

  lemma ScanTyped(s: Store, a: Addr)
    requires TypedHistory(s)
    ensures forall k :: k in Scan(s, HistoryPrefix(a)) ==> k in s && s[k].EntryV?
    ensures HistoryOf(s, a) == Collect(s, Scan(s, HistoryPrefix(a)), |HistoryPrefix(a)| + 8)
  {
    ScannedEntries(s, a);
    CollectIsFilter(s, Scan(s, HistoryPrefix(a)), |HistoryPrefix(a)| + 8);
    OfLengthIsScan(s, HistoryPrefix(a), |HistoryPrefix(a)| + 8);
  }

  lemma ScannedEntries(s: Store, a: Addr)
    requires TypedHistory(s)
    ensures forall k :: k in Scan(s, HistoryPrefix(a)) ==> k in s && s[k].EntryV?
  {
    forall k | k in Scan(s, HistoryPrefix(a)) ensures k in s && s[k].EntryV? {
      assert k[0] == HistoryPrefix(a)[0];
    }
  }

  /** Scans forward and keeps the entries whose key has the right length. */
  method GetContractHistory(kv: KVStore, a: Addr) returns (r: seq<HistoryEntry>)
    requires TypedHistory(kv.data)
    ensures r == HistoryOf(kv.data, a)
  {
    var ks := kv.Iterate(HistoryPrefix(a));
    ScanTyped(kv.data, a);
    r := ReadEntries(kv.data, ks, |HistoryPrefix(a)| + 8);
  }

  method ReadEntries(s: Store, ks: seq<bytes>, n: nat) returns (r: seq<HistoryEntry>)
    requires forall k :: k in ks ==> k in s && s[k].EntryV?
    ensures r == Collect(s, ks, n)
  {
    r := [];
    for i := 0 to |ks|
      invariant Collect(s, ks, n) == r + Collect(s, ks[i..], n)
    {
      CollectStep(s, ks, i, n);
      if |ks[i]| == n {
        r := r + [s[ks[i]].entry];
      }
    }
    assert ks[|ks|..] == [];
  }

  /** The entry with the highest position; None is the panic on a contract without history. */
  method LastHistoryEntry(kv: KVStore, a: Addr) returns (r: Option<HistoryEntry>)
    requires TypedHistory(kv.data)
    ensures var h := HistoryOf(kv.data, a); r == if h == [] then None else Some(h[|h| - 1])
  {
    var ks := kv.Iterate(HistoryPrefix(a));
    ScanTyped(kv.data, a);
    OfLengthIsScan(kv.data, HistoryPrefix(a), |HistoryPrefix(a)| + 8);
    var last := LastOfLength(ks, |HistoryPrefix(a)| + 8);
    if last.None? { return None; }
    ghost var own := OwnKeys(kv.data, a);
    OwnKeysTyped(kv.data, a);
    EntriesAt(kv.data, own, |own| - 1);
    return Some(kv.data[last.value].entry);
  }
}
