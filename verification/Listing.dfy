/** Listing contracts by code or by creator reads an index; the lists are exact and in order. */
module Listing {
  import opened Base
  import opened Types
  import opened Keys
  import opened OrderedStore
  import opened History
  import opened Registry
  import opened KeeperOps
  import opened Engine
  import opened BookSteps
  import opened Books
  import opened CallPoints

  /** What the callback of an index iteration sees: each key behind the prefix and the position. */
  ghost function Cut(ks: seq<bytes>, n: nat): (r: seq<bytes>)
    requires forall i :: 0 <= i < |ks| ==> n <= |ks[i]|
    ensures |r| == |ks| && forall i :: 0 <= i < |ks| ==> r[i] == ks[i][n..]
  {
    if ks == [] then [] else [ks[0][n..]] + Cut(ks[1..], n)
  }

  ghost predicate LongEnough(ks: seq<bytes>, n: nat) {
    forall i :: 0 <= i < |ks| ==> n <= |ks[i]|
  }

  method CutAll(ks: seq<bytes>, n: nat) returns (r: seq<bytes>)
    requires LongEnough(ks, n)
    ensures r == Cut(ks, n)
  {
    r := [];
    for i := 0 to |ks|
      invariant |r| == i && forall j :: 0 <= j < i ==> r[j] == ks[j][n..]
    {
      r := r + [ks[i][n..]];
    }
  }

  // ---------------------------------------------------------------- positions in the order of keys

  predicate Earlier(p: Position, q: Position) {
    p.height < q.height || (p.height == q.height && p.index < q.index)
  }

  lemma {:induction false} BeforeSplit(a: bytes, b: bytes, x: bytes, y: bytes)
    requires |a| == |b|
    ensures Before(a + x, b + y) <==> Before(a, b) || (a == b && Before(x, y))
    decreases |a|
  {
    if a == [] {
      assert a + x == x && b + y == y;
    } else {
      assert (a + x)[1..] == a[1..] + x && (b + y)[1..] == b[1..] + y;
      assert a == [a[0]] + a[1..] && b == [b[0]] + b[1..];
      BeforeSplit(a[1..], b[1..], x, y);
    }
  }

  lemma PositionOrder(p: Position, q: Position)
    ensures Before(PositionBytes(p), PositionBytes(q)) <==> Earlier(p, q)
  {
    BeforeSplit(BE8(p.height), BE8(q.height), BE8(p.index), BE8(q.index));
    BE8Order(p.height, q.height);
    BE8Order(p.index, q.index);
    if BE8(p.height) == BE8(q.height) { BE8Injective(p.height, q.height); }
  }

  function Decoded(b: bytes): (p: Position)
    requires |b| == 16
    ensures PositionBytes(p) == b
  {
    BE8Onto(b[..8]);
    BE8Onto(b[8..]);
    Position(FromBE8(b[..8]), FromBE8(b[8..]))
  }

  // ---------------------------------------------------------------- by code

  ghost predicate HasCode(s: Store, a: bytes, id: u64) {
    |a| <= 255 && GetContract(s, a).Some? && GetContract(s, a).value.codeID == id
  }

  ghost function LastUpdate(s: Store, a: Addr): (p: Position)
    requires TypedHistory(s) && HistoryOf(s, a) != []
  {
    var h := HistoryOf(s, a);
    h[|h| - 1].updated
  }

  /** A key in the index of a code is the key of a contract with that code, at its last update. */
  lemma CodeIndexEntry(s: Store, id: u64, k: bytes) returns (p: Position, a: Addr)
    requires Agreement(s) && k in s && CodeIndexPrefix(id) <= k
    ensures k == CodeIndexKey(id, p, a) && HasCode(s, a, id)
    ensures TypedHistory(s) && HistoryOf(s, a) != [] && p == LastUpdate(s, a)
  {
    assert k[0] == CodeIndexPrefix(id)[0];
    assert ShapeOk(k, s[k]);
    p, a := Decoded(k[9..25]), k[25..];
    assert k == k[..9] + k[9..25] + k[25..];
    assert k[..9] == CodeIndexPrefix(id);
    assert AddressOk(s, a);
  }

  /** The index key of a contract with that code. */
  lemma CodeIndexed(s: Store, id: u64, a: Addr)
    requires Agreement(s) && HasCode(s, a, id)
    ensures TypedHistory(s) && HistoryOf(s, a) != []
    ensures CodeIndexKey(id, LastUpdate(s, a), a) in Scan(s, CodeIndexPrefix(id))
  {
    assert AddressOk(s, a);
    var k := CodeIndexKey(id, LastUpdate(s, a), a);
    assert k[..9] == CodeIndexPrefix(id);
  }

  ghost function ByCode(s: Store, id: u64): (r: seq<bytes>)
    requires Agreement(s)
  {
    CodeScanLong(s, id);
    Cut(Scan(s, CodeIndexPrefix(id)), 25)
  }

  lemma CodeScanLong(s: Store, id: u64)
    requires Agreement(s)
    ensures LongEnough(Scan(s, CodeIndexPrefix(id)), 25)
  {
    var ks := Scan(s, CodeIndexPrefix(id));
    forall i | 0 <= i < |ks| ensures 25 <= |ks[i]| {
      assert ks[i] in ks;
      var p, a := CodeIndexEntry(s, id, ks[i]);
    }
  }

  lemma CodeListed(s: Store, id: u64, i: nat)
    requires Agreement(s) && i < |ByCode(s, id)|
    ensures HasCode(s, ByCode(s, id)[i], id) && TypedHistory(s) && HistoryOf(s, ByCode(s, id)[i]) != []
    ensures Scan(s, CodeIndexPrefix(id))[i] == CodeIndexKey(id, LastUpdate(s, ByCode(s, id)[i]), ByCode(s, id)[i])
  {
    var ks := Scan(s, CodeIndexPrefix(id));
    assert ks[i] in ks;
    var p, a := CodeIndexEntry(s, id, ks[i]);
    assert ks[i][25..] == a;
  }

  /** Exactly the contracts with that code, each once, ascending by last update and then by address. */
  lemma ListingByCodeIsExact(s: Store, id: u64)
    requires Agreement(s)
    ensures forall a :: a in ByCode(s, id) <==> HasCode(s, a, id)
    ensures forall i, j :: 0 <= i < j < |ByCode(s, id)| ==> ByCode(s, id)[i] != ByCode(s, id)[j]
  {
    var ks, r := Scan(s, CodeIndexPrefix(id)), ByCode(s, id);
    forall a | a in r ensures HasCode(s, a, id) {
      var i :| 0 <= i < |r| && r[i] == a;
      CodeListed(s, id, i);
    }
    forall a | HasCode(s, a, id) ensures a in r {
      CodeIndexed(s, id, a);
      var i :| 0 <= i < |ks| && ks[i] == CodeIndexKey(id, LastUpdate(s, a), a);
      assert ks[i][25..] == a;
      assert r[i] == a;
    }
    forall i, j | 0 <= i < j < |r| ensures r[i] != r[j] {
      CodeListed(s, id, i);
      CodeListed(s, id, j);
      assert Before(ks[i], ks[j]);
      BeforeIrreflexive(ks[i]);
    }
  }

  lemma ListingByCodeIsOrdered(s: Store, id: u64, i: nat, j: nat)
    requires Agreement(s) && i < j < |ByCode(s, id)|
    ensures var a, b := ByCode(s, id)[i], ByCode(s, id)[j];
            && |a| <= 255 && |b| <= 255 && TypedHistory(s) && HistoryOf(s, a) != [] && HistoryOf(s, b) != []
            && (Earlier(LastUpdate(s, a), LastUpdate(s, b)) || (LastUpdate(s, a) == LastUpdate(s, b) && Before(a, b)))
  {
    var ks, r := Scan(s, CodeIndexPrefix(id)), ByCode(s, id);
    CodeListed(s, id, i);
    CodeListed(s, id, j);
    assert Before(ks[i], ks[j]);
    IndexOrder(CodeIndexPrefix(id), LastUpdate(s, r[i]), r[i], LastUpdate(s, r[j]), r[j]);
  }

  /** Index keys under one prefix are ordered by position, then by address. */
  lemma IndexOrder(prefix: bytes, p: Position, a: Addr, q: Position, b: Addr)
    ensures Before(prefix + PositionBytes(p) + a, prefix + PositionBytes(q) + b) <==> Earlier(p, q) || (p == q && Before(a, b))
  {
    Assoc(prefix, PositionBytes(p), a);
    Assoc(prefix, PositionBytes(q), b);
    BeforePrefixed(prefix, PositionBytes(p) + a, PositionBytes(q) + b);
    BeforeSplit(PositionBytes(p), PositionBytes(q), a, b);
    PositionOrder(p, q);
    if PositionBytes(p) == PositionBytes(q) { PositionBytesInjective(p, q); }
  }

  // ---------------------------------------------------------------- by creator

  ghost predicate HasCreator(s: Store, a: bytes, c: Account) {
    |a| <= 255 && GetContract(s, a).Some? && GetContract(s, a).value.creator == c
  }

  ghost function FirstUpdate(s: Store, a: Addr): (p: Position)
    requires TypedHistory(s) && HistoryOf(s, a) != []
  {
    HistoryOf(s, a)[0].updated
  }

  lemma CreatorIndexEntry(s: Store, c: Account, k: bytes) returns (p: Position, a: Addr)
    requires Agreement(s) && k in s && CreatorPrefix(c) <= k
    ensures k == CreatorIndexKey(c, p, a) && HasCreator(s, a, c)
    ensures TypedHistory(s) && HistoryOf(s, a) != [] && p == FirstUpdate(s, a)
  {
    var n := |c| + 2;
    assert k[0] == CreatorPrefix(c)[0] && k[1] == CreatorPrefix(c)[1];
    assert ShapeOk(k, s[k]);
    p, a := Decoded(k[n..n + 16]), k[n + 16..];
    assert k == k[..n] + k[n..n + 16] + k[n + 16..];
    assert k[..n] == CreatorPrefix(c);
    assert AddressOk(s, a);
  }

  ghost function ByCreator(s: Store, c: Account): (r: seq<bytes>)
    requires Agreement(s)
  {
    CreatorScanLong(s, c);
    Cut(Scan(s, CreatorPrefix(c)), |c| + 18)
  }

  lemma CreatorScanLong(s: Store, c: Account)
    requires Agreement(s)
    ensures LongEnough(Scan(s, CreatorPrefix(c)), |c| + 18)
  {
    var ks := Scan(s, CreatorPrefix(c));
    forall i | 0 <= i < |ks| ensures |c| + 18 <= |ks[i]| {
      assert ks[i] in ks;
      var p, a := CreatorIndexEntry(s, c, ks[i]);
    }
  }

  lemma CreatorListed(s: Store, c: Account, i: nat)
    requires Agreement(s) && i < |ByCreator(s, c)|
    ensures HasCreator(s, ByCreator(s, c)[i], c) && TypedHistory(s) && HistoryOf(s, ByCreator(s, c)[i]) != []
    ensures Scan(s, CreatorPrefix(c))[i] == CreatorIndexKey(c, FirstUpdate(s, ByCreator(s, c)[i]), ByCreator(s, c)[i])
  {
    var ks := Scan(s, CreatorPrefix(c));
    assert ks[i] in ks;
    var p, a := CreatorIndexEntry(s, c, ks[i]);
    assert ks[i][|c| + 18..] == a;
  }

  /** Exactly the contracts of that creator, each once. */
  lemma ListingByCreatorIsExact(s: Store, c: Account)
    requires Agreement(s)
    ensures forall a :: a in ByCreator(s, c) <==> HasCreator(s, a, c)
    ensures forall i, j :: 0 <= i < j < |ByCreator(s, c)| ==> ByCreator(s, c)[i] != ByCreator(s, c)[j]
  {
    var ks, r := Scan(s, CreatorPrefix(c)), ByCreator(s, c);
    forall a | a in r ensures HasCreator(s, a, c) {
      var i :| 0 <= i < |r| && r[i] == a;
      CreatorListed(s, c, i);
    }
    forall a | HasCreator(s, a, c) ensures a in r {
      CreatorIndexed(s, c, a);
      var i :| 0 <= i < |ks| && ks[i] == CreatorIndexKey(c, FirstUpdate(s, a), a);
      assert ks[i][|c| + 18..] == a;
      assert r[i] == a;
    }
    forall i, j | 0 <= i < j < |r| ensures r[i] != r[j] {
      CreatorListed(s, c, i);
      CreatorListed(s, c, j);
      assert Before(ks[i], ks[j]);
      BeforeIrreflexive(ks[i]);
    }
  }

  lemma CreatorIndexed(s: Store, c: Account, a: Addr)
    requires Agreement(s) && HasCreator(s, a, c)
    ensures TypedHistory(s) && HistoryOf(s, a) != []
    ensures CreatorIndexKey(c, FirstUpdate(s, a), a) in Scan(s, CreatorPrefix(c))
  {
    assert AddressOk(s, a);
    CreatorKeyPrefix(c, FirstUpdate(s, a), a);
  }

  lemma CreatorKeyPrefix(c: Account, p: Position, a: Addr)
    ensures CreatorPrefix(c) <= CreatorIndexKey(c, p, a)
  {}

  lemma ListingByCreatorIsOrdered(s: Store, c: Account, i: nat, j: nat)
    requires Agreement(s) && i < j < |ByCreator(s, c)|
    ensures var a, b := ByCreator(s, c)[i], ByCreator(s, c)[j];
            && |a| <= 255 && |b| <= 255 && TypedHistory(s) && HistoryOf(s, a) != [] && HistoryOf(s, b) != []
            && (Earlier(FirstUpdate(s, a), FirstUpdate(s, b)) || (FirstUpdate(s, a) == FirstUpdate(s, b) && Before(a, b)))
  {
    var ks, r := Scan(s, CreatorPrefix(c)), ByCreator(s, c);
    CreatorListed(s, c, i);
    CreatorListed(s, c, j);
    assert Before(ks[i], ks[j]);
    IndexOrder(CreatorPrefix(c), FirstUpdate(s, r[i]), r[i], FirstUpdate(s, r[j]), r[j]);
  }

  // ---------------------------------------------------------------- IterateContractsByCode, IterateContractsByCreator

  method ListContractsByCode(kv: KVStore, id: u64) returns (r: seq<bytes>)
    requires Agreement(kv.data)
    ensures r == ByCode(kv.data, id)
  {
    var ks := kv.Iterate(CodeIndexPrefix(id));
    CodeScanLong(kv.data, id);
    r := CutAll(ks, 25);
  }

  method ListContractsByCreator(kv: KVStore, c: Account) returns (r: seq<bytes>)
    requires Agreement(kv.data)
    ensures r == ByCreator(kv.data, c)
  {
    var ks := kv.Iterate(CreatorPrefix(c));
    CreatorScanLong(kv.data, c);
    r := CutAll(ks, |c| + 18);
  }

  // ---------------------------------------------------------------- at every call of a run

  /** Both listings are exact, for every code and every creator. */
  ghost predicate ListsExactly(s: Store) {
    && Agreement(s)
    && (forall id: u64, a :: a in ByCode(s, id) <==> HasCode(s, a, id))
    && (forall c: Account, a :: a in ByCreator(s, c) <==> HasCreator(s, a, c))
  }

  lemma AgreementLists(s: Store)
    requires Agreement(s)
    ensures ListsExactly(s)
  {
    forall id: u64, a ensures a in ByCode(s, id) <==> HasCode(s, a, id) { ListingByCodeIsExact(s, id); }
    forall c: Account, a ensures a in ByCreator(s, c) <==> HasCreator(s, a, c) { ListingByCreatorIsExact(s, c); }
  }

  /** Whatever a contract could ask at any call of a run below 2^64 calls, the answer is exact. */
  lemma CallsSeeExactLists(h: Host, base: nat, w: World, txs: seq<Tx>)
    requires w.journal == [] && BookClaim(base).store(w.store, w.tick)
    ensures var j := Chain(KeeperEnv(h), w, txs).journal;
            forall i :: 0 <= i < |j| && j[i].Called? && base + j[i].tick < MAX_U64 ==> ListsExactly(j[i].store)
  {
    RunsKeepBook(h, base, w, txs);
    ListsAtCalls(h, base, Chain(KeeperEnv(h), w, txs).journal);
  }

  lemma ListsAtCalls(h: Host, base: nat, j: seq<Token>)
    requires CallsHold(KeeperEnv(h), BookClaim(base), j)
    ensures forall i :: 0 <= i < |j| && j[i].Called? && base + j[i].tick < MAX_U64 ==> ListsExactly(j[i].store)
  {
    forall i | 0 <= i < |j| && j[i].Called? && base + j[i].tick < MAX_U64 ensures ListsExactly(j[i].store) {
      assert BookClaim(base).store(j[i].store, j[i].tick);
      ClaimAgrees(base, j[i].store, j[i].tick);
      AgreementLists(j[i].store);
    }
  }

  lemma ClaimAgrees(base: nat, s: Store, t: nat)
    requires BookClaim(base).store(s, t) && base + t < MAX_U64
    ensures Agreement(s)
  {
    var p := BookClaim(base);
    assert p.store(s, t) == BookBy(base + t, s);
  }
}
