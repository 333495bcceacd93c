/**
 * Contract records, code history and the two secondary indexes tell the same story.
 *
 * For every address the store holds either nothing at all, or a contract record together with
 * a gapless history whose last entry names the record's code, exactly one code-index key built
 * from that last entry, and exactly one creator-index key built from the first.
 */
module Registry {
  import opened Base
  import opened Types
  import opened Keys
  import opened OrderedStore
  import opened History

  // ---------------------------------------------------------------- shapes of keys and values

  predicate ShapeOk(k: bytes, v: Value) {
    |k| > 0
    && (k[0] == 0x01 ==> |k| == 9 && v.CodeV?)
    && (k[0] == 0x02 ==> |k| <= 256 && v.ContractV?)
    && (k[0] == 0x03 ==> v.RawV?)
    && (k[0] == 0x04 ==> v.RawV? && |v.raw| == 8)
    && (k[0] == 0x05 ==> 9 <= |k| <= 264 && v.EntryV?)
    && (k[0] == 0x06 ==> 25 <= |k| <= 280 && v == RawV([]))
    && (k[0] == 0x07 ==> |k| == 9 && v == RawV([1]))
    && (k[0] == 0x09 ==> |k| >= 2 && 0 < k[1] <= |k| - 18 && |k| - 273 <= k[1] && v == RawV([]))
  }

  ghost predicate Shapes(s: Store) {
    forall k {:trigger ShapeOk(k, s[k])} :: k in s ==> ShapeOk(k, s[k])
  }

  lemma ShapesTyped(s: Store)
    requires Shapes(s)
    ensures TypedHistory(s)
  {
    forall k | k in s && |k| > 0 && k[0] == 0x05 ensures s[k].EntryV? {
      assert ShapeOk(k, s[k]);
    }
  }

  // ---------------------------------------------------------------- one address

  /** Record and history of a contract agree, and both index keys are there. */
  ghost predicate Linked(s: Store, a: Addr, info: ContractInfo, h: seq<HistoryEntry>) {
    && h != [] && HistoryAt(s, a, h)
    && h[|h| - 1].codeID == info.codeID
    && CodeIndexKey(info.codeID, h[|h| - 1].updated, a) in s
    && CreatorIndexKey(info.creator, h[0].updated, a) in s
  }

  /** No other index key mentions the contract. */
  ghost predicate OnlyIndexed(s: Store, a: Addr, info: ContractInfo, h: seq<HistoryEntry>)
    requires h != []
  {
    && (forall c: u64, p: Position :: CodeIndexKey(c, p, a) in s ==> c == info.codeID && p == h[|h| - 1].updated)
    && (forall c: Account, p: Position :: CreatorIndexKey(c, p, a) in s ==> c == info.creator && p == h[0].updated)
  }

  ghost predicate Absent(s: Store, a: Addr) {
    && ContractKey(a) !in s
    && HistoryAt(s, a, [])
    && (forall c: u64, p: Position :: CodeIndexKey(c, p, a) !in s)
    && (forall c: Account, p: Position :: CreatorIndexKey(c, p, a) !in s)
  }

  ghost predicate Present(s: Store, a: Addr, info: ContractInfo, h: seq<HistoryEntry>) {
    && ContractKey(a) in s && s[ContractKey(a)] == ContractV(info)
    && CodeKey(info.codeID) in s
    && Linked(s, a, info, h) && OnlyIndexed(s, a, info, h)
  }

  ghost predicate AddressOk(s: Store, a: Addr) {
    if ContractKey(a) in s then
      TypedHistory(s) && s[ContractKey(a)].ContractV? && Present(s, a, s[ContractKey(a)].contract, HistoryOf(s, a))
    else Absent(s, a)
  }

  /** The claim about the whole store. */
  ghost predicate Agreement(s: Store) {
    Shapes(s) && forall a: Addr :: AddressOk(s, a)
  }

  lemma PresentIsOk(s: Store, a: Addr, info: ContractInfo, h: seq<HistoryEntry>)
    requires Shapes(s) && Present(s, a, info, h)
    ensures AddressOk(s, a) && HistoryOf(s, a) == h
  {
    ShapesTyped(s);
    GaplessLookup(s, a, h);
  }

  // ---------------------------------------------------------------- stores that agree about an address

  predicate SameAt(s: Store, s': Store, k: bytes) {
    (k in s <==> k in s') && (k in s ==> s[k] == s'[k])
  }

  ghost predicate AgreeFor(s: Store, s': Store, a: Addr) {
    && SameAt(s, s', ContractKey(a))
    && (forall p: u64 :: SameAt(s, s', HistoryKey(a, p)))
    && (forall c: u64, p: Position :: SameAt(s, s', CodeIndexKey(c, p, a)))
    && (forall c: Account, p: Position :: SameAt(s, s', CreatorIndexKey(c, p, a)))
  }

  ghost predicate CodesGrow(s: Store, s': Store) {
    forall id: u64 :: CodeKey(id) in s ==> CodeKey(id) in s'
  }

  lemma HistoryAtAgrees(s: Store, s': Store, a: Addr, h: seq<HistoryEntry>)
    requires AgreeFor(s, s', a) && HistoryAt(s, a, h)
    ensures HistoryAt(s', a, h)
  {
    forall p: u64 ensures SameAt(s, s', HistoryKey(a, p)) {}
  }

  lemma AddressKept(s: Store, s': Store, a: Addr)
    requires Shapes(s') && AgreeFor(s, s', a) && CodesGrow(s, s') && AddressOk(s, a)
    ensures AddressOk(s', a)
    ensures ContractKey(a) in s ==> ContractKey(a) in s' && TypedHistory(s) && TypedHistory(s') && HistoryOf(s', a) == HistoryOf(s, a)
  {
    if ContractKey(a) in s {
      var info, h := s[ContractKey(a)].contract, HistoryOf(s, a);
      HistoryAtAgrees(s, s', a, h);
      assert SameAt(s, s', CodeIndexKey(info.codeID, h[|h| - 1].updated, a));
      assert SameAt(s, s', CreatorIndexKey(info.creator, h[0].updated, a));
      OnlyIndexedAgrees(s, s', a, info, h);
      PresentIsOk(s', a, info, h);
    } else {
      HistoryAtAgrees(s, s', a, []);
      AbsentAgrees(s, s', a);
    }
  }

  lemma OnlyIndexedAgrees(s: Store, s': Store, a: Addr, info: ContractInfo, h: seq<HistoryEntry>)
    requires h != [] && AgreeFor(s, s', a) && OnlyIndexed(s, a, info, h)
    ensures OnlyIndexed(s', a, info, h)
  {
    forall c: u64, p: Position | CodeIndexKey(c, p, a) in s' ensures c == info.codeID && p == h[|h| - 1].updated {
      assert SameAt(s, s', CodeIndexKey(c, p, a));
    }
    forall c: Account, p: Position | CreatorIndexKey(c, p, a) in s' ensures c == info.creator && p == h[0].updated {
      assert SameAt(s, s', CreatorIndexKey(c, p, a));
    }
  }

  lemma AbsentAgrees(s: Store, s': Store, a: Addr)
    requires AgreeFor(s, s', a) && Absent(s, a) && HistoryAt(s', a, [])
    ensures Absent(s', a)
  {
    forall c: u64, p: Position ensures CodeIndexKey(c, p, a) !in s' {
      assert SameAt(s, s', CodeIndexKey(c, p, a));
    }
    forall c: Account, p: Position ensures CreatorIndexKey(c, p, a) !in s' {
      assert SameAt(s, s', CreatorIndexKey(c, p, a));
    }
  }

  // ---------------------------------------------------------------- writes elsewhere

  predicate Registered(k: bytes) {
    |k| > 0 && (k[0] == 0x02 || k[0] == 0x05 || k[0] == 0x06 || k[0] == 0x09)
  }

  lemma RegistryTags(a: Addr, c: u64, p: Position, n: u64, d: Account)
    ensures Registered(ContractKey(a)) && Registered(HistoryKey(a, n))
    ensures Registered(CodeIndexKey(c, p, a)) && Registered(CreatorIndexKey(d, p, a))
  {}

  /** Two stores that differ only outside the registry, and only add codes. */
  ghost predicate SameRegistry(s: Store, s': Store) {
    (forall k :: Registered(k) ==> SameAt(s, s', k)) && CodesGrow(s, s')
  }

  lemma SameRegistryAgrees(s: Store, s': Store, a: Addr)
    requires SameRegistry(s, s')
    ensures AgreeFor(s, s', a)
  {
    forall p: u64 ensures SameAt(s, s', HistoryKey(a, p)) { RegistryTags(a, 0, Position(0, 0), p, [0]); }
    forall c: u64, p: Position ensures SameAt(s, s', CodeIndexKey(c, p, a)) { RegistryTags(a, c, p, 0, [0]); }
    forall c: Account, p: Position ensures SameAt(s, s', CreatorIndexKey(c, p, a)) { RegistryTags(a, 0, p, 0, c); }
  }

  lemma AgreementElsewhere(s: Store, s': Store)
    requires Agreement(s) && Shapes(s') && SameRegistry(s, s')
    ensures Agreement(s')
  {
    forall a: Addr ensures AddressOk(s', a) {
      SameRegistryAgrees(s, s', a);
      AddressKept(s, s', a);
    }
  }
}
