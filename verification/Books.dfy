/**
 * Everything x/wasm keeps about codes and contracts, as one property of the store: registry
 * agreement, counters ahead of all identifiers in use, pins that point to stored codes, and
 * contract state that belongs to a contract.
 */
module Books {
  import opened Base
  import opened Types
  import opened Keys
  import opened OrderedStore
  import opened History
  import opened Registry
  import opened RegistrySteps
  import opened KeeperOps

  // ---------------------------------------------------------------- the property

  function NextCode(s: Store): (n: u64) { Peek(s, KeySequenceCodeID) }
  function NextInstance(s: Store): (n: u64) { Peek(s, KeySequenceInstanceID) }

  /** Code identifiers in use, and zero, are below the counter; both counters are bounded by the number of calls. */
  ghost predicate Counted(s: Store, n: nat) {
    && NextCode(s) <= n && NextInstance(s) <= n
    && (forall id: u64 :: CodeKey(id) in s || id == 0 ==> id < NextCode(s))
  }

  ghost predicate ContractOk(s: Store, n: nat, a: Addr) {
    ContractKey(a) in s ==> |a| == 32 && TypedHistory(s) && |HistoryOf(s, a)| <= n
  }

  ghost predicate ContractsOk(s: Store, n: nat) {
    forall a: Addr :: ContractOk(s, n, a)
  }

  ghost predicate PinsOk(s: Store) {
    forall id: u64 :: PinKey(id) in s ==> CodeKey(id) in s
  }

  /** Contract state sits under the address of a contract. */
  predicate Housed(s: Store, k: bytes) {
    |k| > 0 && k[0] == 0x03 ==> |k| > 33 && ContractKey(k[1..33]) in s
  }

  ghost predicate StateHoused(s: Store) {
    forall k {:trigger Housed(s, k)} :: k in s ==> Housed(s, k)
  }

  ghost predicate Ledger(s: Store, n: nat) {
    Agreement(s) && Counted(s, n) && ContractsOk(s, n) && PinsOk(s)
  }

  ghost predicate Book(s: Store, n: nat) {
    Ledger(s, n) && StateHoused(s)
  }

  // ---------------------------------------------------------------- parts that are kept

  lemma ContractOkKept(s: Store, s': Store, n: nat, n': nat, b: Addr)
    requires AgreeFor(s, s', b) && CodesGrow(s, s') && AddressOk(s, b) && Shapes(s')
    requires ContractOk(s, n, b) && n <= n'
    ensures ContractOk(s', n', b)
  {
    AddressKept(s, s', b);
  }

  lemma RegistryKept(s: Store, s': Store, n: nat, n': nat)
    requires Agreement(s) && ContractsOk(s, n) && SameRegistry(s, s') && Shapes(s')
    requires n <= n'
    ensures Agreement(s') && ContractsOk(s', n')
  {
    AgreementElsewhere(s, s');
    forall b: Addr ensures ContractOk(s', n', b) {
      SameRegistryAgrees(s, s', b);
      assert AddressOk(s, b) && ContractOk(s, n, b);
      ContractOkKept(s, s', n, n', b);
    }
  }

  /** One contract changed, everything else about contracts stayed. */
  lemma ContractsAround(s: Store, s': Store, n: nat, n': nat, a: Addr)
    requires Agreement(s) && ContractsOk(s, n) && Agreement(s') && CodesGrow(s, s') && OthersAgree(s, s', a)
    requires ContractOk(s', n', a) && n <= n'
    ensures ContractsOk(s', n')
  {
    forall b: Addr ensures ContractOk(s', n', b) {
      if b != a {
        assert AddressOk(s, b) && ContractOk(s, n, b);
        ContractOkKept(s, s', n, n', b);
      }
    }
  }

  /** Every state key is an old one or sits below the home of a contract. */
  predicate AtHome(s: Store, home: Option<Addr>, k: bytes) {
    |k| > 0 && k[0] == 0x03 ==> k in s || (home.Some? && StatePrefix(home.value) <= k && |k| > |home.value| + 1)
  }

  ghost predicate StateAtHome(s: Store, s': Store, home: Option<Addr>) {
    forall k :: k in s' ==> AtHome(s, home, k)
  }

  lemma HousedAfter(s: Store, s': Store, home: Option<Addr>)
    requires StateHoused(s) && StateAtHome(s, s', home)
    requires forall b: Addr :: ContractKey(b) in s ==> ContractKey(b) in s'
    requires home.Some? ==> |home.value| == 32 && ContractKey(home.value) in s'
    ensures StateHoused(s')
  {
    forall k | k in s' ensures Housed(s', k) { HousedKey(s, s', home, k); }
  }

  lemma HousedKey(s: Store, s': Store, home: Option<Addr>, k: bytes)
    requires AtHome(s, home, k) && (k in s ==> Housed(s, k))
    requires forall b: Addr :: ContractKey(b) in s ==> ContractKey(b) in s'
    requires home.Some? ==> |home.value| == 32 && ContractKey(home.value) in s'
    ensures Housed(s', k)
  {
    if |k| > 0 && k[0] == 0x03 && k !in s {
      assert k[..33] == StatePrefix(home.value);
      assert k[1..33] == home.value;
    }
  }

  // ---------------------------------------------------------------- writes that do not touch the ledger

  predicate Loud(k: bytes) {
    |k| > 0 && (k[0] == 0x01 || k[0] == 0x02 || k[0] == 0x04 || k[0] == 0x05 || k[0] == 0x06 || k[0] == 0x07 || k[0] == 0x09)
  }

  ghost predicate SameLoud(s: Store, s': Store) {
    forall k :: Loud(k) ==> SameAt(s, s', k)
  }

  /** A write to another module's store or below a contract's own prefix. */
  predicate Quiet(home: Option<Addr>, w: Write) {
    |w.key| > 0
    && (|| w.key[0] == 0xF0
        || (home.Some? && StatePrefix(home.value) <= w.key && |w.key| > |home.value| + 1 && (w.Set? ==> w.value.RawV?)))
  }

  ghost predicate AllQuiet(home: Option<Addr>, ws: seq<Write>) {
    forall i :: 0 <= i < |ws| ==> Quiet(home, ws[i])
  }

  /** What quiet writes leave behind. */
  ghost predicate Undisturbed(s: Store, s': Store, home: Option<Addr>) {
    SameLoud(s, s') && StateAtHome(s, s', home) && (Shapes(s) ==> Shapes(s'))
  }

  lemma {:induction false} QuietUndisturbed(s: Store, home: Option<Addr>, ws: seq<Write>)
    requires AllQuiet(home, ws)
    ensures Undisturbed(s, Apply(s, ws), home)
    decreases |ws|
  {
    if ws != [] {
      var s' := ApplyOne(s, ws[0]);
      OneQuiet(s, home, ws[0]);
      QuietUndisturbed(s', home, ws[1..]);
      UndisturbedTrans(s, s', Apply(s', ws[1..]), home);
    }
  }

  lemma UndisturbedTrans(s: Store, s': Store, s'': Store, home: Option<Addr>)
    requires Undisturbed(s, s', home) && Undisturbed(s', s'', home)
    ensures Undisturbed(s, s'', home)
  {
    forall k | Loud(k) ensures SameAt(s, s'', k) { assert SameAt(s, s', k) && SameAt(s', s'', k); }
    forall k | k in s'' ensures AtHome(s, home, k) {
      assert AtHome(s', home, k);
      if k in s' { assert AtHome(s, home, k); }
    }
  }

  lemma OneQuiet(s: Store, home: Option<Addr>, w: Write)
    requires Quiet(home, w)
    ensures Undisturbed(s, ApplyOne(s, w), home)
  {
    if home.Some? && StatePrefix(home.value) <= w.key { assert w.key[0] == StatePrefix(home.value)[0]; }
    if w.Set? && Shapes(s) { assert ShapeOk(w.key, w.value); }
  }

  lemma {:induction false} StateWritesQuiet(a: Addr, ws: seq<StateWrite>)
    ensures AllQuiet(Some(a), StateWrites(a, ws))
  {
    if ws != [] {
      StateWritesQuiet(a, ws[1..]);
      assert StatePrefix(a) <= StateKey(a, ws[0].key);
    }
  }

  lemma {:induction false} ForeignWritesQuiet(home: Option<Addr>, ws: seq<ForeignWrite>)
    ensures AllQuiet(home, ForeignWrites(ws))
  {
    if ws != [] { ForeignWritesQuiet(home, ws[1..]); }
  }

  lemma LoudKeys(id: u64, a: Addr)
    ensures Loud(CodeKey(id)) && Loud(PinKey(id)) && Loud(ContractKey(a))
    ensures Loud(KeySequenceCodeID) && Loud(KeySequenceInstanceID)
  {}

  lemma LoudRegistry(s: Store, s': Store)
    requires SameLoud(s, s')
    ensures SameRegistry(s, s')
  {
    forall k | Registered(k) ensures SameAt(s, s', k) { assert Loud(k); }
    forall id: u64 | CodeKey(id) in s ensures CodeKey(id) in s' { LoudKeys(id, []); }
  }

  lemma LoudCounters(s: Store, s': Store, n: nat, n': nat)
    requires SameLoud(s, s') && n <= n' && Counted(s, n) && PinsOk(s)
    ensures Counted(s', n') && PinsOk(s') && NextInstance(s') == NextInstance(s)
  {
    LoudKeys(0, []);
    assert SameAt(s, s', KeySequenceCodeID) && SameAt(s, s', KeySequenceInstanceID);
    forall id: u64 | CodeKey(id) in s' || id == 0 ensures id < NextCode(s') {
      LoudKeys(id, []);
      assert SameAt(s, s', CodeKey(id));
    }
    forall id: u64 | PinKey(id) in s' ensures CodeKey(id) in s' {
      LoudKeys(id, []);
      assert SameAt(s, s', CodeKey(id)) && SameAt(s, s', PinKey(id));
    }
  }

  lemma LoudKeepsLedger(s: Store, s': Store, n: nat, n': nat)
    requires Ledger(s, n) && n <= n' && SameLoud(s, s') && Shapes(s')
    ensures Ledger(s', n')
  {
    LoudRegistry(s, s');
    LoudCounters(s, s', n, n');
    RegistryKept(s, s', n, n');
  }

  /** Quiet writes keep the book when their home is a contract. */
  lemma QuietKeepsBook(s: Store, home: Option<Addr>, ws: seq<Write>, n: nat, n': nat)
    requires Book(s, n) && n <= n' && AllQuiet(home, ws)
    requires home.Some? ==> ContractKey(home.value) in s
    ensures Book(Apply(s, ws), n')
  {
    QuietUndisturbed(s, home, ws);
    UndisturbedKeepsBook(s, Apply(s, ws), home, n, n');
  }

  lemma UndisturbedKeepsBook(s: Store, s': Store, home: Option<Addr>, n: nat, n': nat)
    requires Book(s, n) && n <= n' && Undisturbed(s, s', home)
    requires home.Some? ==> ContractKey(home.value) in s
    ensures Book(s', n')
  {
    LoudKeepsLedger(s, s', n, n');
    if home.Some? { assert ContractOk(s, n, home.value); }
    ContractsSurvive(s, s');
    HousedAfter(s, s', home);
  }

  lemma ContractsSurvive(s: Store, s': Store)
    requires SameLoud(s, s')
    ensures forall b: Addr :: ContractKey(b) in s ==> ContractKey(b) in s'
  {
    forall b: Addr | ContractKey(b) in s ensures ContractKey(b) in s' { LoudKeys(0, b); }
  }

  /** Packets, receipts and acknowledgements are no part of the book. */
  predicate PacketTag(k: bytes) {
    |k| > 0 && (k[0] == 0x11 || k[0] == 0x81 || k[0] == 0x82)
  }

  lemma {:induction false} PacketsUndisturbed(s: Store, ws: seq<Write>)
    requires forall i :: 0 <= i < |ws| ==> PacketTag(ws[i].key)
    ensures Undisturbed(s, Apply(s, ws), None)
    decreases |ws|
  {
    if ws != [] {
      var s' := ApplyOne(s, ws[0]);
      PacketsUndisturbed(s', ws[1..]);
      UndisturbedTrans(s, s', Apply(s', ws[1..]), None);
    }
  }

  lemma BookGrows(s: Store, n: nat, n': nat)
    requires Book(s, n) && n <= n'
    ensures Book(s, n')
  {
    QuietKeepsBook(s, None, [], n, n');
  }
}
