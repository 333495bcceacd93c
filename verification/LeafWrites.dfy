/** Where the calls of the keeper write: never to packets, and to code and contract records only with reason. */
module LeafWrites {
  import opened Base
  import opened Types
  import opened Keys
  import opened Meters
  import opened Engine
  import opened History
  import opened Policies
  import opened Registry
  import opened RegistrySteps
  import opened KeeperOps
  import opened Books
  import opened BookSteps
  import GasRegister

  /** The parts of a code record that are fixed for good. */
  predicate SameCode(x: CodeInfo, y: CodeInfo) {
    x.hash == y.hash && x.creator == y.creator
  }

  /** The parts of a contract record that are fixed for good. */
  predicate SameOrigin(x: ContractInfo, y: ContractInfo) {
    x.creator == y.creator && x.created == y.created
  }

  /** A code record is written under the next identifier, or over one with the same hash and creator. */
  predicate TidyCode(s: Store, w: Write) {
    && w.Set? && w.value.CodeV?
    && (w.key == CodeKey(NextCode(s)) || (w.key in s && s[w.key].CodeV? && SameCode(s[w.key].code, w.value.code)))
  }

  /** A contract record is written at the address of the call's own preimage, or over one with the same creator and position. */
  predicate TidyContract(h: Host, s: Store, pre: Option<bytes>, w: Write) {
    && w.Set? && w.value.ContractV?
    && (if w.key in s then s[w.key].ContractV? && SameOrigin(s[w.key].contract, w.value.contract)
        else pre.Some? && w.key == ContractKey(h.addressOf(pre.value)))
  }

  predicate Tidy(h: Host, s: Store, pre: Option<bytes>, w: Write) {
    && |w.key| > 0 && !PacketTag(w.key)
    && (w.key[0] == 0x01 ==> TidyCode(s, w))
    && (w.key[0] == 0x02 ==> TidyContract(h, s, pre, w))
    && (w.key == KeySequenceInstanceID ==> w == Advance(s, KeySequenceInstanceID))
  }

  ghost predicate AllTidy(h: Host, s: Store, pre: Option<bytes>, ws: seq<Write>) {
    forall i :: 0 <= i < |ws| ==> Tidy(h, s, pre, ws[i])
  }

  /** What a request hashes to the address of a new contract. */
  function PreimageOf(h: Host, s: Store, req: Request): (r: Option<bytes>) {
    if req.Instantiate? && GetCode(s, req.codeID).Some? then AddressPreimage(h, s, req, GetCode(s, req.codeID).value.hash) else None
  }

  lemma TidyConcat(h: Host, s: Store, o: Option<bytes>, x: seq<Write>, y: seq<Write>)
    requires AllTidy(h, s, o, x) && AllTidy(h, s, o, y)
    ensures AllTidy(h, s, o, x + y)
  {}

  lemma QuietIsTidy(h: Host, s: Store, o: Option<bytes>, home: Option<Addr>, ws: seq<Write>)
    requires AllQuiet(home, ws)
    ensures AllTidy(h, s, o, ws)
  {
    forall i | 0 <= i < |ws| ensures Tidy(h, s, o, ws[i]) {
      if home.Some? && StatePrefix(home.value) <= ws[i].key { assert ws[i].key[0] == StatePrefix(home.value)[0]; }
    }
  }

  lemma {:induction false} PinsAreTidy(h: Host, s: Store, ids: seq<u64>, pin: bool)
    ensures AllTidy(h, s, None, PinWrites(ids, pin))
  {
    if ids != [] { PinsAreTidy(h, s, ids[1..], pin); }
  }

  lemma CallContractTidy(h: Host, s: Store, m: Meter, ctx: Ctx, req: Request, a: Addr, setup: Option<u64>, pre: seq<Write>, kind: string)
    requires AllQuiet(Some(a), pre)
    ensures AllTidy(h, s, None, CallContract(h, s, m, ctx, req, a, setup, pre, kind).writes)
  {
    CalledShape(h, s, m, ctx, req, a, setup, pre, kind);
    QuietIsTidy(h, s, None, Some(a), CallContract(h, s, m, ctx, req, a, setup, pre, kind).writes);
  }

  lemma MoveIsTidy(h: Host, s: Store, s': Store, a: Addr, last: HistoryEntry, info: ContractInfo, e: HistoryEntry)
    requires GetContract(s, a).Some? && SameOrigin(GetContract(s, a).value, info)
    ensures AllTidy(h, s, None, MigrationWrites(s', a, last, info, e))
  {
    MigrationList(s', a, last, info, e);
    var ws := MoveWrites(a, NextPosition(LastPosition(s', a)), last, info, e);
    assert |ws| == 4 && ws[3].key == ContractKey(a);
    forall i | 0 <= i < 4 ensures Tidy(h, s, None, ws[i]) { assert i < 3 ==> ws[i].key[0] == 0x05 || ws[i].key[0] == 0x06; }
  }

  lemma PersistIsTidy(h: Host, s: Store, s': Store, pre: bytes, info: ContractInfo, payload: bytes)
    requires ContractKey(h.addressOf(pre)) !in s
    ensures AllTidy(h, s, Some(pre), PersistWrites(s', h.addressOf(pre), info, payload))
  {
    PersistList(s', h.addressOf(pre), info, payload);
  }

  lemma RunMigrationTidy(h: Host, s: Store, m: Meter, ctx: Ctx, req: Request, policy: Policy, hash: bytes, info: ContractInfo, call: bool)
    requires req.Migrate? && Went(RunMigration(h, s, m, ctx, req, policy, hash, info, call))
    requires GetContract(s, req.contract).Some? && SameOrigin(GetContract(s, req.contract).value, info)
    ensures AllTidy(h, s, None, RunMigration(h, s, m, ctx, req, policy, hash, info, call).writes)
  {
    var a, after := req.contract, info.(codeID := req.codeID);
    var e := HistoryEntry(MigrateOp, req.codeID, ctx.position, req.payload);
    var ran, last := MigrationShape(h, s, m, ctx, req, policy, hash, info, call);
    QuietIsTidy(h, s, None, Some(a), ran);
    MoveIsTidy(h, s, Apply(s, ran), a, last, after, e);
    TidyConcat(h, s, None, ran, MigrationWrites(Apply(s, ran), a, last, after, e));
  }

  lemma MigrateTidy(h: Host, s: Store, m: Meter, ctx: Ctx, req: Request)
    requires req.Migrate? && Went(DoMigrate(h, s, m, ctx, req))
    ensures AllTidy(h, s, None, DoMigrate(h, s, m, ctx, req).writes)
  {
    var held := GetContract(s, req.contract).value;
    var code := GetCode(s, req.codeID).value;
    var report := h.analyze(code.hash).value;
    var oldReport := h.analyze(GetCode(s, held.codeID).value.hash).value;
    var port := if report.hasIBC && held.ibcPort == [] then h.port(req.contract) else held.ibcPort;
    RunMigrationTidy(h, s, m, ctx, req, SelectPolicy(h.authority, h.propagate, ctx.policy, req.sender), code.hash,
                     held.(ibcPort := port, ibc2Port := h.port2(req.contract)),
                     report.migrateVersion.None? || report.migrateVersion != oldReport.migrateVersion);
  }

  lemma SetUpTidy(h: Host, s: Store, m: Meter, ctx: Ctx, req: Request, policy: Policy, hash: bytes, setup: u64, pre: bytes, reserve: seq<Write>)
    requires req.Instantiate? && req.sender != [] && Went(SetUpContract(h, s, m, ctx, req, policy, hash, setup, h.addressOf(pre), reserve)) && AllTidy(h, s, Some(pre), reserve)
    requires ContractKey(h.addressOf(pre)) !in s
    ensures AllTidy(h, s, Some(pre), SetUpContract(h, s, m, ctx, req, policy, hash, setup, h.addressOf(pre), reserve).writes)
  {
    var a := h.addressOf(pre);
    var e, w, info := SetUpShape(h, s, m, ctx, req, policy, hash, setup, a, reserve);
    QuietIsTidy(h, s, Some(pre), Some(a), e);
    QuietIsTidy(h, s, Some(pre), Some(a), w);
    PersistIsTidy(h, s, Apply(s, reserve + e + w), pre, info, req.payload);
    TidyConcat(h, s, Some(pre), reserve, e);
    TidyConcat(h, s, Some(pre), reserve + e, w);
    TidyConcat(h, s, Some(pre), reserve + e + w, PersistWrites(Apply(s, reserve + e + w), a, info, req.payload));
  }

  lemma InstantiateTidy(h: Host, s: Store, m: Meter, ctx: Ctx, req: Request)
    requires req.Instantiate? && Went(DoInstantiate(h, s, m, ctx, req))
    ensures AllTidy(h, s, PreimageOf(h, s, req), DoInstantiate(h, s, m, ctx, req).writes)
  {
    var code := GetCode(s, req.codeID).value;
    var (a, reserve) := NewAddress(h, s, req, code.hash).value;
    var pre := AddressPreimage(h, s, req, code.hash).value;
    SetUpTidy(h, s, m, ctx, req, SelectPolicy(h.authority, h.propagate, ctx.policy, req.sender), code.hash,
              Setup(h, s, req.codeID, |req.payload|), pre, reserve);
  }

  lemma ExecuteTidy(h: Host, s: Store, m: Meter, ctx: Ctx, req: Request)
    requires req.Execute?
    ensures AllTidy(h, s, None, DoExecute(h, s, m, ctx, req).writes)
  {
    var setup := if GetContract(s, req.contract).Some? then Setup(h, s, GetContract(s, req.contract).value.codeID, |req.payload|) else 0;
    CallContractTidy(h, s, m, ctx, req, req.contract, Some(setup), [], "execute");
    var r := h.transfer(s, req.sender, req.contract, req.funds);
    if r.Success? {
      ForeignWritesQuiet(Some(req.contract), r.value);
      CallContractTidy(h, s, m, ctx, req, req.contract, Some(setup), ForeignWrites(r.value), "execute");
    }
  }

  lemma UpdateContractTidy(h: Host, s: Store, ctx: Ctx, req: Request)
    requires req.SetAdmin? || req.SetLabel?
    ensures AllTidy(h, s, None, DoUpdateContract(h, s, ctx, req).writes)
  {}

  lemma StoreCodeTidy(h: Host, s: Store, m: Meter, ctx: Ctx, req: Request)
    requires req.StoreCode?
    ensures AllTidy(h, s, None, DoStoreCode(h, s, m, ctx, req).writes)
  {
    var info := StoreCodeWrites(h, s, m, ctx, req);
    NewCodeTidy(h, s, info);
  }

  lemma NewCodeTidy(h: Host, s: Store, info: CodeInfo)
    ensures AllTidy(h, s, None, [Advance(s, KeySequenceCodeID), Set(CodeKey(NextCode(s)), CodeV(info))])
  {
    assert CodeKey(NextCode(s))[0] == 0x01 && KeySequenceCodeID[0] == 0x04 && |KeySequenceCodeID| != |KeySequenceInstanceID|;
  }

  lemma SetAccessTidy(h: Host, s: Store, ctx: Ctx, req: Request)
    requires req.SetAccess?
    ensures AllTidy(h, s, None, DoSetAccess(h, s, ctx, req).writes)
  {}

  lemma NativeTidy(h: Host, s: Store, req: Request)
    ensures AllTidy(h, s, None, DoNative(h, s, req).writes)
  {
    ForeignWritesQuiet(None, h.native(s, req).writes);
    QuietIsTidy(h, s, None, None, ForeignWrites(h.native(s, req).writes));
  }

  lemma AckWritesPackets(h: Host, s: Store, req: Request)
    requires req.AckPacket?
    ensures var ws := DoAckPacket(h, s, req).writes; forall i :: 0 <= i < |ws| ==> PacketTag(ws[i].key)
  {}

  /** Every call but a packet acknowledgement writes tidily. */
  lemma LeafIsTidy(h: Host, s: Store, m: Meter, ctx: Ctx, req: Request)
    requires !req.AckPacket? && Went(Leaf(h, s, m, ctx, req))
    ensures AllTidy(h, s, PreimageOf(h, s, req), Leaf(h, s, m, ctx, req).writes)
  {
    match req
    case StoreCode(_, _, _) => StoreCodeTidy(h, s, m, ctx, req);
    case Instantiate(_, _, _, _, _, _, _) => InstantiateTidy(h, s, m, ctx, req);
    case Execute(_, _, _, _) => ExecuteTidy(h, s, m, ctx, req);
    case Migrate(_, _, _, _) => MigrateTidy(h, s, m, ctx, req);
    case SetAdmin(_, _, _) => UpdateContractTidy(h, s, ctx, req);
    case SetLabel(_, _, _) => UpdateContractTidy(h, s, ctx, req);
    case SetAccess(_, _, _) => SetAccessTidy(h, s, ctx, req);
    case Pin(_, ids) => PinsAreTidy(h, s, ids, true);
    case Unpin(_, ids) => PinsAreTidy(h, s, ids, false);
    case Sudo(_, a, payload) =>
      CallContractTidy(h, s, m, ctx, req, a,
                       Some(if GetContract(s, a).Some? then Setup(h, s, GetContract(s, a).value.codeID, |payload|) else 0), [], "sudo");
    case IbcSend(_, _, _) => NativeTidy(h, s, req);
    case Native(_) => NativeTidy(h, s, req);
    case Reply(a, _, result, _) =>
      CallContractTidy(h, s, m, ctx, req, a, GasRegister.ReplyCosts(h.register, true, result), [], "reply");
    case Receive(a, packet) =>
      CallContractTidy(h, s, m, ctx, req, a,
                       Some(if GetContract(s, a).Some? then Setup(h, s, GetContract(s, a).value.codeID, |packet.data|) else 0), [], "receive");
    case Unsigned =>
  }
}
