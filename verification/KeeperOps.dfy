/**
 * The operations of the keeper as write lists over the store. Each function is one call up to
 * the point where its response would be dispatched; together they are the `leaf` of an Engine.
 * The wasm VM, the bank, the account keeper, core IBC and native SDK messages are functions of
 * a Host: nothing is known about them.
 */
module KeeperOps {
  import opened Base
  import opened Types
  import opened Keys
  import opened Meters
  import opened Engine
  import opened History
  import opened Policies
  import GasRegister

  /** Contracts cannot write the empty key. */
  type StateKeyBytes = k: bytes | |k| > 0 witness [0]

  datatype StateWrite = StateWrite(key: StateKeyBytes, value: Option<bytes>)

  datatype ForeignWrite = ForeignWrite(key: bytes, value: Option<bytes>)

  datatype VMOutcome = Answered(response: Response) | ContractErr(text: string) | VMFailure(text: string)

  /** A VM call: what it wrote to its own store, SDK gas its callbacks used, CosmWasm gas, and its end. */
  datatype VMResult = VMResult(writes: seq<StateWrite>, storeGas: u64, gasUsed: u64, outcome: VMOutcome)

  datatype Report = Report(hasIBC: bool, migrateVersion: Option<u64>)

  datatype Compiled = Stored(hash: bytes, gasUsed: u64) | Rejected(gasUsed: u64, text: string)

  datatype Inflated = NotGzip | Unpacked(wasm: bytes, cost: u64) | Corrupt(cost: u64)

  datatype NativeResult = NativeResult(writes: seq<ForeignWrite>, gas: u64, events: seq<Event>, end: Result<(bytes, seq<Any>), Error>)

  /** Contract addresses cut from a hash are 32 bytes long. */
  type ContractAddr = a: Addr | |a| == 32 witness seq<byte>(32, _ => 0)

  datatype Host = Host(
    maxCallDepth: DepthLimit,
    register: GasRegister.Config,
    authority: Addr,
    propagate: set<Action>,
    vm: (Store, bytes, Addr, Request, u64) -> VMResult,
    analyze: bytes -> Option<Report>,
    compile: (bytes, u64) -> Compiled,
    inflate: bytes -> Inflated,
    addressOf: bytes -> ContractAddr,
    validSalt: (bytes, Addr, bytes) -> bool,
    claim: (Store, Addr) -> Result<seq<ForeignWrite>, Error>,
    transfer: (Store, Addr, Addr, Coins) -> Result<seq<ForeignWrite>, Error>,
    transferEvents: Request -> seq<Event>,
    syncs: (Store, u64) -> bool,
    native: (Store, Request) -> NativeResult,
    writeAck: (Store, Packet, bytes) -> Option<Error>,
    signers: bytes -> seq<Addr>,
    encodeOther: (Addr, PortId, bytes) -> Result<seq<Request>, Error>,
    publish: (Addr, seq<Attribute>, seq<Event>) -> Result<seq<Event>, Error>,
    encode: (Request, Option<bytes>) -> (bytes, seq<Any>),
    port: Addr -> PortId,
    owner: PortId -> Option<Addr>,
    port2: Addr -> PortId,
    text: Addr -> string,
    storeCodeEvent: (bytes, u64) -> Event)

  // ---------------------------------------------------------------- errors

  function WasmError(code: nat, text: string): (e: Error) { Error("wasm", code, text, false) }
  const ErrUnauthorized := Error("sdk", 4, "unauthorized", false)
  const ErrInvalidRequest := Error("sdk", 18, "invalid request", false)
  const ErrEmpty := WasmError(12, "empty")
  const ErrInvalid := WasmError(14, "invalid")
  const ErrDuplicate := WasmError(15, "duplicate")
  const ErrUnsupported := WasmError(17, "unsupported for this contract")
  const ErrNoSuchContract := WasmError(22, "no such contract")
  const ErrNoSuchCode := WasmError(28, "no such code")
  const ErrVM := WasmError(29, "wasmvm error")
  const ErrPinFailed := WasmError(18, "pinning contract failed")
  const ErrSyncPinned := WasmError(31, "syncing pinned codes failed")
  const ErrMigration := WasmError(11, "requires ibc callbacks")

  // ---------------------------------------------------------------- reading the store

  function GetCode(s: Store, id: u64): (r: Option<CodeInfo>) {
    if CodeKey(id) in s && s[CodeKey(id)].CodeV? then Some(s[CodeKey(id)].code) else None
  }

  function GetContract(s: Store, a: Addr): (r: Option<ContractInfo>) {
    if ContractKey(a) in s && s[ContractKey(a)].ContractV? then Some(s[ContractKey(a)].contract) else None
  }

  function GetParams(s: Store): (r: Option<Params>) {
    if ParamsKey in s && s[ParamsKey].ParamsV? then Some(s[ParamsKey].params) else None
  }

  predicate IsPinned(s: Store, id: u64) {
    PinKey(id) in s
  }

  /** PeekAutoIncrementID: the next number of a sequence, 1 when it was never used. */
  function Peek(s: Store, key: bytes): (n: u64) {
    if key in s && s[key].RawV? && |s[key].raw| == 8 then FromBE8(s[key].raw) else 1
  }

  /** mustAutoIncrementID: the counter is a 64-bit word. */
  function Advance(s: Store, key: bytes): (w: Write) {
    Set(key, RawV(BE8(NextPosition(Peek(s, key)))))
  }

  function PendingPacket(s: Store, port: PortId, channel: ChannelId, sequence: u64): (r: Option<Packet>) {
    var k := AsyncKey(port, channel, sequence);
    if k in s && s[k].PacketV? then Some(s[k].packet) else None
  }

  function AcksOf(s: Store, port: PortId, channel: ChannelId, sequence: u64): (r: seq<(Packet, bytes)>) {
    var k := AckKey(port, channel, sequence);
    if k in s && s[k].AcksV? then s[k].acks else []
  }

  // ---------------------------------------------------------------- pieces of work

  function StateWrites(a: Addr, ws: seq<StateWrite>): (r: seq<Write>) {
    if ws == [] then []
    else [match ws[0].value
          case Some(v) => Set(StateKey(a, ws[0].key), RawV(v))
          case None => Delete(StateKey(a, ws[0].key))] + StateWrites(a, ws[1..])
  }

  function ForeignWrites(ws: seq<ForeignWrite>): (r: seq<Write>) {
    if ws == [] then []
    else [match ws[0].value
          case Some(v) => Set(ForeignKey(ws[0].key), RawV(v))
          case None => Delete(ForeignKey(ws[0].key))] + ForeignWrites(ws[1..])
  }

  /** A leaf that ended without dispatching anything. */
  function Failed(e: Error): (l: LeafResult) { LeafResult([], [], [], Fail(e)) }

  function Finished(h: Host, req: Request, writes: seq<Write>, charges: seq<Charge>, events: seq<Event>): (l: LeafResult) {
    var (data, responses) := h.encode(req, None);
    LeafResult(writes, charges, events, Done([data], [responses]))
  }

  /** CosmWasm gas for a call after the given charges; None when they or the conversion panic. */
  function GasForVM(h: Host, m: Meter, charges: seq<Charge>): (r: Option<u64>) {
    var (m', g) := ChargeAll(m, charges);
    if g.Calm? then RuntimeGas(h.register, m') else None
  }

  datatype Invocation = Unpaid | Ran(writes: seq<Write>, charges: seq<Charge>, outcome: VMOutcome)

  function InvokeVM(h: Host, s: Store, m: Meter, setup: u64, hash: bytes, contract: Addr, req: Request): (i: Invocation) {
    match GasForVM(h, m, [Plain(setup)])
    case None => Unpaid
    case Some(gas) =>
      var r := h.vm(s, hash, contract, req, gas);
      Ran(StateWrites(contract, r.writes), [Plain(setup), Plain(r.storeGas), VMCharge(h.register, r.gasUsed)], r.outcome)
  }

  /** The response of a contract that ran, or the error that hides its reasons. */
  function Conclude(writes: seq<Write>, charges: seq<Charge>, events: seq<Event>, contract: Addr, port: PortId,
                    policy: Option<Policy>, code: nat, outcome: VMOutcome): (l: LeafResult)
  {
    match outcome
    case VMFailure(text) => LeafResult(writes, charges, [], Fail(WasmError(29, text)))
    case ContractErr(text) => LeafResult(writes, charges, [], Fail(Error("wasm", code, text, true)))
    case Answered(response) => LeafResult(writes, charges, events, Respond(contract, port, policy, response))
  }

  function ContractEvent(h: Host, kind: string, a: Addr): (e: Event) {
    Event(kind, [Attribute("_contract_address", h.text(a))])
  }

  /** The bank's events for funds sent along, then the keeper's own; packet receive has none. */
  function CallEvents(h: Host, req: Request, kind: string, a: Addr): (es: seq<Event>) {
    (if (req.Execute? || req.Instantiate?) && req.funds != map[] then h.transferEvents(req) else [])
    + (if req.Receive? then [] else [ContractEvent(h, kind, a)])
  }

  function Setup(h: Host, s: Store, id: u64, payload: nat): (n: u64) {
    GasRegister.SetupContractCost(h.register, IsPinned(s, id), payload)
  }

  /** The same entry point for execute, sudo, reply and packet receive. */
  function CallContract(h: Host, s: Store, m: Meter, ctx: Ctx, req: Request, a: Addr, setup: Option<u64>, pre: seq<Write>, kind: string)
    : (l: LeafResult)
  {
    match GetContract(s, a)
    case None => Failed(ErrNoSuchContract)
    case Some(info) =>
      match GetCode(s, info.codeID)
      case None => Failed(ErrNoSuchCode)
      case Some(code) =>
        match setup
        case None => LeafResult([], [], [], Exhaust)
        case Some(cost) =>
          match InvokeVM(h, Apply(s, pre), m, cost, code.hash, a, req)
          case Unpaid => LeafResult([], [Plain(cost)], [], Panic)
          case Ran(writes, charges, outcome) =>
            if req.Receive? && outcome.VMFailure? then LeafResult(pre + writes, charges, [], Panic)  // the whole packet is aborted
            else Conclude(pre + writes, charges, CallEvents(h, req, kind, a), a, info.ibcPort, ctx.policy, 5, outcome)
  }

  // ---------------------------------------------------------------- the operations

  function DoStoreCode(h: Host, s: Store, m: Meter, ctx: Ctx, req: Request): (l: LeafResult)
    requires req.StoreCode?
  {
    if req.sender == [] then Failed(ErrEmpty)
    else
      match GetParams(s)
      case None => LeafResult([], [], [], Panic)
      case Some(params) =>
        var default := AccessConfig(params.instantiateDefault,
                                    if params.instantiateDefault.AnyOfAddresses? then [req.sender] else []);
        var access := if req.permission.Some? then req.permission.value else default;
        var policy := SelectPolicy(h.authority, h.propagate, ctx.policy, req.sender);
        if params.instantiateDefault.Unspecified? then LeafResult([], [], [], Panic)
        else if !CanCreateCode(policy, ChainConfigs(params.uploadAccess, default), req.sender, access) then Failed(ErrUnauthorized)
        else
          match h.inflate(req.wasm)
          case NotGzip => CompileCode(h, s, m, req, access, req.wasm, [])
          case Unpacked(wasm, cost) => CompileCode(h, s, m, req, access, wasm, [Plain(cost)])
          case Corrupt(cost) => LeafResult([], [Plain(cost)], [], Fail(WasmError(2, "uncompress wasm archive")))
  }

  function CompileCode(h: Host, s: Store, m: Meter, req: Request, access: AccessConfig, wasm: bytes, paid: seq<Charge>): (l: LeafResult)
    requires req.StoreCode?
  {
    match GasForVM(h, m, paid)
    case None => LeafResult([], paid, [], Panic)
    case Some(gas) =>
      match h.compile(wasm, gas)
      case Rejected(used, text) => LeafResult([], paid + [VMCharge(h.register, used)], [], Fail(WasmError(2, text)))
      case Stored(hash, used) =>
        var charges := paid + [VMCharge(h.register, used)];
        if h.analyze(hash).None? then LeafResult([], charges, [], Fail(WasmError(2, "analyze")))
        else
          var id := Peek(s, KeySequenceCodeID);
          Finished(h, req,
                   [Advance(s, KeySequenceCodeID), Set(CodeKey(id), CodeV(CodeInfo(hash, req.sender, access)))],
                   charges, [h.storeCodeEvent(hash, id)])
  }

  /** What is hashed to the address of a new contract; None is the panic on bad inputs. */
  function AddressPreimage(h: Host, s: Store, req: Request, hash: bytes): (r: Option<bytes>)
    requires req.Instantiate?
  {
    match req.generator
    case Classic => Some(ClassicPreimage(req.codeID, Peek(s, KeySequenceInstanceID)))
    case Predictable(salt, fixMsg) =>
      var msg := if fixMsg then req.payload else [];
      if |hash| != 32 || |salt| == 0 || |salt| > 64 || |msg| >= TWO64 || !h.validSalt(salt, req.sender, msg) then None
      else Some(PredictablePreimage(hash, req.sender, salt, msg))
  }

  /** The address of a new contract and the write that reserves it. */
  function NewAddress(h: Host, s: Store, req: Request, hash: bytes): (r: Option<(Addr, seq<Write>)>)
    requires req.Instantiate?
  {
    match AddressPreimage(h, s, req, hash)
    case None => None
    case Some(pre) => Some((h.addressOf(pre), if req.generator.Classic? then [Advance(s, KeySequenceInstanceID)] else []))
  }

  /** Index entries, first history entry and contract record of a new contract. */
  ghost function PersistWrites(s: Store, a: Addr, info: ContractInfo, payload: bytes): (ws: seq<Write>) {
    [Set(CodeIndexKey(info.codeID, info.created, a), RawV([])),
     Set(CreatorIndexKey(info.creator, info.created, a), RawV([]))]
    + HistoryWrites(a, LastPosition(s, a), [HistoryEntry(InitOp, info.codeID, info.created, payload)])
    + [Set(ContractKey(a), ContractV(info))]
  }

  ghost function DoInstantiate(h: Host, s: Store, m: Meter, ctx: Ctx, req: Request): (l: LeafResult)
    requires req.Instantiate?
  {
    if req.sender == [] then Failed(ErrEmpty)
    else
      match GetCode(s, req.codeID)
      case None => Failed(ErrNoSuchCode)
      case Some(code) =>
        var policy := SelectPolicy(h.authority, h.propagate, ctx.policy, req.sender);
        var setup := Setup(h, s, req.codeID, |req.payload|);
        if !CanInstantiateContract(policy, code.access, req.sender) then LeafResult([], [Plain(setup)], [], Fail(ErrUnauthorized))
        else
          match NewAddress(h, s, req, code.hash)
          case None => LeafResult([], [Plain(setup)], [], Panic)
          case Some((a, reserve)) =>
            if ContractKey(a) in s then LeafResult(reserve, [Plain(setup)], [], Fail(ErrDuplicate))
            else SetUpContract(h, s, m, ctx, req, policy, code.hash, setup, a, reserve)
  }

  /** The writes of the account keeper and the bank before a new contract runs. */
  function Endow(h: Host, s: Store, req: Request, a: Addr): (r: Result<seq<Write>, Error>)
    requires req.Instantiate?
  {
    match h.claim(s, a)
    case Failure(e) => Failure(e)
    case Success(claimed) =>
      if req.funds == map[] then Success(ForeignWrites(claimed))
      else
        match h.transfer(Apply(s, ForeignWrites(claimed)), req.sender, a, req.funds)
        case Failure(e) => Failure(e)
        case Success(moved) => Success(ForeignWrites(claimed) + ForeignWrites(moved))
  }

  ghost function SetUpContract(h: Host, s: Store, m: Meter, ctx: Ctx, req: Request, policy: Policy, hash: bytes, setup: u64,
                         a: Addr, reserve: seq<Write>): (l: LeafResult)
    requires req.Instantiate? && req.sender != []
  {
    match Endow(h, Apply(s, reserve), req, a)
    case Failure(e) => LeafResult(reserve, [Plain(setup)], [], Fail(e))
    case Success(endowed) =>
      var pre := reserve + endowed;
      match InvokeVM(h, Apply(s, pre), m, setup, hash, a, req)
      case Unpaid => LeafResult(pre, [Plain(setup)], [], Panic)
      case Ran(writes, charges, outcome) =>
        match h.analyze(hash)
        case None => LeafResult(pre + writes, charges, [], if outcome.Answered? then Fail(ErrVM) else Conclude([], [], [], a, [], None, 4, outcome).end)
        case Some(report) =>
          var info := ContractInfo(req.codeID, req.sender, req.admin, req.title, ctx.position,
                                   if report.hasIBC then h.port(a) else [], h.port2(a));
          var s' := Apply(s, pre + writes);
          Conclude(pre + writes + (if outcome.Answered? then PersistWrites(s', a, info, req.payload) else []), charges,
                   CallEvents(h, req, "instantiate", a), a, info.ibcPort,
                   Some(SubMessagePolicy(policy, InstantiateAction)), 4, outcome)
  }

  /** Index entry moved, history extended, record replaced. */
  ghost function MigrationWrites(s: Store, a: Addr, last: HistoryEntry, info: ContractInfo, entry: HistoryEntry): (ws: seq<Write>) {
    [Delete(CodeIndexKey(last.codeID, last.updated, a))]
    + HistoryWrites(a, LastPosition(s, a), [entry])
    + [Set(CodeIndexKey(entry.codeID, entry.updated, a), RawV([])), Set(ContractKey(a), ContractV(info))]
  }

  /** The last entry of the history; None is the panic on a contract without one. */
  ghost function LastEntry(s: Store, a: Addr): (r: Option<HistoryEntry>) {
    if !TypedHistory(s) then None
    else var hist := HistoryOf(s, a); if hist == [] then None else Some(hist[|hist| - 1])
  }

  ghost function DoMigrate(h: Host, s: Store, m: Meter, ctx: Ctx, req: Request): (l: LeafResult)
    requires req.Migrate?
  {
    match GetContract(s, req.contract)
    case None => Failed(ErrInvalidRequest)
    case Some(held) =>
      var policy := SelectPolicy(h.authority, h.propagate, ctx.policy, req.sender);
      if !CanModifyContract(policy, held.admin, req.sender) then Failed(ErrUnauthorized)
      else
        match GetCode(s, req.codeID)
        case None => Failed(ErrInvalidRequest)
        case Some(code) =>
          if !CanInstantiateContract(policy, code.access, req.sender) then Failed(ErrUnauthorized)
          else
            match h.analyze(code.hash)
            case None => Failed(ErrVM)
            case Some(report) =>
              if !report.hasIBC && held.ibcPort != [] then Failed(ErrMigration)
              else
                var port := if report.hasIBC && held.ibcPort == [] then h.port(req.contract) else held.ibcPort;
                match GetCode(s, held.codeID)
                case None => LeafResult([], [], [], Panic)
                case Some(oldCode) =>
                  match h.analyze(oldCode.hash)
                  case None => Failed(ErrVM)
                  case Some(oldReport) =>
                    RunMigration(h, s, m, ctx, req, policy, code.hash, held.(ibcPort := port, ibc2Port := h.port2(req.contract)),
                                 report.migrateVersion.None? || report.migrateVersion != oldReport.migrateVersion)
  }

  /** The migrate entry point is skipped when both codes declare the same migrate version. */
  ghost function RunMigration(h: Host, s: Store, m: Meter, ctx: Ctx, req: Request, policy: Policy, hash: bytes,
                        info: ContractInfo, call: bool): (l: LeafResult)
    requires req.Migrate?
  {
    var a := req.contract;
    var entry := HistoryEntry(MigrateOp, req.codeID, ctx.position, req.payload);
    var after := info.(codeID := req.codeID);
    var event := ContractEvent(h, "migrate", a);
    if !call then
      match LastEntry(s, a)
      case None => LeafResult([], [], [], Panic)
      case Some(last) => Finished(h, req, MigrationWrites(s, a, last, after, entry), [], [event])
    else
      var setup := Setup(h, s, req.codeID, |req.payload|);
      match InvokeVM(h, s, m, setup, hash, a, req)
      case Unpaid => LeafResult([], [Plain(setup)], [], Panic)
      case Ran(writes, charges, outcome) => FinishMigration(s, writes, charges, outcome, a, after, entry, event, policy)
  }

  /** The contract has migrated its state: record the new code and dispatch the response. */
  ghost function FinishMigration(s: Store, ran: seq<Write>, charges: seq<Charge>, outcome: VMOutcome, a: Addr, after: ContractInfo,
                                 entry: HistoryEntry, event: Event, policy: Policy): (l: LeafResult)
  {
    var s' := Apply(s, ran);
    match LastEntry(s', a)
    case None => LeafResult(ran, charges, [], if outcome.Answered? then Panic else Fail(ErrVM))
    case Some(last) =>
      Conclude(ran + (if outcome.Answered? then MigrationWrites(s', a, last, after, entry) else []), charges,
               [event], a, after.ibcPort, Some(SubMessagePolicy(policy, MigrateAction)), 11, outcome)
  }

  /** setContractAdmin and setContractLabel: the record is rewritten, no index is touched. */
  function DoUpdateContract(h: Host, s: Store, ctx: Ctx, req: Request): (l: LeafResult)
    requires req.SetAdmin? || req.SetLabel?
  {
    match GetContract(s, req.contract)
    case None => Failed(ErrInvalidRequest)
    case Some(info) =>
      if !CanModifyContract(SelectPolicy(h.authority, h.propagate, ctx.policy, req.sender), info.admin, req.sender)
      then Failed(ErrUnauthorized)
      else
        var after := if req.SetAdmin? then info.(admin := req.admin) else info.(title := req.title);
        Finished(h, req, [Set(ContractKey(req.contract), ContractV(after))], [],
                 [ContractEvent(h, if req.SetAdmin? then "update_contract_admin" else "update_contract_label", req.contract)])
  }

  function DoSetAccess(h: Host, s: Store, ctx: Ctx, req: Request): (l: LeafResult)
    requires req.SetAccess?
  {
    match GetCode(s, req.codeID)
    case None => Failed(ErrNoSuchCode)
    case Some(code) =>
      match GetParams(s)
      case None => LeafResult([], [], [], Panic)
      case Some(params) =>
        if !CanModifyCodeAccessConfig(SelectPolicy(h.authority, h.propagate, ctx.policy, req.sender), code.creator, req.sender,
                                      TypeIsSubset(req.config.permission, params.instantiateDefault))
        then Failed(ErrUnauthorized)
        else Finished(h, req, [Set(CodeKey(req.codeID), CodeV(code.(access := req.config)))], [],
                      [Event("update_code_access_config", [Attribute("code_id", Decimal(req.codeID))])])
  }

  function PinWrites(ids: seq<u64>, pin: bool): (ws: seq<Write>) {
    if ids == [] then []
    else [if pin then Set(PinKey(ids[0]), RawV([1])) else Delete(PinKey(ids[0]))] + PinWrites(ids[1..], pin)
  }

  function Repeat(cost: u64, n: nat): (cs: seq<Charge>) {
    if n == 0 then [] else [Plain(cost)] + Repeat(cost, n - 1)
  }

  function PinEvents(ids: seq<u64>, pin: bool): (es: seq<Event>) {
    if ids == [] then []
    else [Event(if pin then "pin_code" else "unpin_code", [Attribute("code_id", Decimal(ids[0]))])] + PinEvents(ids[1..], pin)
  }

  /** How many of the codes exist and are taken by the VM, before the first one that is not. */
  function Synced(h: Host, s: Store, ids: seq<u64>): (n: nat)
    ensures n <= |ids| && (forall i :: 0 <= i < n ==> GetCode(s, ids[i]).Some?)
    ensures n < |ids| ==> GetCode(s, ids[n]).None? || !h.syncs(s, ids[n])
  {
    if ids == [] || GetCode(s, ids[0]).None? || !h.syncs(s, ids[0]) then 0 else 1 + Synced(h, s, ids[1..])
  }

  function DoPin(h: Host, s: Store, req: Request): (l: LeafResult)
    requires req.Pin? || req.Unpin?
  {
    var n, cost := Synced(h, s, req.codeIDs), if req.Pin? then h.register.pinCost else h.register.unpinCost;
    if req.sender != h.authority then Failed(ErrUnauthorized)
    else if n == |req.codeIDs| then
      Finished(h, req, PinWrites(req.codeIDs, req.Pin?), Repeat(cost, n), PinEvents(req.codeIDs, req.Pin?))
    else
      var known := GetCode(s, req.codeIDs[n]).Some?;
      LeafResult(PinWrites(req.codeIDs[..n], req.Pin?), Repeat(cost, if known then n + 1 else n), [],
                 Fail(if known then ErrSyncPinned else ErrNoSuchCode))
  }

  /** IBCRawPacketHandler: load the stored packet, acknowledge it, forget it. */
  function DoAckPacket(h: Host, s: Store, req: Request): (l: LeafResult)
    requires req.AckPacket?
  {
    match PendingPacket(s, req.port, req.channel, req.sequence)
    case None => Failed(ErrInvalid)
    case Some(packet) =>
      match h.writeAck(s, packet, req.ack)
      case Some(e) => Failed(e)
      case None =>
        var acks := AcksOf(s, packet.dstPort, packet.dstChannel, packet.sequence);
        Finished(h, req,
                 [Set(AckKey(packet.dstPort, packet.dstChannel, packet.sequence), AcksV(acks + [(packet, req.ack)])),
                  Delete(AsyncKey(req.port, req.channel, req.sequence))], [], [])
  }

  function DoNative(h: Host, s: Store, req: Request): (l: LeafResult) {
    var r := h.native(s, req);
    match r.end
    case Failure(e) => LeafResult(ForeignWrites(r.writes), [Plain(r.gas)], [], Fail(e))
    case Success((data, responses)) => LeafResult(ForeignWrites(r.writes), [Plain(r.gas)], r.events, Done([data], [responses]))
  }

  function DoExecute(h: Host, s: Store, m: Meter, ctx: Ctx, req: Request): (l: LeafResult)
    requires req.Execute?
  {
    var setup := if GetContract(s, req.contract).Some? then Setup(h, s, GetContract(s, req.contract).value.codeID, |req.payload|) else 0;
    if req.funds == map[] then CallContract(h, s, m, ctx, req, req.contract, Some(setup), [], "execute")
    else
      match h.transfer(s, req.sender, req.contract, req.funds)
      case Failure(e) => if GetContract(s, req.contract).Some? then LeafResult([], [Plain(setup)], [], Fail(e)) else Failed(ErrNoSuchContract)
      case Success(moved) => CallContract(h, s, m, ctx, req, req.contract, Some(setup), ForeignWrites(moved), "execute")
  }

  ghost function Leaf(h: Host, s: Store, m: Meter, ctx: Ctx, req: Request): (l: LeafResult) {
    match req
    case StoreCode(_, _, _) => DoStoreCode(h, s, m, ctx, req)
    case Instantiate(_, _, _, _, _, _, _) => DoInstantiate(h, s, m, ctx, req)
    case Execute(_, _, _, _) => DoExecute(h, s, m, ctx, req)
    case Migrate(_, _, _, _) => DoMigrate(h, s, m, ctx, req)
    case SetAdmin(_, _, _) => DoUpdateContract(h, s, ctx, req)
    case SetLabel(_, _, _) => DoUpdateContract(h, s, ctx, req)
    case SetAccess(_, _, _) => DoSetAccess(h, s, ctx, req)
    case Pin(_, _) => DoPin(h, s, req)
    case Unpin(_, _) => DoPin(h, s, req)
    case Sudo(sender, a, payload) =>
      if sender != h.authority then Failed(ErrUnauthorized)
      else CallContract(h, s, m, ctx, req, a,
                        Some(if GetContract(s, a).Some? then Setup(h, s, GetContract(s, a).value.codeID, |payload|) else 0), [], "sudo")
    case AckPacket(_, _, _, _) => DoAckPacket(h, s, req)
    case IbcSend(_, _, _) => DoNative(h, s, req)
    case Native(_) => DoNative(h, s, req)
    case Reply(a, _, result, _) => CallContract(h, s, m, ctx, req, a, GasRegister.ReplyCosts(h.register, true, result), [], "reply")
    case Receive(a, packet) =>
      CallContract(h, s, m, ctx, req, a,
                   Some(if GetContract(s, a).Some? then Setup(h, s, GetContract(s, a).value.codeID, |packet.data|) else 0), [], "receive")
    case Unsigned => Failed(ErrUnauthorized)
  }

  // ---------------------------------------------------------------- routing

  /** EncodeWasmMsg: the dispatching contract is the sender. */
  function EncodeWasm(c: Addr, msg: WasmMsg): (r: Request) {
    match msg
    case ExecuteMsg(a, payload, funds) => Execute(c, a, payload, funds)
    case InstantiateMsg(id, admin, payload, title, funds) => Instantiate(c, id, admin, payload, title, funds, Classic)
    case Instantiate2Msg(id, admin, payload, title, funds, salt) => Instantiate(c, id, admin, payload, title, funds, Predictable(salt, false))
    case MigrateMsg(a, id, payload) => Migrate(c, a, id, payload)
    case UpdateAdminMsg(a, admin) => SetAdmin(c, a, Some(admin))
    case ClearAdminMsg(a) => SetAdmin(c, a, None)
  }

  function Sender(req: Request): (r: Option<Addr>) {
    match req
    case StoreCode(sender, _, _) => Some(sender)
    case Instantiate(sender, _, _, _, _, _, _) => Some(sender)
    case Execute(sender, _, _, _) => Some(sender)
    case Migrate(sender, _, _, _) => Some(sender)
    case SetAdmin(sender, _, _) => Some(sender)
    case SetLabel(sender, _, _) => Some(sender)
    case SetAccess(sender, _, _) => Some(sender)
    case Pin(sender, _) => Some(sender)
    case Unpin(sender, _) => Some(sender)
    case Sudo(sender, _, _) => Some(sender)
    case _ => None
  }

  /** handleSdkMessage refuses messages that the contract did not sign. */
  function Signed(h: Host, c: Addr, r: Request): (q: Request)
    ensures Sender(q).Some? ==> Sender(q) == Some(c)
    ensures q.Native? ==> forall a :: a in h.signers(q.content) ==> a == c
  {
    if (if r.Native? then forall a | a in h.signers(r.content) :: a == c else Sender(r) == Some(c)) then r else Unsigned
  }

  function SignedAll(h: Host, c: Addr, rs: seq<Request>): (qs: seq<Request>)
    ensures |qs| == |rs| && forall i :: 0 <= i < |rs| ==> qs[i] == Signed(h, c, rs[i])
  {
    if rs == [] then [] else [Signed(h, c, rs[0])] + SignedAll(h, c, rs[1..])
  }

  /** What one handler of the chain says to a message. */
  datatype Offer = Takes(route: Route) | Unknown | Refuses(error: Error)

  function SDKMessageOffer(h: Host, c: Addr, port: PortId, msg: CosmosMsg): (r: Offer) {
    match msg
    case Wasm(w) => Takes(ToRouter([EncodeWasm(c, w)]))
    case OtherMsg(content) =>
      var encoded := h.encodeOther(c, port, content);
      if encoded.Success? then Takes(ToRouter(SignedAll(h, c, encoded.value)))
      else if IsUnknown(encoded.error) then Unknown
      else Refuses(encoded.error)
    case _ => Unknown
  }

  function IBCRawPacketOffer(port: PortId, msg: CosmosMsg): (r: Offer) {
    match msg
    case SendPacket(channel, data) =>
      if port == [] then Refuses(ErrUnsupported)
      else if channel == [] then Refuses(ErrEmpty)
      else Takes(ToHandler(IbcSend(port, channel, data)))
    case WriteAck(channel, sequence, ack) =>
      if port == [] then Refuses(ErrUnsupported)
      else if channel == [] then Refuses(ErrEmpty)
      else Takes(ToHandler(AckPacket(port, channel, sequence, ack)))
    case _ => Unknown
  }

  /** The first handler that knows the message decides. */
  function FirstOffer(offers: seq<Offer>): (r: Route) {
    if offers == [] then NoHandler(ErrUnknownMsg)
    else
      match offers[0]
      case Takes(route) => route
      case Refuses(e) => NoHandler(e)
      case Unknown => FirstOffer(offers[1..])
  }

  /** What a handler returns, given what running a route comes to. */
  function AnswerOf(offer: Offer, run: Route -> Outcome<Handled>): (out: Outcome<Handled>) {
    match offer
    case Takes(route) => run(route)
    case Refuses(e) => Err(e)
    case Unknown => Err(ErrUnknownMsg)
  }

  /** MessageHandlerChain.DispatchMsg: the first answer that is not an unknown message, also one from deep inside a run. */
  function ChainAnswer(offers: seq<Offer>, run: Route -> Outcome<Handled>): (out: Outcome<Handled>) {
    if offers == [] then Err(ErrUnknownMsg)
    else
      var out := AnswerOf(offers[0], run);
      if out.Err? && IsUnknown(out.error) then ChainAnswer(offers[1..], run) else out
  }

  method AskHandlers(offers: seq<Offer>, run: Route -> Outcome<Handled>) returns (out: Outcome<Handled>)
    ensures out == ChainAnswer(offers, run)
  {
    assert offers[0..] == offers;
    for i := 0 to |offers|
      invariant ChainAnswer(offers[i..], run) == ChainAnswer(offers, run)
    {
      assert offers[i..][0] == offers[i] && offers[i..][1..] == offers[i + 1..];
      out := AnswerOf(offers[i], run);
      if !(out.Err? && IsUnknown(out.error)) { return; }
    }
    assert offers[|offers|..] == [];
    out := Err(ErrUnknownMsg);
  }

  /** At most one handler takes a message, and those behind it do not know it. */
  predicate OneTaker(offers: seq<Offer>) {
    forall i, k :: 0 <= i < k < |offers| && !offers[i].Unknown? ==> offers[k].Unknown?
  }

  /** Then the chain's answer is that of the first handler that knows the message. */
  lemma {:induction false} FirstHandlerDecides(offers: seq<Offer>, run: Route -> Outcome<Handled>)
    requires OneTaker(offers) && forall e :: run(NoHandler(e)) == Err(e)
    ensures ChainAnswer(offers, run) == Heard(run(FirstOffer(offers)))
  {
    if offers != [] {
      assert OneTaker(offers[1..]);
      if offers[0].Unknown? {
        FirstHandlerDecides(offers[1..], run);
      } else {
        forall k | 0 <= k < |offers[1..]| ensures offers[1..][k].Unknown? { assert offers[1..][k] == offers[k + 1]; }
        NobodyKnows(offers[1..], run);
      }
    }
  }

  lemma {:induction false} NobodyKnows(offers: seq<Offer>, run: Route -> Outcome<Handled>)
    requires forall k :: 0 <= k < |offers| ==> offers[k].Unknown?
    ensures ChainAnswer(offers, run) == Err(ErrUnknownMsg)
  {
    if offers != [] { NobodyKnows(offers[1..], run); }
  }

  function Offers(h: Host, c: Addr, port: PortId, msg: CosmosMsg): (offers: seq<Offer>) {
    [SDKMessageOffer(h, c, port, msg), IBCRawPacketOffer(port, msg)]
  }

  lemma HandlersApart(h: Host, c: Addr, port: PortId, msg: CosmosMsg)
    ensures OneTaker(Offers(h, c, port, msg))
  {
    var offers := Offers(h, c, port, msg);
    assert offers[0] == SDKMessageOffer(h, c, port, msg) && offers[1] == IBCRawPacketOffer(port, msg);
  }

  function RouteMsg(h: Host, c: Addr, port: PortId, msg: CosmosMsg): (r: Route) {
    FirstOffer(Offers(h, c, port, msg))
  }

  ghost function KeeperEnv(h: Host): (env: Env) {
    Env(h.maxCallDepth, h.register,
        (s: Store, m: Meter, ctx: Ctx, req: Request) => Leaf(h, s, m, ctx, req),
        (c: Addr, port: PortId, msg: CosmosMsg) => RouteMsg(h, c, port, msg),
        h.publish, h.encode)
  }

  /** What running a route comes to. */
  ghost function RunRoute(env: Env, ctx: Ctx, w: World, route: Route): (out: Outcome<Handled>)
    requires ctx.depth <= env.maxCallDepth
  {
    match route
    case NoHandler(e) => Err(e)
    case ToRouter(requests) => RunRequests(env, ctx, w, requests, Handled([], [], [])).1
    case ToHandler(request) =>
      var out := Invoke(env, ctx, w, request).1;
      if out.Ok? then Ok(Direct(out.value)) else Pass(out)
  }

  /** Dispatching a message is asking the handlers one after the other. */
  lemma DispatchAsksHandlers(h: Host, ctx: Ctx, w: World, c: Addr, port: PortId, msg: CosmosMsg)
    requires ctx.depth <= h.maxCallDepth
    ensures DispatchMsg(KeeperEnv(h), ctx, w, c, port, msg).1
         == ChainAnswer(Offers(h, c, port, msg), (r: Route) => RunRoute(KeeperEnv(h), ctx, w, r))
  {
    HandlersApart(h, c, port, msg);
    FirstHandlerDecides(Offers(h, c, port, msg), (r: Route) => RunRoute(KeeperEnv(h), ctx, w, r));
  }
}
