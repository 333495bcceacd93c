/**
 * The records x/wasm stores and passes around. A byte slice that Go may leave nil is an
 * Option; a Bech32 string is the address bytes it stands for.
 */
module Types {
  import opened Base

  /** Account addresses; the SDK refuses to length-prefix more than 255 bytes. */
  type Addr = a: bytes | |a| <= 255

  /** The address of an account that signs: never empty. */
  type Account = a: Addr | a != [] witness [0]

  /** IBC port identifiers never hold a zero byte. */
  type PortId = p: bytes | 0 !in p

  /** IBC channel identifiers, shorter than 16 MiB. */
  type ChannelId = c: bytes | |c| < 0x100_0000

  datatype Position = Position(height: u64, index: u64)

  datatype AccessType = Unspecified | Nobody | Everybody | AnyOfAddresses

  datatype AccessConfig = AccessConfig(permission: AccessType, addresses: seq<Addr>)

  datatype Params = Params(uploadAccess: AccessConfig, instantiateDefault: AccessType)

  datatype CodeInfo = CodeInfo(hash: bytes, creator: Addr, access: AccessConfig)

  /** An empty port stands for "no IBC port", an absent admin for "no admin". */
  datatype ContractInfo = ContractInfo(
    codeID: u64,
    creator: Account,
    admin: Option<Addr>,
    title: string,
    created: Position,
    ibcPort: PortId,
    ibc2Port: PortId)

  datatype Operation = InitOp | MigrateOp | GenesisOp

  datatype HistoryEntry = HistoryEntry(operation: Operation, codeID: u64, updated: Position, msg: bytes)

  datatype Height = Height(revision: u64, height: u64)

  datatype Packet = Packet(
    sequence: u64,
    srcPort: PortId,
    srcChannel: ChannelId,
    dstPort: PortId,
    dstChannel: ChannelId,
    data: bytes,
    timeoutHeight: Height,
    timeoutTimestamp: u64)

  /** How far core IBC has got with a received packet. */
  datatype Delivery = InProgress | Async | Sync

  /** What a store key can hold. */
  datatype Value =
    | CodeV(code: CodeInfo)
    | ContractV(contract: ContractInfo)
    | EntryV(entry: HistoryEntry)
    | ParamsV(params: Params)
    | PacketV(packet: Packet)
    | ReceiptV(received: Packet, delivery: Delivery)
    | AcksV(acks: seq<(Packet, bytes)>)
    | RawV(raw: bytes)

  type Store = map<bytes, Value>

  datatype Write = Set(key: bytes, value: Value) | Delete(key: bytes)

  function ApplyOne(s: Store, w: Write): (r: Store) {
    match w
    case Set(k, v) => s[k := v]
    case Delete(k) => s - {k}
  }

  /** The store after performing the writes in order. */
  function Apply(s: Store, ws: seq<Write>): (r: Store)
    decreases |ws|
  {
    if ws == [] then s else Apply(ApplyOne(s, ws[0]), ws[1..])
  }

  lemma ApplyCons(s: Store, w: Write, ws: seq<Write>)
    ensures Apply(s, [w] + ws) == Apply(ApplyOne(s, w), ws)
  {
    assert ([w] + ws)[1..] == ws;
  }

  lemma {:induction false} ApplyConcat(s: Store, a: seq<Write>, b: seq<Write>)
    ensures Apply(s, a + b) == Apply(Apply(s, a), b)
    decreases |a|
  {
    if a == [] {
      assert a + b == b;
    } else {
      assert (a + b)[1..] == a[1..] + b;
      ApplyConcat(ApplyOne(s, a[0]), a[1..], b);
    }
  }

  type Coins = map<string, nat>

  datatype Attribute = Attribute(key: string, value: string)
  datatype Event = Event(kind: string, attributes: seq<Attribute>)

  datatype Error = Error(codespace: string, code: nat, text: string, deterministic: bool)

  /** errorsmod.Wrap: the code survives, the marker for deterministic texts does not. */
  function Wrap(e: Error, text: string): (r: Error) {
    Error(e.codespace, e.code, text + ": " + e.text, false)
  }

  datatype Action = InstantiateAction | MigrateAction

  datatype Policy =
    | DefaultPolicy
    | GovPolicy(propagate: set<Action>)
    | PartialGovPolicy(action: Action, base: Policy)

  datatype Any = Any(typeUrl: string, value: bytes)

  datatype ReplyOn = ReplySuccess | ReplyError | ReplyAlways | ReplyNever | ReplyInvalid

  datatype WasmMsg =
    | ExecuteMsg(contract: Addr, payload: bytes, funds: Coins)
    | InstantiateMsg(codeID: u64, admin: Option<Addr>, payload: bytes, title: string, funds: Coins)
    | Instantiate2Msg(codeID: u64, admin: Option<Addr>, payload: bytes, title: string, funds: Coins, salt: bytes)
    | MigrateMsg(contract: Addr, codeID: u64, payload: bytes)
    | UpdateAdminMsg(contract: Addr, newAdmin: Addr)
    | ClearAdminMsg(contract: Addr)

  /** Messages a contract can return; everything outside wasm and raw IBC stays opaque. */
  datatype CosmosMsg =
    | Wasm(wasm: WasmMsg)
    | SendPacket(channel: ChannelId, data: bytes)
    | WriteAck(channel: ChannelId, sequence: u64, ack: bytes)
    | OtherMsg(content: bytes)

  datatype SubMsg = SubMsg(id: u64, payload: bytes, msg: CosmosMsg, gasLimit: Option<u64>, replyOn: ReplyOn)

  datatype Response = Response(
    messages: seq<SubMsg>,
    attributes: seq<Attribute>,
    events: seq<Event>,
    data: Option<bytes>)

  datatype SubMsgResult =
    | SubOk(events: seq<Event>, data: bytes, responses: seq<Any>)
    | SubErr(text: string)

  datatype AddressGenerator = Classic | Predictable(salt: bytes, fixMsg: bool)

  /** One call into a handler or a contract. */
  datatype Request =
    | StoreCode(sender: Addr, wasm: bytes, permission: Option<AccessConfig>)
    | Instantiate(sender: Addr, codeID: u64, admin: Option<Addr>, payload: bytes, title: string, funds: Coins, generator: AddressGenerator)
    | Execute(sender: Addr, contract: Addr, payload: bytes, funds: Coins)
    | Migrate(sender: Addr, contract: Addr, codeID: u64, payload: bytes)
    | SetAdmin(sender: Addr, contract: Addr, admin: Option<Addr>)
    | SetLabel(sender: Addr, contract: Addr, title: string)
    | SetAccess(sender: Addr, codeID: u64, config: AccessConfig)
    | Pin(sender: Addr, codeIDs: seq<u64>)
    | Unpin(sender: Addr, codeIDs: seq<u64>)
    | Sudo(sender: Addr, contract: Addr, payload: bytes)
    | AckPacket(port: PortId, channel: ChannelId, sequence: u64, ack: bytes)
    | IbcSend(port: PortId, channel: ChannelId, data: bytes)
    | Native(content: bytes)
    | Reply(contract: Addr, id: u64, result: SubMsgResult, payload: bytes)
    | Receive(contract: Addr, packet: Packet)
    | Unsigned  // an SDK message the dispatching contract did not sign

  /** The parts of sdk.Context a handler reads besides store, gas meter and event manager. */
  datatype Ctx = Ctx(depth: u32, policy: Option<Policy>, position: Position)
}
