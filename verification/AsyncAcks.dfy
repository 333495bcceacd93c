/**
 * Asynchronous acknowledgements. A packet received without acknowledgement data is stored; the
 * contract may acknowledge it once, later, from any call. Core IBC hands each packet over at
 * most once and writes what it is given; both are part of the model.
 */
module AsyncAcks {
  import opened Base
  import opened Types
  import opened Keys
  import opened Meters
  import opened Engine
  import opened KeeperOps
  import opened Books
  import opened BookSteps
  import opened LeafWrites
  import opened GasContainment
  import opened CallPoints
  import opened Registry

  // ---------------------------------------------------------------- packets as contracts see them

  datatype Endpoint = Endpoint(port: PortId, channel: ChannelId)

  datatype WasmPacket = WasmPacket(data: bytes, src: Endpoint, dest: Endpoint, sequence: u64, block: Option<Height>, timestamp: u64)

  /** A zero timeout height means there is none. */
  function NewIBCPacket(p: Packet): (q: WasmPacket) {
    WasmPacket(p.data, Endpoint(p.srcPort, p.srcChannel), Endpoint(p.dstPort, p.dstChannel), p.sequence,
               if p.timeoutHeight == Height(0, 0) then None else Some(p.timeoutHeight), p.timeoutTimestamp)
  }

  function ConvertPacket(q: WasmPacket): (p: Packet) {
    Packet(q.sequence, q.src.port, q.src.channel, q.dest.port, q.dest.channel, q.data,
           if q.block.Some? then q.block.value else Height(0, 0), q.timestamp)
  }

  /** Nothing is lost on the way into the contract and back, for any packet. */
  lemma PacketRoundTrip(p: Packet)
    ensures ConvertPacket(NewIBCPacket(p)) == p
  {}

  /** The other way round one packet value is not reached: a block that is present and zero. */
  lemma WasmPacketRoundTrip(q: WasmPacket)
    ensures NewIBCPacket(ConvertPacket(q)) == q <==> q.block != Some(Height(0, 0))
  {}

  // ---------------------------------------------------------------- the state of one packet

  predicate Pending(s: Store, p: PortId, c: ChannelId, q: u64) {
    AsyncKey(p, c, q) in s
  }

  /** Receipt, stored packet and acknowledgements of one packet fit together. */
  ghost predicate Paired(s: Store, p: PortId, c: ChannelId, q: u64) {
    var acks := AcksOf(s, p, c, q);
    if ReceiptKey(p, c, q) !in s then acks == [] && !Pending(s, p, c, q)
    else
      match s[ReceiptKey(p, c, q)]
      case ReceiptV(packet, delivery) =>
        && packet.dstPort == p && packet.dstChannel == c && packet.sequence == q
        && (match delivery
            case InProgress => acks == [] && !Pending(s, p, c, q)
            case Sync => |acks| == 1 && acks[0].0 == packet && !Pending(s, p, c, q)
            case Async =>
              if Pending(s, p, c, q) then acks == [] && PendingPacket(s, p, c, q) == Some(packet)
              else |acks| == 1 && acks[0].0 == packet)
      case _ => false
  }

  ghost predicate AllPaired(s: Store) {
    forall p: PortId, c: ChannelId, q: u64 :: Paired(s, p, c, q)
  }

  /** Two stores hold the same about one packet. */
  predicate SamePacket(s: Store, s': Store, p: PortId, c: ChannelId, q: u64) {
    SameAt(s, s', ReceiptKey(p, c, q)) && SameAt(s, s', AsyncKey(p, c, q)) && SameAt(s, s', AckKey(p, c, q))
  }

  lemma SameIsPaired(s: Store, s': Store, p: PortId, c: ChannelId, q: u64)
    requires SamePacket(s, s', p, c, q) && Paired(s, p, c, q)
    ensures Paired(s', p, c, q)
  {}

  lemma PacketKeys(p: PortId, c: ChannelId, q: u64, p': PortId, c': ChannelId, q': u64)
    ensures PacketTag(ReceiptKey(p, c, q)) && PacketTag(AsyncKey(p, c, q)) && PacketTag(AckKey(p, c, q))
    ensures ReceiptKey(p, c, q) != AsyncKey(p', c', q') && ReceiptKey(p, c, q) != AckKey(p', c', q') && AsyncKey(p, c, q) != AckKey(p', c', q')
    ensures !(p == p' && c == c' && q == q') ==>
              ReceiptKey(p, c, q) != ReceiptKey(p', c', q') && AsyncKey(p, c, q) != AsyncKey(p', c', q') && AckKey(p, c, q) != AckKey(p', c', q')
  {
    assert ReceiptKey(p, c, q)[0] == 0x81 && AsyncKey(p, c, q)[0] == 0x11 && AckKey(p, c, q)[0] == 0x82;
    assert AsyncKey(p', c', q')[0] == 0x11 && AckKey(p', c', q')[0] == 0x82;
    assert ReceiptKey(p, c, q)[1..] == PacketId(p, c, q) && ReceiptKey(p', c', q')[1..] == PacketId(p', c', q');
    assert AsyncKey(p, c, q)[1..] == PacketId(p, c, q) && AsyncKey(p', c', q')[1..] == PacketId(p', c', q');
    assert AckKey(p, c, q)[1..] == PacketId(p, c, q) && AckKey(p', c', q')[1..] == PacketId(p', c', q');
    if PacketId(p, c, q) == PacketId(p', c', q') { PacketIdInjective(p, c, q, p', c', q'); }
  }

  // ---------------------------------------------------------------- calls

  lemma {:induction false} TidyLeavesPackets(h: Host, s0: Store, o: Option<bytes>, s: Store, ws: seq<Write>, k: bytes)
    requires AllTidy(h, s0, o, ws) && PacketTag(k)
    ensures SameAt(s, Apply(s, ws), k)
    decreases |ws|
  {
    if ws != [] {
      assert Tidy(h, s0, o, ws[0]);
      TidyLeavesPackets(h, s0, o, ApplyOne(s, ws[0]), ws[1..], k);
    }
  }

  lemma TidySame(h: Host, s: Store, o: Option<bytes>, ws: seq<Write>, p: PortId, c: ChannelId, q: u64)
    requires AllTidy(h, s, o, ws)
    ensures SamePacket(s, Apply(s, ws), p, c, q)
  {
    PacketKeys(p, c, q, p, c, q);
    TidyLeavesPackets(h, s, o, s, ws, ReceiptKey(p, c, q));
    TidyLeavesPackets(h, s, o, s, ws, AsyncKey(p, c, q));
    TidyLeavesPackets(h, s, o, s, ws, AckKey(p, c, q));
  }

  /** The store after an acknowledgement: the packet written out, the stored copy gone. */
  function Acknowledged(s: Store, packet: Packet, p: PortId, c: ChannelId, q: u64, ack: bytes): (r: Store) {
    s[AckKey(p, c, q) := AcksV(AcksOf(s, p, c, q) + [(packet, ack)])] - {AsyncKey(p, c, q)}
  }

  lemma AckOutcome(h: Host, s: Store, req: Request)
    requires req.AckPacket? && Paired(s, req.port, req.channel, req.sequence) && Went(DoAckPacket(h, s, req))
    ensures ReceiptKey(req.port, req.channel, req.sequence) in s && s[ReceiptKey(req.port, req.channel, req.sequence)].ReceiptV?
    ensures var packet := s[ReceiptKey(req.port, req.channel, req.sequence)].received;
            Apply(s, DoAckPacket(h, s, req).writes) == Acknowledged(s, packet, req.port, req.channel, req.sequence, req.ack)
  {
    var l := DoAckPacket(h, s, req);
    TwoWrites(s, l.writes[0], l.writes[1]);
  }

  lemma AcknowledgedSame(s: Store, packet: Packet, p: PortId, c: ChannelId, q: u64, ack: bytes, p': PortId, c': ChannelId, q': u64)
    requires !(p == p' && c == c' && q == q')
    ensures SamePacket(s, Acknowledged(s, packet, p, c, q, ack), p', c', q')
  {
    PacketKeys(p, c, q, p', c', q');
    PacketKeys(p', c', q', p, c, q);
  }

  lemma AcknowledgedIsPaired(s: Store, packet: Packet, p: PortId, c: ChannelId, q: u64, ack: bytes)
    requires Paired(s, p, c, q) && PendingPacket(s, p, c, q) == Some(packet)
    ensures Paired(Acknowledged(s, packet, p, c, q, ack), p, c, q)
    ensures AcksOf(Acknowledged(s, packet, p, c, q, ack), p, c, q) == [(packet, ack)]
  {
    PacketKeys(p, c, q, p, c, q);
  }

  /** What one call does to one packet: nothing, or the acknowledgement of a pending one. */
  lemma CallOnPacket(h: Host, s: Store, m: Meter, ctx: Ctx, req: Request, p: PortId, c: ChannelId, q: u64)
    requires AllPaired(s) && Went(Leaf(h, s, m, ctx, req))
    ensures var s' := Apply(s, Leaf(h, s, m, ctx, req).writes);
            && Paired(s', p, c, q) && SameAt(s, s', ReceiptKey(p, c, q))
            && (SamePacket(s, s', p, c, q) || (Pending(s, p, c, q) && !Pending(s', p, c, q)))
  {
    var ws := Leaf(h, s, m, ctx, req).writes;
    if req.AckPacket? {
      assert Paired(s, req.port, req.channel, req.sequence);
      AckOutcome(h, s, req);
      var packet := s[ReceiptKey(req.port, req.channel, req.sequence)].received;
      PacketKeys(p, c, q, req.port, req.channel, req.sequence);
      if p == req.port && c == req.channel && q == req.sequence {
        AcknowledgedIsPaired(s, packet, p, c, q, req.ack);
      } else {
        AcknowledgedSame(s, packet, req.port, req.channel, req.sequence, req.ack, p, c, q);
        SameIsPaired(s, Apply(s, ws), p, c, q);
      }
    } else {
      LeafIsTidy(h, s, m, ctx, req);
      TidySame(h, s, PreimageOf(h, s, req), ws, p, c, q);
      SameIsPaired(s, Apply(s, ws), p, c, q);
    }
  }

  /** Acknowledgements that were written for one packet. */
  datatype Watch = Watch(port: PortId, channel: ChannelId, sequence: u64, acks: seq<(Packet, bytes)>)

  predicate Watched(s: Store, w: Watch) {
    w.acks != [] ==> AcksOf(s, w.port, w.channel, w.sequence) == w.acks
  }

  /** The receipt of a packet that is being handed over. */
  predicate Opened(s: Store, packet: Packet) {
    var k := ReceiptKey(packet.dstPort, packet.dstChannel, packet.sequence);
    k in s && s[k] == ReceiptV(packet, InProgress)
  }

  /** Everything is paired, what was acknowledged stays, and a packet under way keeps its receipt. */
  ghost predicate Underway(s: Store, packet: Option<Packet>, w: Watch) {
    AllPaired(s) && Watched(s, w) && (packet.Some? ==> Opened(s, packet.value))
  }

  ghost function PairClaim(packet: Option<Packet>, w: Watch, since: nat): (p: Claim) {
    Claim((s: Store, t: nat) => Underway(s, packet, w), _ => true, _ => true, _ => true, (_, _) => true, since)
  }

  lemma CallKeepsUnderway(h: Host, s: Store, m: Meter, ctx: Ctx, req: Request, packet: Option<Packet>, w: Watch)
    requires Underway(s, packet, w) && Went(Leaf(h, s, m, ctx, req))
    ensures Underway(Apply(s, Leaf(h, s, m, ctx, req).writes), packet, w)
  {
    var s' := Apply(s, Leaf(h, s, m, ctx, req).writes);
    forall p: PortId, c: ChannelId, q: u64 ensures Paired(s', p, c, q) { CallOnPacket(h, s, m, ctx, req, p, c, q); }
    CallOnPacket(h, s, m, ctx, req, w.port, w.channel, w.sequence);
    assert Paired(s, w.port, w.channel, w.sequence);
    if packet.Some? { CallOnPacket(h, s, m, ctx, req, packet.value.dstPort, packet.value.dstChannel, packet.value.sequence); }
  }

  lemma PairingIsInductive(h: Host, packet: Option<Packet>, w: Watch, since: nat)
    ensures Inductive(KeeperEnv(h), PairClaim(packet, w, since))
  {
    var env, claim := KeeperEnv(h), PairClaim(packet, w, since);
    forall s, t: nat, m, ctx, req | claim.store(s, t) ensures LeafKeeps(env, claim, s, t, m, ctx, req) {
      if Went(Leaf(h, s, m, ctx, req)) { CallKeepsUnderway(h, s, m, ctx, req, packet, w); }
    }
  }

  // ---------------------------------------------------------------- receiving a packet

  /** One step of a run: a transaction, or core IBC handing over a packet. */
  datatype Step = Transaction(tx: Tx) | Receipt(position: Position, meter: Meter, packet: Packet, errorAck: bytes)

  function Delivered(s: Store, packet: Packet, delivery: Delivery): (r: Store) {
    s[ReceiptKey(packet.dstPort, packet.dstChannel, packet.sequence) := ReceiptV(packet, delivery)]
  }

  function Answered(s: Store, packet: Packet, ack: bytes): (r: Store) {
    var (p, c, q) := (packet.dstPort, packet.dstChannel, packet.sequence);
    Delivered(s, packet, Sync)[AckKey(p, c, q) := AcksV(AcksOf(s, p, c, q) + [(packet, ack)])]
  }

  /** StoreAsyncAckPacket on what came back from the contract's view of the packet. */
  function StoredForLater(s: Store, packet: Packet): (r: Store) {
    var p := ConvertPacket(NewIBCPacket(packet));
    Delivered(s, packet, Async)[AsyncKey(p.dstPort, p.dstChannel, p.sequence) := PacketV(p)]
  }

  /** OnRecvPacket under core IBC: a second delivery is a no-op, a panic undoes even the receipt. */
  ghost function Deliver(h: Host, w: World, position: Position, m: Meter, packet: Packet, errorAck: bytes): (r: World) {
    match h.owner(packet.dstPort)
    case None => w
    case Some(contract) =>
      if ReceiptKey(packet.dstPort, packet.dstChannel, packet.sequence) in w.store then w
      else
        var start := w.(store := Delivered(w.store, packet, InProgress), meter := m, events := []);
        var (w', out) := Invoke(KeeperEnv(h), Ctx(0, None, position), start, Receive(contract, packet));
        match out
        case Ok(answer) =>
          if answer.Data? && answer.data.Some? then w'.(store := Answered(w'.store, packet, answer.data.value))
          else w'.(store := StoredForLater(w'.store, packet))
        case Err(_) => w'.(store := Answered(w.store, packet, errorAck), events := [])
        case _ => w'.(store := w.store, events := [])
  }

  ghost function TakeStep(h: Host, w: World, step: Step): (r: World) {
    match step
    case Transaction(tx) => Transact(KeeperEnv(h), tx.position, w, tx.meter, tx.request)
    case Receipt(position, m, packet, errorAck) => Deliver(h, w, position, m, packet, errorAck)
  }

  ghost function Relay(h: Host, w: World, steps: seq<Step>): (r: World)
    decreases |steps|
  {
    if steps == [] then w else Relay(h, TakeStep(h, w, steps[0]), steps[1..])
  }

  // ---------------------------------------------------------------- what a delivery leaves behind

  /** The packet has neither been acknowledged nor stored. */
  predicate Untouched(s: Store, packet: Packet) {
    AcksOf(s, packet.dstPort, packet.dstChannel, packet.sequence) == [] && !Pending(s, packet.dstPort, packet.dstChannel, packet.sequence)
  }

  /** Both stores hold the same about every other packet. */
  ghost predicate OthersSame(s: Store, s': Store, packet: Packet) {
    forall p: PortId, c: ChannelId, q: u64 ::
      !(p == packet.dstPort && c == packet.dstChannel && q == packet.sequence) ==> SamePacket(s, s', p, c, q)
  }

  lemma PairedAround(s: Store, s': Store, packet: Packet, w: Watch)
    requires AllPaired(s) && Watched(s, w) && Untouched(s, packet) && OthersSame(s, s', packet)
    requires Paired(s', packet.dstPort, packet.dstChannel, packet.sequence)
    ensures AllPaired(s') && Watched(s', w)
  {
    forall p: PortId, c: ChannelId, q: u64 ensures Paired(s', p, c, q) {
      if !(p == packet.dstPort && c == packet.dstChannel && q == packet.sequence) {
        assert Paired(s, p, c, q);
        SameIsPaired(s, s', p, c, q);
      }
    }
    if !(w.port == packet.dstPort && w.channel == packet.dstChannel && w.sequence == packet.sequence) {
      assert SamePacket(s, s', w.port, w.channel, w.sequence);
    }
  }

  predicate OwnKey(packet: Packet, k: bytes) {
    var (p, c, q) := (packet.dstPort, packet.dstChannel, packet.sequence);
    k == ReceiptKey(p, c, q) || k == AckKey(p, c, q) || k == AsyncKey(p, c, q)
  }

  lemma SetAround(s: Store, s': Store, packet: Packet, k: bytes, v: Value)
    requires OwnKey(packet, k) && s' == s[k := v]
    ensures OthersSame(s, s', packet)
  {
    forall p: PortId, c: ChannelId, q: u64 | !(p == packet.dstPort && c == packet.dstChannel && q == packet.sequence)
      ensures SamePacket(s, s', p, c, q)
    {
      OwnKeyApart(packet, k, p, c, q);
    }
  }

  lemma OwnKeyApart(packet: Packet, k: bytes, p: PortId, c: ChannelId, q: u64)
    requires OwnKey(packet, k) && !(p == packet.dstPort && c == packet.dstChannel && q == packet.sequence)
    ensures k != ReceiptKey(p, c, q) && k != AsyncKey(p, c, q) && k != AckKey(p, c, q)
  {
    PacketKeys(p, c, q, packet.dstPort, packet.dstChannel, packet.sequence);
    PacketKeys(packet.dstPort, packet.dstChannel, packet.sequence, p, c, q);
  }

  lemma OthersTrans(s: Store, s': Store, s'': Store, packet: Packet)
    requires OthersSame(s, s', packet) && OthersSame(s', s'', packet)
    ensures OthersSame(s, s'', packet)
  {
    forall p: PortId, c: ChannelId, q: u64 | !(p == packet.dstPort && c == packet.dstChannel && q == packet.sequence)
      ensures SamePacket(s, s'', p, c, q)
    {
      assert SamePacket(s, s', p, c, q) && SamePacket(s', s'', p, c, q);
    }
  }

  lemma DeliveredAround(s: Store, packet: Packet, delivery: Delivery, k: bytes, v: Value)
    requires OwnKey(packet, k)
    ensures OthersSame(s, Delivered(s, packet, delivery), packet) && OthersSame(s, Delivered(s, packet, delivery)[k := v], packet)
  {
    var s1 := Delivered(s, packet, delivery);
    SetAround(s, s1, packet, ReceiptKey(packet.dstPort, packet.dstChannel, packet.sequence), ReceiptV(packet, delivery));
    SetAround(s1, s1[k := v], packet, k, v);
    OthersTrans(s, s1, s1[k := v], packet);
  }

  lemma AnsweredIsPaired(s: Store, packet: Packet, ack: bytes, w: Watch)
    requires AllPaired(s) && Watched(s, w) && Untouched(s, packet)
    ensures AllPaired(Answered(s, packet, ack)) && Watched(Answered(s, packet, ack), w)
  {
    var (p, c, q) := (packet.dstPort, packet.dstChannel, packet.sequence);
    DeliveredAround(s, packet, Sync, AckKey(p, c, q), AcksV(AcksOf(s, p, c, q) + [(packet, ack)]));
    PacketKeys(p, c, q, p, c, q);
    PairedAround(s, Answered(s, packet, ack), packet, w);
  }

  lemma StoredIsPaired(s: Store, packet: Packet, w: Watch)
    requires AllPaired(s) && Watched(s, w) && Untouched(s, packet)
    ensures AllPaired(StoredForLater(s, packet)) && Watched(StoredForLater(s, packet), w)
  {
    var (p, c, q) := (packet.dstPort, packet.dstChannel, packet.sequence);
    PacketRoundTrip(packet);
    DeliveredAround(s, packet, Async, AsyncKey(p, c, q), PacketV(packet));
    PacketKeys(p, c, q, p, c, q);
    PairedAround(s, StoredForLater(s, packet), packet, w);
  }

  lemma StartIsUnderway(s: Store, packet: Packet, w: Watch)
    requires AllPaired(s) && Watched(s, w) && ReceiptKey(packet.dstPort, packet.dstChannel, packet.sequence) !in s
    ensures Untouched(s, packet) && Underway(Delivered(s, packet, InProgress), Some(packet), w)
  {
    var (p, c, q) := (packet.dstPort, packet.dstChannel, packet.sequence);
    assert Paired(s, p, c, q);
    DeliveredAround(s, packet, InProgress, ReceiptKey(p, c, q), ReceiptV(packet, InProgress));
    PacketKeys(p, c, q, p, c, q);
    PairedAround(s, Delivered(s, packet, InProgress), packet, w);
  }

  lemma OpenedIsUntouched(s: Store, packet: Packet)
    requires AllPaired(s) && Opened(s, packet)
    ensures Untouched(s, packet)
  {
    assert Paired(s, packet.dstPort, packet.dstChannel, packet.sequence);
  }

  // ---------------------------------------------------------------- runs

  lemma DeliverKeeps(h: Host, w: World, position: Position, m: Meter, packet: Packet, errorAck: bytes, watch: Watch)
    requires AllPaired(w.store) && Watched(w.store, watch)
    ensures var w' := Deliver(h, w, position, m, packet, errorAck); AllPaired(w'.store) && Watched(w'.store, watch)
  {
    if h.owner(packet.dstPort).Some? && ReceiptKey(packet.dstPort, packet.dstChannel, packet.sequence) !in w.store {
      StartIsUnderway(w.store, packet, watch);
      AnsweredIsPaired(w.store, packet, errorAck, watch);
      var start := w.(store := Delivered(w.store, packet, InProgress), meter := m, events := []);
      var (w', out) := Invoke(KeeperEnv(h), Ctx(0, None, position), start, Receive(h.owner(packet.dstPort).value, packet));
      CallbackKeeps(h, start, position, Receive(h.owner(packet.dstPort).value, packet), Some(packet), watch);
      if out.Ok? {
        OpenedIsUntouched(w'.store, packet);
        StoredIsPaired(w'.store, packet, watch);
        if out.value.Data? && out.value.data.Some? { AnsweredIsPaired(w'.store, packet, out.value.data.value, watch); }
      }
    }
  }

  lemma CallbackKeeps(h: Host, w: World, position: Position, req: Request, packet: Option<Packet>, watch: Watch)
    requires Underway(w.store, packet, watch)
    ensures var (w', out) := Invoke(KeeperEnv(h), Ctx(0, None, position), w, req); out.Ok? ==> Underway(w'.store, packet, watch)
  {
    PairingIsInductive(h, packet, watch, |w.journal|);
    InvokeKeeps(KeeperEnv(h), PairClaim(packet, watch, |w.journal|), Ctx(0, None, position), w, req);
  }

  lemma {:induction false} RelayKeeps(h: Host, w: World, steps: seq<Step>, watch: Watch)
    requires AllPaired(w.store) && Watched(w.store, watch)
    ensures var w' := Relay(h, w, steps); AllPaired(w'.store) && Watched(w'.store, watch)
    decreases |steps|
  {
    if steps != [] {
      StepKeepsPairing(h, w, steps[0], watch);
      RelayKeeps(h, TakeStep(h, w, steps[0]), steps[1..], watch);
    }
  }

  lemma StepKeepsPairing(h: Host, w: World, step: Step, watch: Watch)
    requires AllPaired(w.store) && Watched(w.store, watch)
    ensures var w' := TakeStep(h, w, step); AllPaired(w'.store) && Watched(w'.store, watch)
  {
    match step
    case Transaction(tx) => CallbackKeeps(h, w.(meter := tx.meter, events := []), tx.position, tx.request, None, watch);
    case Receipt(position, m, packet, errorAck) => DeliverKeeps(h, w, position, m, packet, errorAck, watch);
  }

  ghost predicate NoPackets(s: Store) {
    forall k :: k in s ==> !PacketTag(k)
  }

  /**
   * From a store without packets, after any run: at most one acknowledgement per packet, for
   * the packet that was received, and a packet is pending exactly when it was received without
   * acknowledgement data and has not been acknowledged since.
   */
  lemma AtMostOneAck(h: Host, w: World, steps: seq<Step>, p: PortId, c: ChannelId, q: u64)
    requires NoPackets(w.store)
    ensures var s := Relay(h, w, steps).store;
            var acks := AcksOf(s, p, c, q);
            && |acks| <= 1
            && (acks != [] ==> IsReceived(s, p, c, q) && acks[0].0 == s[ReceiptKey(p, c, q)].received)
            && (Pending(s, p, c, q) <==> IsReceived(s, p, c, q) && s[ReceiptKey(p, c, q)].delivery.Async? && acks == [])
            && (Pending(s, p, c, q) ==> PendingPacket(s, p, c, q) == Some(s[ReceiptKey(p, c, q)].received))
  {
    EmptyIsPaired(w.store);
    RelayKeeps(h, w, steps, Watch(p, c, q, []));
    assert Paired(Relay(h, w, steps).store, p, c, q);
  }

  predicate IsReceived(s: Store, p: PortId, c: ChannelId, q: u64) {
    ReceiptKey(p, c, q) in s && s[ReceiptKey(p, c, q)].ReceiptV?
  }

  lemma EmptyIsPaired(s: Store)
    requires NoPackets(s)
    ensures AllPaired(s)
  {
    forall p: PortId, c: ChannelId, q: u64 ensures Paired(s, p, c, q) { PacketKeys(p, c, q, p, c, q); }
  }

  /** What was acknowledged is never acknowledged again or changed. */
  lemma AckIsFinal(h: Host, w: World, steps: seq<Step>, p: PortId, c: ChannelId, q: u64)
    requires AllPaired(w.store) && AcksOf(w.store, p, c, q) != []
    ensures AcksOf(Relay(h, w, steps).store, p, c, q) == AcksOf(w.store, p, c, q)
  {
    RelayKeeps(h, w, steps, Watch(p, c, q, AcksOf(w.store, p, c, q)));
  }
}
