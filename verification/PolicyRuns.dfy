/** Down a message tree the authorization policy never widens. */
module PolicyRuns {
  import opened Base
  import opened Types
  import opened Keys
  import opened Meters
  import opened Engine
  import opened History
  import opened Policies
  import opened Registry
  import opened RegistrySteps
  import opened KeeperOps
  import opened Books
  import opened BookSteps
  import opened LeafWrites
  import opened CallPoints
  import GasRegister

  predicate Ordinary(h: Host, req: Request) {
    Sender(req) != Some(h.authority)
  }

  /** The one action the authority hands down with a root message. */
  function Root(h: Host, req: Request): (r: Option<Action>) {
    if Ordinary(h, req) then None
    else if req.Instantiate? && InstantiateAction in h.propagate then Some(InstantiateAction)
    else if req.Migrate? && MigrateAction in h.propagate then Some(MigrateAction)
    else None
  }

  /** Contract addresses are hashes; none of them is the authority's. */
  ghost predicate AuthorityIsNoContract(h: Host) {
    forall pre: bytes :: h.addressOf(pre) != h.authority
  }

  // ---------------------------------------------------------------- no contract at the authority's address

  /** No call creates a contract at an address that is not a hash. */
  lemma LeafClear(h: Host, s: Store, m: Meter, ctx: Ctx, req: Request, k: Addr)
    requires ContractKey(k) !in s && (forall pre: bytes :: h.addressOf(pre) != k)
    ensures var l := Leaf(h, s, m, ctx, req); Went(l) ==> ContractKey(k) !in Apply(s, l.writes)
  {
    var l := Leaf(h, s, m, ctx, req);
    if Went(l) {
      if req.AckPacket? {
        AckWritesPackets(h, s, req);
        assert !PacketTag(ContractKey(k));
      } else {
        LeafIsTidy(h, s, m, ctx, req);
        forall i | 0 <= i < |l.writes| ensures l.writes[i].key != ContractKey(k) { TidyMisses(h, s, PreimageOf(h, s, req), l.writes[i], k); }
      }
      MissedStays(s, l.writes, ContractKey(k));
    }
  }

  lemma TidyMisses(h: Host, s: Store, o: Option<bytes>, w: Write, k: Addr)
    requires Tidy(h, s, o, w) && ContractKey(k) !in s && (forall pre: bytes :: h.addressOf(pre) != k)
    ensures w.key != ContractKey(k)
  {
    forall pre: bytes ensures ContractKey(h.addressOf(pre)) != ContractKey(k) {
      assert ContractKey(h.addressOf(pre))[1..] == h.addressOf(pre) && ContractKey(k)[1..] == k;
    }
  }

  lemma {:induction false} MissedStays(s: Store, ws: seq<Write>, k: bytes)
    requires (forall i :: 0 <= i < |ws| ==> ws[i].key != k) && k !in s
    ensures k !in Apply(s, ws)
    decreases |ws|
  {
    if ws != [] { MissedStays(ApplyOne(s, ws[0]), ws[1..], k); }
  }

  // ---------------------------------------------------------------- what a call hands down

  /** The policy in force while the response of a call is dispatched. */
  function HandedDown(h: Host, ctx: Ctx, req: Request): (p: Option<Policy>) {
    match req
    case Instantiate(sender, _, _, _, _, _, _) =>
      Some(SubMessagePolicy(SelectPolicy(h.authority, h.propagate, ctx.policy, sender), InstantiateAction))
    case Migrate(sender, _, _, _) =>
      Some(SubMessagePolicy(SelectPolicy(h.authority, h.propagate, ctx.policy, sender), MigrateAction))
    case _ => ctx.policy
  }

  lemma CalledHandsDown(h: Host, s: Store, m: Meter, ctx: Ctx, req: Request, a: Addr, setup: Option<u64>, pre: seq<Write>, kind: string)
    ensures var l := CallContract(h, s, m, ctx, req, a, setup, pre, kind);
            l.end.Respond? ==> l.end.policy == ctx.policy && GetContract(s, l.end.contract).Some?
  {}

  lemma InstantiateHandsDown(h: Host, s: Store, m: Meter, ctx: Ctx, req: Request)
    requires req.Instantiate?
    ensures var l := DoInstantiate(h, s, m, ctx, req);
            l.end.Respond? ==> l.end.policy == HandedDown(h, ctx, req) && exists pre :: l.end.contract == h.addressOf(pre)
  {
    if DoInstantiate(h, s, m, ctx, req).end.Respond? {
      var code := GetCode(s, req.codeID).value;
      var pre := AddressPreimage(h, s, req, code.hash).value;
      SetUpHandsDown(h, s, m, ctx, req, SelectPolicy(h.authority, h.propagate, ctx.policy, req.sender), code.hash,
                     Setup(h, s, req.codeID, |req.payload|), h.addressOf(pre), NewAddress(h, s, req, code.hash).value.1);
    }
  }

  lemma SetUpHandsDown(h: Host, s: Store, m: Meter, ctx: Ctx, req: Request, policy: Policy, hash: bytes, setup: u64, a: Addr, reserve: seq<Write>)
    requires req.Instantiate? && req.sender != []
    ensures var l := SetUpContract(h, s, m, ctx, req, policy, hash, setup, a, reserve);
            l.end.Respond? ==> l.end.policy == Some(SubMessagePolicy(policy, InstantiateAction)) && l.end.contract == a
  {}

  lemma MigrationHandsDown(h: Host, s: Store, m: Meter, ctx: Ctx, req: Request, policy: Policy, hash: bytes, info: ContractInfo, call: bool)
    requires req.Migrate?
    ensures var l := RunMigration(h, s, m, ctx, req, policy, hash, info, call);
            l.end.Respond? ==> l.end.policy == Some(SubMessagePolicy(policy, MigrateAction)) && l.end.contract == req.contract
  {}

  lemma MigrateHandsDown(h: Host, s: Store, m: Meter, ctx: Ctx, req: Request)
    requires req.Migrate?
    ensures var l := DoMigrate(h, s, m, ctx, req);
            l.end.Respond? ==> l.end.policy == HandedDown(h, ctx, req) && GetContract(s, l.end.contract).Some?
  {
    if DoMigrate(h, s, m, ctx, req).end.Respond? {
      var held := GetContract(s, req.contract).value;
      var code := GetCode(s, req.codeID).value;
      var report := h.analyze(code.hash).value;
      var oldReport := h.analyze(GetCode(s, held.codeID).value.hash).value;
      var port := if report.hasIBC && held.ibcPort == [] then h.port(req.contract) else held.ibcPort;
      MigrationHandsDown(h, s, m, ctx, req, SelectPolicy(h.authority, h.propagate, ctx.policy, req.sender), code.hash,
                         held.(ibcPort := port, ibc2Port := h.port2(req.contract)),
                         report.migrateVersion.None? || report.migrateVersion != oldReport.migrateVersion);
    }
  }

  lemma LeafHandsDown(h: Host, s: Store, m: Meter, ctx: Ctx, req: Request)
    ensures var l := Leaf(h, s, m, ctx, req);
            l.end.Respond? ==>
              && l.end.policy == HandedDown(h, ctx, req)
              && (GetContract(s, l.end.contract).Some? || exists pre :: l.end.contract == h.addressOf(pre))
  {
    match req
    case Instantiate(_, _, _, _, _, _, _) => InstantiateHandsDown(h, s, m, ctx, req);
    case Migrate(_, _, _, _) => MigrateHandsDown(h, s, m, ctx, req);
    case Execute(_, a, payload, funds) =>
      var setup := if GetContract(s, a).Some? then Setup(h, s, GetContract(s, a).value.codeID, |payload|) else 0;
      CalledHandsDown(h, s, m, ctx, req, a, Some(setup), [], "execute");
      var r := h.transfer(s, req.sender, a, funds);
      if r.Success? { CalledHandsDown(h, s, m, ctx, req, a, Some(setup), ForeignWrites(r.value), "execute"); }
    case Sudo(_, a, payload) =>
      CalledHandsDown(h, s, m, ctx, req, a,
                      Some(if GetContract(s, a).Some? then Setup(h, s, GetContract(s, a).value.codeID, |payload|) else 0), [], "sudo");
    case Reply(a, _, result, _) =>
      CalledHandsDown(h, s, m, ctx, req, a, GasRegister.ReplyCosts(h.register, true, result), [], "reply");
    case Receive(a, packet) =>
      CalledHandsDown(h, s, m, ctx, req, a,
                      Some(if GetContract(s, a).Some? then Setup(h, s, GetContract(s, a).value.codeID, |packet.data|) else 0), [], "receive");
    case _ =>
  }

  /** An ordinary call hands down a narrow policy; the root message hands down its action. */
  lemma HandedDownIsNarrow(h: Host, ctx: Ctx, req: Request, root: Request)
    requires NarrowContext(ctx.policy, Root(h, root)) && (req == root || Ordinary(h, req))
    ensures NarrowContext(HandedDown(h, ctx, req), Root(h, root))
  {}

  /** Below a root message: narrow contexts, ordinary messages, and only contracts answer. */
  ghost function PolicyClaim(h: Host, root: Request): (p: Claim) {
    Claim((s: Store, t: nat) => ContractKey(h.authority) !in s,
          (ctx: Ctx) => NarrowContext(ctx.policy, Root(h, root)),
          (req: Request) => Ordinary(h, req),
          (c: Addr) => c != h.authority,
          (_, _) => true, 1)
  }

  lemma RoutesOrdinary(h: Host, root: Request, c: Addr, port: PortId, msg: CosmosMsg)
    requires c != h.authority
    ensures Routes(PolicyClaim(h, root), RouteMsg(h, c, port, msg))
  {
    var offers := Offers(h, c, port, msg);
    assert offers[1..][0] == offers[1] && offers[1..][1..] == [];
    assert FirstOffer(offers[1..][1..]) == NoHandler(ErrUnknownMsg);
    assert FirstOffer(offers) == if offers[0].Unknown? then FirstOffer(offers[1..]) else if offers[0].Takes? then offers[0].route else NoHandler(offers[0].error);
  }

  /** What a call of the claim or the root message itself leads to. */
  lemma PolicyStep(h: Host, s: Store, t: nat, m: Meter, ctx: Ctx, req: Request, root: Request)
    requires AuthorityIsNoContract(h) && ContractKey(h.authority) !in s
    requires NarrowContext(ctx.policy, Root(h, root)) && (req == root || Ordinary(h, req))
    ensures LeafKeeps(KeeperEnv(h), PolicyClaim(h, root), s, t, m, ctx, req)
  {
    LeafClear(h, s, m, ctx, req, h.authority);
    LeafHandsDown(h, s, m, ctx, req);
    HandedDownIsNarrow(h, ctx, req, root);
  }

  lemma PolicyIsInductive(h: Host, root: Request)
    requires AuthorityIsNoContract(h)
    ensures Inductive(KeeperEnv(h), PolicyClaim(h, root))
  {
    var env, p := KeeperEnv(h), PolicyClaim(h, root);
    forall s, t, m, ctx, req | p.store(s, t) && p.context(ctx) && p.request(req) ensures LeafKeeps(env, p, s, t, m, ctx, req) {
      PolicyStep(h, s, t, m, ctx, req, root);
    }
    forall c, port, msg | p.contract(c) ensures Routes(p, env.route(c, port, msg)) { RoutesOrdinary(h, root, c, port, msg); }
  }

  /** The policy a message with a sender is decided by is a narrow one. */
  predicate DecidedNarrowly(h: Host, root: Request, ctx: Ctx, req: Request) {
    Sender(req).Some? ==> Narrow(SelectPolicy(h.authority, h.propagate, ctx.policy, Sender(req).value), Root(h, root))
  }

  /** The root call's own work: everything it sets off starts under the claim. */
  lemma RootBegins(h: Host, w: World, ctx: Ctx, root: Request)
    requires AuthorityIsNoContract(h) && ContractKey(h.authority) !in w.store && w.journal == [] && ctx.depth == 0 && ctx.policy == None
    ensures Begins(KeeperEnv(h), PolicyClaim(h, root), ctx, Begin(KeeperEnv(h), ctx, w, root))
  {
    PolicyStep(h, w.store, w.tick, w.meter, ctx, root, root);
  }

  lemma BelowRoot(h: Host, w: World, ctx: Ctx, root: Request)
    requires AuthorityIsNoContract(h) && ContractKey(h.authority) !in w.store && w.journal == [] && ctx.depth == 0 && ctx.policy == None
    ensures var (w', out) := Invoke(KeeperEnv(h), ctx, w, root); Ends(KeeperEnv(h), PolicyClaim(h, root), w', out)
  {
    PolicyIsInductive(h, root);
    RootBegins(h, w, ctx, root);
    RestKeeps(KeeperEnv(h), PolicyClaim(h, root), ctx, w, root);
  }

  /**
   * Every call below a root message, at any depth and in replies, is made by a contract and decided
   * by the default policy or by the one action the root handed down, so code is never created and
   * access never changed on the authority's behalf, not even when a contract sends the root
   * message again.
   */
  lemma PolicyNeverWidens(h: Host, w: World, position: Position, root: Request)
    requires AuthorityIsNoContract(h) && ContractKey(h.authority) !in w.store && w.journal == []
    ensures var (w', out) := Invoke(KeeperEnv(h), Ctx(0, None, position), w, root);
            && (out.Ok? ==> ContractKey(h.authority) !in w'.store)
            && (forall i :: 0 < i < |w'.journal| && w'.journal[i].Called? ==>
                 Ordinary(h, w'.journal[i].request) && DecidedNarrowly(h, root, w'.journal[i].ctx, w'.journal[i].request))
  {
    BelowRoot(h, w, Ctx(0, None, position), root);
    var w' := Invoke(KeeperEnv(h), Ctx(0, None, position), w, root).0;
    forall i | 0 < i < |w'.journal| && w'.journal[i].Called?
      ensures Ordinary(h, w'.journal[i].request) && DecidedNarrowly(h, root, w'.journal[i].ctx, w'.journal[i].request)
    {
      CallIsNarrow(h, root, w'.journal[i].ctx, w'.journal[i].request);
    }
  }

  lemma CallIsNarrow(h: Host, root: Request, ctx: Ctx, req: Request)
    requires NarrowContext(ctx.policy, Root(h, root)) && Ordinary(h, req)
    ensures DecidedNarrowly(h, root, ctx, req)
  {}
}
