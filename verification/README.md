# x/wasm in Dafny

This project models the `x/wasm` module of a CosmWasm chain and proves what it is meant to
guarantee. Contracts return submessages that run in their own store layer, perhaps under their own
gas meter, and may be followed by a reply that returns more submessages; around that recursion sit
the records of codes and contracts, their indexes and counters, asynchronous IBC acknowledgements,
pinned codes, genesis, authz grants and two byte-level codecs.

The wasm VM, the bank, the account keeper, core IBC, native SDK messages, JSON, gzip and the address
hash are functions the model is given (`KeeperOps.Host` and a few parameters): a contract call may
write anything below its own prefix, use any gas and return any response, error or failure. Where a
result needs something about them it says so in its `requires` (an address hash without collisions
among the inputs that occurred, lossless compression, a VM that returns the bytes it stored).

## How it is put together

- `Base`, `Types`, `Keys`, `OrderedStore`: machine words, records, every store key, the ordered
  key-value store with its prefix scans. One store holds all records, each under its own first byte;
  first bytes from 0x80 on stand for the stores of other modules.
- `GasRegister`, `Meters`: prices and gas meters on 64-bit words that wrap around.
- `Engine`: what dispatching a response means, on values. Outcomes are success, error, out of gas and
  other panics; gas is never given back. Everything a call does before its response is dispatched is
  one function, `leaf`. The recursion terminates by depth left and submessages left, without gas.
- `Dispatcher`: the same as it is written, with objects: cache stores as overlays on a parent,
  a shared gas meter, event managers. Every method is proved to do what the Engine function of
  the same name says.
- `GasContainment`, `CallPoints`, `Journal`, `Responses`: properties of every dispatch tree.
  `CallPoints` is the induction all results over runs go through: what each single call keeps holds
  at the end and at every call, at any depth, in replies, and inside submessages that are undone
  later. `Journal` replays the log of a run on a stack machine that knows nothing of recursion.
- `History`, `Policies`, `KeeperOps`, `KeeperStore`: code history, authorization policies, the keeper
  operations as write lists, and the same updates as methods on a store object.
- `Registry`, `RegistrySteps`, `Books`, `BookSteps`, `Listing`, `Origins`: contract records, histories,
  indexes and counters agree in every reachable state, so listings are exact; where addresses come from.
- `LeafWrites`, `PolicyRuns`, `Permanence`, `AsyncAcks`, `Pinning`, `Snapshots`, `Genesis`: policies
  down a message tree, what is never overwritten, acknowledgements, pinned codes, snapshots, genesis.
- `Authz`, `Protobuf`: grants that are used up, and the protobuf codec of the authz messages.

Where a property turned out not to hold for all inputs, the model keeps the code as it is and the
exact condition is proved: the unit conversion (`GasRegister.ConversionIsExact`, `WrapTestIsSound`),
the depth check (`CallPoints.DepthCheckTrips`), contract state keys (`Keys.StateKeysOverlap`), packet
keys (`Keys.PortsCollide`), the genesis round trip (`Genesis.GenesisRoundTrip`) and the start-up sync
of pinned codes (`Pinning.InitializePinnedCodes`).

## Model

| member | source | states |
|---|---|---|
| `Dispatcher.CacheStore.Branch` | x/wasm/keeper/msg_dispatcher.go:104-107 | a new layer reads exactly like the store below it |
| `Dispatcher.CacheStore.Perform` | x/wasm/keeper/msg_dispatcher.go:104-107 | writes show in this layer; every layer below reads as before |
| `Dispatcher.CacheStore.Commit` | x/wasm/keeper/msg_dispatcher.go:123-126 | after a commit the parent reads like the layer did |
| `Dispatcher.GasMeter.ConsumeGas` | x/wasm/keeper/keeper.go:1421-1428 | gas is added first and the signal raised afterwards |
| `Dispatcher.FilterLoop` | x/wasm/keeper/msg_dispatcher.go:232-241 | the loop keeps the events that are not of type "message", in order |
| `Dispatcher.MessageDispatcher.DispatchSubmessages` | x/wasm/keeper/msg_dispatcher.go:96-206 | the loop over layers, meters and event managers leaves store, gas, events, log and data as the function on values says |
| `Dispatcher.MessageDispatcher.SubmessageAndReply` | x/wasm/keeper/msg_dispatcher.go:98-204 | one turn of the loop: which outcomes reply, which abort, what the reply carries |
| `Dispatcher.MessageDispatcher.RunSub` | x/wasm/keeper/msg_dispatcher.go:104-139 | a submessage in its layer equals the function that restores a snapshot |
| `Dispatcher.MessageDispatcher.Sandbox` | x/wasm/keeper/msg_dispatcher.go:109-121 | dispatch under the caller's meter or under a new one that is settled afterwards |
| `Dispatcher.MessageDispatcher.LimitedSandbox` | x/wasm/keeper/msg_dispatcher.go:64-92 | dispatch under a new meter of the given limit, then the caller is charged as the settling function says |
| `Dispatcher.MessageDispatcher.ChargeParent` | x/wasm/keeper/msg_dispatcher.go:64-92 | recovery from out of gas, and from a panic of the final charge, as the settling function says |
| `Dispatcher.MessageDispatcher.Close` | x/wasm/keeper/msg_dispatcher.go:123-139 | commit with filtered and perhaps sorted events, or nothing |
| `Dispatcher.MessageDispatcher.HandleResponse` | x/wasm/keeper/keeper.go:1376-1408 | events are paid for and emitted, the depth checked, submessages dispatched, data chosen |
| `Dispatcher.MessageDispatcher.Invoke` | x/wasm/keeper/keeper.go:416-466 | a call and the dispatch of its response equal the function on values |
| `Dispatcher.MessageDispatcher.RunRequests` | x/wasm/keeper/handler_plugin.go:71-92 | SDK messages run one by one under their own event managers; events, data and responses are collected in order |
| `Dispatcher.MessageDispatcher.DispatchMsg` | x/wasm/keeper/handler_plugin.go:147-160 | the handler that takes the message runs it, or its error is returned; an unknown message anywhere below is an unknown message here |
| `KeeperOps.AskHandlers` | x/wasm/keeper/handler_plugin.go:147-160 | the loop returns the first answer that is not an unknown message, including one raised deep inside a run |
| `KeeperOps.FirstHandlerDecides` | x/wasm/keeper/handler_plugin.go:143-160 | if nobody behind the first handler that knows a message knows it too, the chain's answer is that handler's, with any unknown message turned into that one error |
| `KeeperOps.HandlersApart` | x/wasm/keeper/handler_plugin.go:55-60 | the handlers of the keeper are apart in this sense |
| `KeeperOps.DispatchAsksHandlers` | x/wasm/keeper/handler_plugin.go:147-160 | so dispatching a message is asking the handlers one after the other |
| `KeeperOps.Signed` | x/wasm/keeper/handler_plugin.go:102-111 | what passes the signer check is signed by the contract alone, native messages included |
| `Journal.CallIsItsJournal` | x/wasm/keeper/msg_dispatcher.go:96-206 | store, gas, events and outcome of any call tree are what a stack of snapshots makes of its log: dropped frames vanish, committed ones are handed down, gas only adds up, out of gas is absorbed by the nearest limited frame and by no other |
| `Journal.FailedSubmessagesLeaveNoTrace` | x/wasm/keeper/msg_dispatcher.go:123-139 | the store after any call tree is the store before it with exactly those writes applied, in order, that no failed submessage around them took back |
| `Responses.ResponseDataIsLastReply` | x/wasm/keeper/msg_dispatcher.go:195-206 | the data of a call is that of the last reply that returned any, else the contract's own |
| `Responses.NoMessageEventsCross` | x/wasm/keeper/msg_dispatcher.go:232-241 | no "message" event crosses a boundary and filtering twice changes nothing |
| `Responses.FilterConcat` | x/wasm/keeper/msg_dispatcher.go:127-128 | filtering emitted and returned events together is filtering each |
| `Responses.SortIsStable` | x/wasm/keeper/msg_dispatcher.go:132-137 | attributes end up sorted by key, as a permutation, equal keys in their old order |
| `Responses.BoundaryKeepsEvents` | x/wasm/keeper/msg_dispatcher.go:132-137 | sorting changes nothing but the order inside each event |
| `GasContainment.LimitedSubmessageIsContained` | x/wasm/keeper/msg_dispatcher.go:64-92 | the caller pays exactly what was consumed, or exactly the limit on out of gas, is not exhausted by it, and sees out of gas as an error |
| `GasContainment.SettleIsContained` | x/wasm/keeper/msg_dispatcher.go:64-92 | the same for the settling step alone |
| `GasContainment.UnlimitedOutOfGasEscapes` | x/wasm/keeper/msg_dispatcher.go:116-121 | without a limit, out of gas ends the caller too: no reply, no later submessage |
| `CallPoints.ChainKeeps` | x/wasm/keeper/msg_dispatcher.go:96-206 | a property every single call keeps holds after any run of transactions and at every call in it |
| `CallPoints.InvokeKeeps` | x/wasm/keeper/keeper.go:416-466 | the same for one call with everything it sets off |
| `CallPoints.DepthIsBounded` | x/wasm/keeper/keeper.go:913-929 | no call of any run is made deeper than the configured maximum |
| `CallPoints.DepthCheckTrips` | x/wasm/keeper/keeper.go:913-929 | every accepted step goes one deeper without passing the limit if and only if the limit is not the largest 32-bit word |
| `GasRegister.ConversionIsExact` | x/wasm/types/gas_register.go:266-275 | conversion gives the exact product if and only if it fits in 64 bits |
| `GasRegister.WrapTestIsSound` | x/wasm/types/gas_register.go:266-275 | whatever the overflow test accepts is exact, for all amounts, if and only if the multiplier is at most two; the default is 140000 |
| `GasRegister.ChargeWithinGrant` | x/wasm/keeper/keeper.go:1410-1428 | charging what a granted call used never charges more than was granted |
| `GasRegister.ComputeEventCosts` | x/wasm/types/gas_register.go:224-234 | the loop over attributes and events equals the price function, overflow included |
| `GasRegister.ComputeAttributeCosts` | x/wasm/types/gas_register.go:236-261 | the same for one attribute list |
| `GasRegister.SumAttributeBytes` | x/wasm/types/gas_register.go:236-253 | the loop adds up the bytes of all attributes in a 64-bit word |
| `GasRegister.FreeTierAppliedOnce` | x/wasm/types/gas_register.go:224-261 | threading the free tier through all loops equals one free tier for the whole set |
| `GasRegister.WholeSetPriceIsProducts` | x/wasm/types/gas_register.go:224-261 | that price written as products of counts and unit prices |
| `GasRegister.ReplyPricesWholeSet` | x/wasm/types/gas_register.go:207-222 | a reply prices all its events as one set with one free tier |
| `Meters.VMChargeStaysWithinLimit` | x/wasm/keeper/keeper.go:1410-1428 | a VM call within its grant never pushes the meter past its limit |
| `Meters.VMRunStaysWithinLimit` | x/wasm/keeper/keeper.go:1410-1428 | in any run that mixes VM calls with set-up, store and event gas, no VM charge within its grant pushes the meter past its limit or overflows it, and it signals out of gas exactly when it uses the last of it |
| `Meters.RoundingOverRuns` | x/wasm/types/gas_register.go:277-279 | after k calls the SDK gas charged is at most the exact quotient and less than k below it |
| `Keys.BE8RoundTrip` | x/wasm/types/keys.go:45-48 | eight big-endian bytes read back as the number |
| `Keys.BE8Order` | x/wasm/types/keys.go:120-128 | and sort like the number |
| `Keys.BuildHistoryKey` | x/wasm/types/keys.go:120-128 | filling the buffer by copying gives the history key |
| `Keys.BuildCodeIndexKey` | x/wasm/types/keys.go:85-95 | the same for the code index |
| `Keys.BuildCreatorIndexKey` | x/wasm/types/keys.go:107-118 | the same for the creator index |
| `Keys.HistoryKeyInjective` | x/wasm/types/keys.go:120-128 | equal history keys have equal address and position, for addresses of any length |
| `Keys.CodeIndexKeyInjective` | x/wasm/types/keys.go:85-95 | equal code-index keys have equal parts |
| `Keys.CreatorIndexKeyInjective` | x/wasm/types/keys.go:107-118 | equal creator-index keys have equal parts |
| `Keys.PacketIdInjective` | x/wasm/types/keys.go:67-83 | packet keys determine port, channel and sequence when ports hold no zero byte and channel names are shorter than 2^24 bytes |
| `Keys.PortsCollide` | x/wasm/types/keys.go:67-83 | two ports of any bytes share a packet key if and only if one goes on from the other with a zero byte and bytes that read as a long enough channel length |
| `Keys.AsyncKeysCollide` | x/wasm/types/keys.go:67-83 | two such ports |
| `Keys.StateKeysOverlap` | x/wasm/types/keys.go:62-64 | two contracts can reach a common state key if and only if one address begins with the other |
| `Keys.KeySpaceInjective` | x/wasm/types/keys.go:27-151 | distinct records have distinct keys across all builders |
| `Keys.ClassicInjective` | x/wasm/keeper/addresses.go:36-43 | classic preimages determine code and instance number |
| `Keys.BuildPredictablePreimage` | x/wasm/keeper/addresses.go:49-72 | copying the length-prefixed parts gives the preimage |
| `Keys.PreimagesInjective` | x/wasm/keeper/addresses.go:49-78 | predictable preimages determine checksum, creator, salt and message and are never classic ones |
| `OrderedStore.KVStore.Iterate` | x/wasm/keeper/keeper.go:806-808 | a prefix iteration visits exactly the keys with the prefix, in ascending order |
| `OrderedStore.AscendingUnique` | x/wasm/keeper/keeper.go:806-808 | there is only one such order |
| `History.OwnKeysAreHistoryKeys` | x/wasm/keeper/keeper.go:811-814 | eight bytes behind an address are one of its positions, whatever longer addresses exist |
| `History.PositionsIncrease` | x/wasm/keeper/keeper.go:826-842 | the entries of a contract are visited in position order |
| `History.LastIsHighest` | x/wasm/keeper/keeper.go:845-859 | the reverse scan returns the highest position |
| `History.GaplessLookup` | x/wasm/keeper/keeper.go:826-859 | a history at positions 1 to n is read back exactly and its last position is n |
| `History.AppendContinues` | x/wasm/keeper/keeper.go:801-824 | appending extends the history by the new entries and leaves all other keys alone |
| `History.AppendToContractHistory` | x/wasm/keeper/keeper.go:801-824 | the loop with its running position writes exactly those entries |
| `History.FindLastPosition` | x/wasm/keeper/keeper.go:804-815 | the filtered reverse scan finds the last position |
| `History.GetContractHistory` | x/wasm/keeper/keeper.go:826-842 | the filtered scan returns the contract's own entries in order |
| `History.LastHistoryEntry` | x/wasm/keeper/keeper.go:845-859 | the last entry, or nothing where the code panics |
| `KeeperStore.AutoIncrementID` | x/wasm/keeper/keeper.go:1430-1446 | returns the counter and stores its successor as a 64-bit word |
| `KeeperStore.StoreCodeInfo` | x/wasm/keeper/keeper.go:206-209 | a new identifier and the record under it |
| `KeeperStore.PersistContract` | x/wasm/keeper/keeper.go:383-398 | the store calls of instantiate make exactly the writes of the model |
| `KeeperStore.MoveContract` | x/wasm/keeper/keeper.go:533-548 | the store calls of migrate make exactly the writes of the model, or none where the code panics |
| `KeeperStore.WriteAcknowledgement` | x/wasm/keeper/handler_plugin.go:209-245 | load, acknowledge and delete, or an error without effect |
| `RegistrySteps.PersistKeepsAgreement` | x/wasm/keeper/keeper.go:383-398 | a new contract leaves the registry in agreement, with a history of one entry, and no other address changes |
| `RegistrySteps.MigrationKeepsAgreement` | x/wasm/keeper/keeper.go:533-548 | one more history entry, the old index key gone, the new one there, no other address changes |
| `RegistrySteps.RewriteKeepsAgreement` | x/wasm/keeper/keeper.go:760-799 | a new admin or label keeps agreement |
| `RegistrySteps.RecordsApart` | x/wasm/types/keys.go:45-130 | no registry key belongs to two contracts |
| `BookSteps.StoreCodeKeeps` | x/wasm/keeper/keeper.go:157-222 | create keeps the book |
| `BookSteps.InstantiateKeeps` | x/wasm/keeper/keeper.go:262-413 | instantiate keeps the book at the point where submessages are dispatched |
| `BookSteps.ExecuteKeeps` | x/wasm/keeper/keeper.go:416-466 | execute keeps the book |
| `BookSteps.MigrateKeeps` | x/wasm/keeper/keeper.go:468-579 | migrate keeps the book, with and without calling the contract |
| `BookSteps.UpdateContractKeeps` | x/wasm/keeper/keeper.go:760-799 | admin and label updates keep the book |
| `BookSteps.SetAccessKeeps` | x/wasm/keeper/keeper.go:1350-1374 | access updates keep the book |
| `BookSteps.PinKeeps` | x/wasm/keeper/msg_server.go:246-284 | pins only point to stored codes |
| `BookSteps.NewCodeIsNew` | x/wasm/keeper/keeper.go:206-209 | the identifier handed out is not in use |
| `BookSteps.RunsKeepBook` | x/wasm/keeper/keeper.go:383-398 | over every run below 2^64 calls, at its end and at every call: records, gapless histories and both indexes agree, code identifiers stay below the counter, pins and contracts have their code, state belongs to a contract |
| `BookSteps.FreshStoreHasBook` | x/wasm/keeper/keeper.go:1430-1460 | a store with nothing but parameters keeps the book, so every run from it does |
| `Origins.CallKeepsLineage` | x/wasm/keeper/keeper.go:262-298 | a call takes at most one instance number, and its new contract sits at the hash of its own preimage |
| `Origins.RunsKeepLineage` | x/wasm/keeper/keeper.go:262-298 | over every run below 2^64 calls, at its end and at every call: each contract sits at the hash of an instance number used up or of a preimage asked for |
| `Origins.ClassicAddressIsNew` | x/wasm/keeper/keeper.go:292-298 | unless the hash collides among those inputs, the next classic address is free for every code |
| `Origins.SaltMeetsOnlyItself` | x/wasm/keeper/keeper.go:292-298 | and a predictable one is taken only by the same preimage |
| `Origins.ClassicNeverTaken` | x/wasm/keeper/keeper.go:292-298 | in no run does an instantiation with a classic address find it taken, unless the hash collides among the inputs that occurred |
| `Origins.DuplicateMeansTaken` | x/wasm/keeper/keeper.go:292-298 | an instantiation whose address is free reports a duplicate only if the bank or the account keeper does |
| `Origins.SomeStore` | x/wasm/keeper/addresses.go:36-43 | hosts and stores with contracts that meet these conditions exist |
| `Permanence.CallRemembers` | x/wasm/keeper/keeper.go:1350-1374 | no call gives an identifier in use to another code or an address in use to another contract |
| `Permanence.NothingIsForgotten` | x/wasm/keeper/keeper.go:383-398 | over every run below 2^64 calls, at its end and at every call: a code keeps hash and creator, a contract keeps creator and creation position, and neither disappears |
| `Listing.ListingByCodeIsExact` | x/wasm/keeper/keeper.go:747-758 | listing by code returns exactly the contracts with that code, each once |
| `Listing.ListingByCodeIsOrdered` | x/wasm/keeper/keeper.go:746-758 | ordered by last update, then address |
| `Listing.ListingByCreatorIsExact` | x/wasm/keeper/keeper.go:736-744 | listing by creator returns exactly that creator's contracts, each once |
| `Listing.ListingByCreatorIsOrdered` | x/wasm/keeper/keeper.go:735-744 | ordered by creation, then address |
| `Listing.CallsSeeExactLists` | x/wasm/keeper/keeper.go:735-758 | at every call of every run below 2^64 calls both listings are exact, for all codes and creators |
| `Listing.ListContractsByCode` | x/wasm/keeper/keeper.go:747-758 | the iteration produces that list |
| `Listing.ListContractsByCreator` | x/wasm/keeper/keeper.go:736-744 | the same by creator |
| `Policies.NarrowDecidesCodeByDefault` | x/wasm/keeper/authz_policy.go:99-124 | a partial policy decides about code like the default one and adds at most its one action |
| `PolicyRuns.LeafHandsDown` | x/wasm/keeper/keeper.go:406-407 | which policy each call hands to its submessages, and that the responding contract exists or is new |
| `PolicyRuns.HandedDownIsNarrow` | x/wasm/keeper/authz_policy.go:75-124 | handing down never widens a policy and never changes the action |
| `PolicyRuns.PolicyNeverWidens` | x/wasm/keeper/msg_server.go:408-417 | every call below a root message, at any depth, comes from a contract and is decided by the default policy or by the one action handed down at the root, also when it repeats the root message |
| `AsyncAcks.PacketRoundTrip` | x/wasm/ibc.go:502-521 | a packet survives conversion for the contract and back, field by field |
| `AsyncAcks.WasmPacketRoundTrip` | x/wasm/keeper/relay.go:397-414 | the other direction loses exactly a present zero block |
| `AsyncAcks.CallOnPacket` | x/wasm/keeper/handler_plugin.go:209-245 | one call leaves a packet alone or acknowledges a pending one |
| `AsyncAcks.DeliverKeeps` | x/wasm/keeper/relay.go:160-217 | receiving a packet, with any tree of calls under it, keeps receipts, stored packets and acknowledgements paired |
| `AsyncAcks.AtMostOneAck` | x/wasm/keeper/relay.go:198-216 | over every run: at most one acknowledgement, for the packet that was received; pending exactly when received with nil data and not yet acknowledged |
| `AsyncAcks.AckIsFinal` | x/wasm/keeper/handler_plugin.go:226-229 | what was acknowledged is never acknowledged again or changed |
| `Pinning.CollectedHashes` | x/wasm/keeper/keeper.go:1259-1281 | the scan collects exactly the hashes of the pins it does not exclude, and fails exactly on a pin without a code |
| `Pinning.CollectAlong` | x/wasm/keeper/keeper.go:1264-1278 | the loop does so |
| `Pinning.PinCode` | x/wasm/keeper/keeper.go:1185-1221 | after success the VM pins exactly the hashes of the pinned identifiers, whatever it pinned before |
| `Pinning.UnpinCode` | x/wasm/keeper/keeper.go:1224-1256 | the same; a hash another pinned identifier shares stays pinned |
| `Pinning.InitializePinnedCodes` | x/wasm/keeper/keeper.go:1310-1333 | VM and store agree afterwards if and only if something is pinned or the VM pinned nothing before; it succeeds if and only if every pin has its code in the VM |
| `Snapshots.SnapshotExtension` | x/wasm/keeper/snapshotter.go:51-93 | the payloads are the packed codes of the distinct hashes in order of first use |
| `Snapshots.FirstSeenOnce` | x/wasm/keeper/snapshotter.go:58-67 | every distinct hash occurs exactly once |
| `Snapshots.ProcessAllItems` | x/wasm/keeper/snapshotter.go:124-145 | the VM ends up with the stored payloads, and a fresh one pins exactly the pinned codes |
| `Snapshots.SnapshotRestoresCodes` | x/wasm/keeper/snapshotter.go:102-117 | a fresh VM restored from a snapshot holds exactly the codes the store refers to |
| `Snapshots.RestoreOwnSnapshot` | x/wasm/keeper/snapshotter.go:51-145 | restoring a store's own snapshot into a fresh VM always succeeds, brings back exactly its codes with their bytes and pins exactly the pinned ones |
| `KeeperStore.ImportCode` | x/wasm/keeper/keeper.go:233-260 | the method does what the import function says, error by error; if pins lack their code in the VM, pinning may fail instead |
| `KeeperStore.ImportContract` | x/wasm/keeper/keeper.go:1475-1505 | the same for a contract |
| `KeeperStore.ImportContractState` | x/wasm/keeper/keeper.go:1116-1130 | the same for contract state, duplicates refused |
| `KeeperStore.ImportSequences` | x/wasm/keeper/keeper.go:1462-1473 | the same for counters, duplicates refused |
| `KeeperStore.InitGenesis` | x/wasm/keeper/genesis.go:23-83 | all imports in order, then the checks of both counters, with the same proviso, which an empty store rules out |
| `KeeperStore.ExportGenesis` | x/wasm/keeper/genesis.go:86-135 | the loops produce the export function's state, or nothing where the code panics |
| `Genesis.CodesRoundTrip` | x/wasm/keeper/genesis.go:31-47 | importing exported codes adds exactly the records and pins they own |
| `Genesis.ModelsRoundTrip` | x/wasm/keeper/keeper.go:1103-1130 | importing exported state restores exactly its keys |
| `Genesis.ContractsRoundTrip` | x/wasm/keeper/genesis.go:49-58 | importing exported contracts adds exactly record, history, indexes and state of each |
| `Genesis.GenesisRoundTrip` | x/wasm/keeper/genesis.go:23-135 | for every store that keeps the book, importing its export into an empty store succeeds if and only if the address of the next instance is free, and then rebuilds everything exported and nothing else |
| `Genesis.GenesisSucceeds` | x/wasm/keeper/genesis.go:67-83 | unless the address hash collides among the inputs in use it succeeds, and the result is as good a start for runs |
| `Genesis.RoundTripHappens` | x/wasm/keeper/genesis.go:86-135 | there are hosts, and stores with contracts, for which all of this happens |
| `Genesis.RebuiltKeepsBook` | x/wasm/keeper/genesis.go:67-83 | the rebuilt store keeps the book, so every result about runs applies from there |
| `Authz.FirstMatch` | x/wasm/types/authz.go:259-282 | the accepting grant takes the message and no earlier one does |
| `Authz.MoveDown` | x/wasm/types/authz.go:287 | removing in place keeps the other grants in order |
| `Authz.AcceptGrantedMessage` | x/wasm/types/authz.go:245-312 | the loop with its in-place updates returns the verdict of the function; a rejected message changes nothing |
| `Authz.ValidateFilter` | x/wasm/types/authz.go:475-531 | keys and messages are accepted if and only if present, well-formed and distinct |
| `Authz.ValidateGrants` | x/wasm/types/authz.go:224-236 | grants are valid if and only if there are some and each is |
| `Authz.SanityChecksNeverFire` | x/wasm/types/authz.go:284-308 | on valid grants updates stay valid and no sanity check fails |
| `Authz.LimitPays` | x/wasm/types/authz.go:557-638 | one use of a limit pays for the funds and, if calls are limited, for the call |
| `Authz.BudgetsHoldOverRuns` | x/wasm/types/authz.go:245-312 | over any run, funds sent per contract and denomination plus what is left never exceed the budget granted, and likewise for calls |
| `Protobuf.SovIsLength` | x/wasm/types/authz.pb.go:1195-1197 | the bit-length formula is the number of bytes a varint takes |
| `Protobuf.EncodeVarint` | x/wasm/types/authz.pb.go:1016-1026 | writes the varint right before the offset and nothing else |
| `Protobuf.VarintRoundTrip` | x/wasm/types/authz.pb.go:1739-1753 | every 64-bit word is read back, whatever follows |
| `Protobuf.ReadVarint` | x/wasm/types/authz.pb.go:1739-1753 | the loop reads what the function says, with overflow and end of input |
| `Protobuf.Skip` | x/wasm/types/authz.pb.go:2210-2287 | skipping a field with nested groups terminates and equals the function |
| `Protobuf.SkipFrom` | x/wasm/types/authz.pb.go:2210-2287 | a skip that succeeds moves forward |
| `Protobuf.SkipsField` | x/wasm/types/authz.pb.go:2210-2287 | an encoded field of any wire type is skipped to exactly its end, with groups nested to any depth |
| `Protobuf.MarshalCalls` | x/wasm/types/authz.pb.go:837-848 | the buffer of the computed size is filled exactly with the encoding |
| `Protobuf.UnmarshalCalls` | x/wasm/types/authz.pb.go:1734-1803 | any byte string is parsed or refused as the function says |
| `Protobuf.CallsRoundTrip` | x/wasm/types/authz.pb.go:1734-1803 | any call count survives |
| `Protobuf.ComputeSize` | x/wasm/types/authz.pb.go:1163-1193 | the size loop |
| `Protobuf.SizeIsLength` | x/wasm/types/authz.pb.go:1163-1193 | the size is the length of the encoding |
| `Protobuf.MarshalList` | x/wasm/types/authz.pb.go:967-1014 | writing from the back fills exactly the sized buffer with the encoding |
| `Protobuf.UnmarshalList` | x/wasm/types/authz.pb.go:2044-2209 | any byte string is parsed to its end or refused, without reading outside it |
| `Protobuf.ListRoundTrip` | x/wasm/types/authz.pb.go:2044-2209 | any list of keys or messages survives, whatever its length |
| `Protobuf.UnknownFieldsAreIgnored` | x/wasm/types/authz.pb.go:2044-2209 | fields of other numbers, anywhere between the elements, do not change the list that is read |

## Left out

- `app/`, `cmd/`, CLI, telemetry, options and simulation: wiring.
- The VM, gzip, Bech32, SHA-256 and the SDK's bank, account, staking and IBC keepers: functions of the host, nothing assumed beyond the `requires` named above.
- Gas of single store accesses: it is part of the gas a VM call reports, not modelled key by key.
- Gas an authz grant charges for reading messages and unpacking code: not part of what a grant decides.
- The discount for contracts already used in a transaction: only pinned codes get the discount.
- `events.go`: how attributes become events enters as one function that may fail.
- Queries, `query_plugins.go`, message encoders: field-by-field mappings.
- IBC v2 entry points, acknowledgement and timeout callbacks: the same shape as packet receive.
- The raw IBC v2 and burn handlers at the end of the chain: direct handlers like the raw IBC one.
- Account pruning at instantiation: one function of the host that may fail.
- `Unspecified` access types are refused where the code panics on some paths.
- The VM's pinned set is not part of a dispatch run: pin and unpin set it from the store when they are called, so the agreement is stated for each call.
- Genesis does not export the transaction counter and packets waiting for an acknowledgement; neither does the model.
- AsyncAcks.DeliverKeeps: core IBC is modelled by a receipt per packet, an error acknowledgement with the callback's state undone, and a full undo on a panic.
- BookSteps.RunsKeepBook, and all other results over runs: stated up to 2^64 calls, because counters and history positions wrap around there.
- Genesis.GenesisRoundTrip: for stores in which contract addresses are 32 bytes long, as the address generators make them.
- Protobuf.ListRoundTrip: encodings shorter than 2^63 bytes, the largest slice there is.
- Protobuf.UnknownFieldsAreIgnored: the same bound; field numbers below 2^29, as protobuf allows.
