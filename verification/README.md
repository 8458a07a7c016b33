# NEVV election registry — a Dafny model

NEVV runs elections on a set of conodes. Each node keeps a registry that maps an
election's name to three things: the genesis block of its skipchain, the
latest block of that chain, and the node's share of the election key. Key
generation registers an election. Each cast ballot moves the chain's tip.
A separate storage package lists the elections a user may see. A browser
client keeps its own small record for each election: its key, the chain hash,
the ballots it cast and the shuffled ballots it fetched.

This project models those deterministic state operations and proves what
they promise:

- `registry.dfy` (module `Registry`, from `service/storage.go`): the
  registry as an immutable `map<string, Election>` with `Get`,
  `CreateElection` and `UpdateLatest`.
- `service.dfy` (module `Service`, from `service/service.go`): the registry
  effect of `GenerateRequest` and `CastRequest`, and the protocol dispatch
  in `NewProtocol` with what its completion goroutine records. It also
  models start-up in `tryLoad`.
- `user_elections.dfy` (module `UserElections`, from `storage/storage.go`):
  the `ElectionsForUser` filter.
- `web_client.dfy` (module `WebClient`, from `web/js/election.js`): the
  client-side `Election` class.
- `wrappers.dfy`: `Option`, `Result` and `Outcome`.

A Go pointer is an `Option`, with `None` as nil. External calls become
parameters that give what the call returned. This covers the key-generation
protocol, genesis creation, the skipchain append, loading stored data, and
the client's socket sends. Locks are left out, so each registry operation
is one atomic step.

The source stores `*Election` pointers in the map. Every entry is a pointer
created for that entry alone. Changing `Latest` through the pointer is
therefore the same as replacing that one map entry, which is how the model
does it. `service/service.go` declares its own `storage` type and
`service/storage.go` declares `Storage`. They are different types, but both
declare a map of the same type, `map[string]*Election`, so the model has a
single `Registry`. The request handlers write `service.storage.Elections`
directly and never call `get`, `createElection` or `updateLatest`.
`Service.GenerateIsCreateElection` and the contract of `Service.CastRequest`
relate the handlers' direct writes to those three methods.

`api/struct.go` declares messages that these handlers do not implement:
`Open`, a `CastReply` carrying a ledger `Index`, and `Finalize`. The
handlers here answer a cast with an empty `CastResponse`, and an election
has no lifecycle state. The model follows the handlers.

## Model

| member | source | states |
|---|---|---|
| Registry.Get | service/storage.go:21-32 | a registered name yields exactly its stored election; an unregistered name fails with "Election <name> not found" |
| Registry.CreateElection | service/storage.go:35-46 | the name becomes registered with the given genesis and key share; a nil tip defaults to the genesis block, otherwise the given tip is kept; an existing entry is overwritten and every other entry is unchanged |
| Registry.UpdateLatest | service/storage.go:49-54 | only the tip of the named election changes; its genesis and key share and every other election stay; the name must already be registered because `updateLatest` dereferences the entry |
| Registry.GetAfterCreate | service/storage.go:21-46 | round trip: looking up a freshly created election returns the fields it was created with, with a nil tip defaulted to the genesis block |
| Registry.OtherNamesUnaffected | service/storage.go:26-53 | creating or updating one election does not change the lookup of any other name, including its not-found error |
| Registry.UpdateLatestLastWins | service/storage.go:49-53 | two tip updates in a row leave only the second |
| Registry.CreateThenUpdate | service/storage.go:41-53 | moving a new election's tip to a block equals creating it with that tip; moving it to nil does not when the genesis block is not nil, because only creation defaults a nil tip |
| Service.GenerateRequest | service/service.go:68-108 | the request succeeds iff every setup call succeeds and completion comes before the 2000 ms timer; the first failing call's error is returned; a timeout reports "dkg didn't finish in time"; every failure leaves the root's registry unchanged; success registers the election with genesis equal to latest and the node's secret, and answers with the shared key X and the genesis hash |
| Service.GenerateIsCreateElection | service/service.go:99-101 | the handler's direct map write equals the registry's creation operation called with a nil tip |
| Service.FailedGenerateLeavesNoTrace | service/service.go:73-106 | after a failed key generation, a retry at the root behaves exactly as if the failed attempt never happened in the root's registry |
| Service.TimedOutRoundStillRegistersAtParticipants | service/service.go:92-138 | a timeout at the root registers nothing there, yet a participant whose instance of the same round later completes registers the election with that round's genesis block |
| Service.LateCompletionOverwritesRetry | service/service.go:120-138 | a late completion of an abandoned round at a participant replaces the genesis block and key share a successful retry registered there |
| Service.CastRequest | service/service.go:147-167 | an unknown name fails with "Election not found" and changes nothing; the append is given the election's current tip and the ballot; if the append fails, its error is returned and the registry is unchanged; if it succeeds, the registry is the tip update to the returned block and the response is empty |
| Service.CastMovesOnlyLatest | service/service.go:161-163 | a successful cast keeps the set of elections, the election's genesis block and key share, and every other election |
| Service.FirstCastExtendsGenesis | service/service.go:96-156 | after key generation registers an election, the first cast asks the skipchain to extend the genesis block: the cast succeeds iff that append does, a failed append's error is returned with the registry unchanged, and a successful append's block becomes the tip |
| Service.NewProtocol | service/service.go:110-145 | any protocol name other than the key-generation one fails with "Unknown protocol"; the key-generation name yields the protocol instance or its creation error |
| Service.ParticipantEffect | service/service.go:112-143 | a participant's registry changes only through the completion step, and only after the dispatch produced a key-generation instance; an unknown name or a failed setup leaves the registry unchanged |
| Service.FailedDispatchLeavesRegistry | service/service.go:112-143 | whenever the dispatch fails, the participant's registry is unchanged whatever the completion step would have yielded, and an unknown name fails with "Unknown protocol" |
| Service.OnDkgDone | service/service.go:120-139 | a participant whose secret or configuration is unavailable records nothing; otherwise it registers the configured election with genesis equal to latest and its own secret, leaving other elections unchanged |
| Service.RootAndParticipantAgree | service/service.go:85-136 | the root and a participant that decoded the root's configuration record the same genesis and tip for the election |
| Service.TryLoadAsWritten | service/service.go:181-197 | start-up as written: with no stored data the registry is empty and there is no error; the registry pointer ends up nil exactly when stored data is present but of the wrong type |
| Service.WrongTypeLosesRegistry | service/service.go:191-195 | concrete case: data of another type yields a nil registry together with "Data of wrong type" |
| Service.TryLoad | service/service.go:181-197 | start-up as intended: no stored data gives an empty registry and no error; a load error or data of the wrong type is reported and leaves the empty registry; a stored registry is adopted as is |
| Service.TryLoadCorrectsOnlyWrongType | service/service.go:181-197 | the intended start-up reports the same error as the written one on every input and keeps the same registry whenever the written one keeps one |
| UserElections.ElectionsForUser | storage/storage.go:25-45 | an election is returned iff some chain yields it and the user is its admin or on its user list; each chain contributes at most once, whether the user is admin and listed or listed several times; the count equals the number of matching chains and is at most the number of chains, zero when none match; each election occurs as often as chains yield it visibly |
| UserElections.MatchesSummary | storage/storage.go:29-44 | over any visiting order of all the chains, the matches are exactly the visible elections, one per matching chain |
| UserElections.MatchesMembers | storage/storage.go:30-43 | membership in the matches is the same as being yielded by a visited chain the user may see |
| UserElections.MatchesLength | storage/storage.go:30-43 | over distinct visited chains, the number of matches equals the number of visited chains the user may see |
| UserElections.MatchesCount | storage/storage.go:30-43 | over distinct visited chains, each election occurs once per visited chain that visibly yields it |
| UserElections.OrderIrrelevant | storage/storage.go:30 | any two visiting orders give the same multiset of elections |
| WebClient.NewElection | web/js/election.js:5-16 | a new client election has no key and no hash, no ballots, no shuffles and is not shuffled |
| WebClient.NewElectionFetchBlock | web/js/election.js:11-77 | a fresh election, having cast nothing, asks a roster node for the block one past the node's roster position |
| WebClient.Reverse | web/js/election.js:33 | the result has the same length as the input, and byte i is byte n-1-i of the input |
| WebClient.Generate | web/js/election.js:18-37 | with an empty roster it throws before sending; a rejected send changes nothing; an answer stores a key whose reversed coordinates are the ones sent, and the genesis hash, changing nothing else |
| WebClient.ReverseInvolutive | web/js/election.js:33 | reversing the coordinate bytes twice gives them back |
| WebClient.Cast | web/js/election.js:39-51 | with an empty roster it throws; a rejected send changes nothing; a resolved send appends exactly the ballot at the end of the client's ballots and changes nothing else |
| WebClient.Shuffle | web/js/election.js:53-62 | with an empty roster it throws; a rejected send changes nothing; a resolved send sets the shuffled flag and changes nothing else |
| WebClient.ScanRoster | web/js/election.js:68-72 | the forward scan that overwrites the remembered position at every match ends at the last matching server, or -1 when none matches |
| WebClient.RosterOrder | web/js/election.js:68-72 | the node's position is -1 iff no server has its address, and otherwise is the last server with that address |
| WebClient.FetchRequestFor | web/js/election.js:64-77 | throws "<node> not part of roster" iff no server has the node's address; otherwise asks the first server for block ballots + position + 1, which lies between ballots + 1 and ballots + servers |
| WebClient.Fetch | web/js/election.js:64-88 | a node outside the roster throws and changes nothing; a rejected send changes nothing; an answer replaces the fetched ballots by exactly the decoded ones, in order, changing nothing else |
| WebClient.CastAdvancesFetchBlock | web/js/election.js:39-77 | each resolved cast raises the block number a later fetch requests by one; a failed cast leaves it unchanged |
| WebClient.FetchBlockStable | web/js/election.js:18-88 | fetching, shuffling and key generation leave every node's fetch request unchanged |

## Findings

| source | as written | input that shows it | evidently intended | confidence | as-written member | corrected member |
|---|---|---|---|---|---|---|
| service/service.go:191-195 | `s.storage, ok = msg.(*storage)` assigns the failed assertion's zero value, nil, to the registry pointer before reporting "Data of wrong type". `newService` only logs the error, so the service keeps running without a registry and the next request dereferences nil | stored data present and loaded as a message of another type | keep the empty registry made at line 182 and report the error | high (not executed) | Service.TryLoadAsWritten, Service.WrongTypeLosesRegistry | Service.TryLoad, Service.TryLoadCorrectsOnlyWrongType |

## Left out

- Key generation itself: the `SetupDKG` protocol, tree construction and secret derivation live in a package that is not part of this model. `GenerateRequest` receives each call's result as a `DkgRun`.
- Skipchain genesis creation, block storage and hash linking live in the external cothority library. Blocks are opaque, and the append in `CastRequest` is a function parameter. The hash chain cannot be checked from this code.
- Service.GenerateRequest: the source discards the error of `SharedSecret()` after completion (`shared, _ :=`). The model assumes that a completed run always yields a secret, so the nil secret this would produce is not modelled.
- Service.FailedGenerateLeavesNoTrace: covers the root's registry only. A timed-out or failed request cancels nothing: the round started by `Start` keeps running, each participant that completes it still registers the election (see `Service.TimedOutRoundStillRegistersAtParticipants`), possibly over a later retry's entry (`Service.LateCompletionOverwritesRetry`), and the genesis block already created stays on the skipchain.
- Service.GenerateRequest: when the completion signal and the 2000 ms timer are ready together, Go's `select` picks one at random. The model counts a completion at exactly 2000 ms as a timeout.
- Service.OnDkgDone: the type assertion `data.(*Config)` panics on a message of another type. The model treats an undecodable configuration as a decode failure, which records nothing.
- The background goroutine of `NewProtocol` waits for completion concurrently. Its registry effect is modelled as `OnDkgDone`, one atomic step.
- `save` and `Save` are persistence. Their errors are only logged and they do not change the registry, so they are left out. What `Load` returned enters `tryLoad` as a parameter, together with whether data is available.
- Mutex locking, goroutines, the unlocked map read in `CastRequest`, and the `time.After` race are concurrency. Each registry operation is one atomic step.
- `newService` handler registration and `init` message registration are framework glue.
- decrypt/struct.go and api/struct.go only declare message types, so they have no behaviour to verify.
- service/setup_test.go `encrypt` is ElGamal on ed25519 from an external suite. In the client, `encrypt` enters `Cast` as the ballot it produced.
- `Socket.send`, the WebSocket handling, the protobuf encoding and decoding, `keyFromPublic` and `bufToHex` are I/O and external libraries. The client's key keeps the big-endian coordinates, and its hash keeps the raw bytes rather than their hex rendering.
- The value of `protocol.NameDKG` is not part of this model, so `NewProtocol` takes the key-generation name as a parameter.
- `Chain.Election()` in the storage package is not part of this model. A chain is represented by the election record it yields, with only the name, admin and user list.
- Go's map iteration order is unspecified. `ElectionsForUser` takes the visiting order as a parameter, any order that lists each chain once, and its results are stated order-independently.
- `server.Address == node` in `fetch` is JavaScript loose equality. Both operands are strings there, so it is modelled as string equality.
- The engine's exact `TypeError` text for an empty roster is not modelled.
