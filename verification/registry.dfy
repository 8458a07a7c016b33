/** The election registry a service node keeps in memory: a map from an
    election's name to the two ends of its skipchain and the node's share of
    the election key (service/storage.go). Locking is left out: every
    operation is one atomic step on an immutable map. */
module Registry {
  import opened Wrappers

  /** A skipchain block. Blocks are opaque to the registry; the service only
      reads a block's hash. */
  datatype SkipBlock = SkipBlock(hash: Bytes, data: Bytes)

  /** A `*skipchain.SkipBlock`; None is nil. */
  type BlockRef = Option<SkipBlock>

  /** What the key-generation protocol leaves at one node: its index in the
      sharing, its private share and the common public key X. */
  datatype SharedSecret = SharedSecret(index: int, share: Bytes, x: Bytes)

  /** A `*protocol.SharedSecret`; None is nil. */
  type SecretRef = Option<SharedSecret>

  /** One registered election: the first and the most recent block of its
      chain, and this node's key share. */
  datatype Election = Election(genesis: BlockRef, latest: BlockRef, shared: SecretRef)

  type Registry = map<string, Election>

  /** The error `get` reports for a name that is not registered. */
  function NotFoundMessage(name: string): string {
    "Election " + name + " not found"
  }

  /** Looks up an election by name. */
  function Get(reg: Registry, name: string): (r: Result<Election, string>)
    ensures r.Success? <==> name in reg
    ensures r.Success? ==> r.value == reg[name]
    ensures r.Failure? ==> r.error == "Election " + name + " not found"
  {
    if name in reg then Success(reg[name]) else Failure(NotFoundMessage(name))
  }

  /** Registers an election under `name`, replacing any election already
      there. A nil `latest` means the chain has only its genesis block. */
  function CreateElection(reg: Registry, name: string, genesis: BlockRef, latest: BlockRef,
                          shared: SecretRef): (r: Registry)
    ensures r.Keys == reg.Keys + {name}
    ensures r[name].genesis == genesis && r[name].shared == shared
    ensures latest.None? ==> r[name].latest == genesis
    ensures latest.Some? ==> r[name].latest == latest
    ensures forall n :: n in reg && n != name ==> r[n] == reg[n]
  {
    if latest.None? then
      reg[name := Election(genesis, genesis, shared)]
    else
      reg[name := Election(genesis, latest, shared)]
  }

  /** Moves the tip of a registered election's chain. `updateLatest` dereferences
      the map entry without checking it, so the name must be registered. */
  function UpdateLatest(reg: Registry, name: string, latest: BlockRef): (r: Registry)
    requires name in reg
    ensures r.Keys == reg.Keys
    ensures r[name].latest == latest
    ensures r[name].genesis == reg[name].genesis && r[name].shared == reg[name].shared
    ensures forall n :: n in reg && n != name ==> r[n] == reg[n]
  {
    reg[name := reg[name].(latest := latest)]
  }

  /** Creating an election and then looking it up yields the fields it was
      created with, with a nil tip defaulted to the genesis block. */
  lemma GetAfterCreate(reg: Registry, name: string, genesis: BlockRef, latest: BlockRef,
                       shared: SecretRef)
    ensures Get(CreateElection(reg, name, genesis, latest, shared), name)
         == Success(Election(genesis, if latest.None? then genesis else latest, shared))
  {
  }

  /** Creating or updating one election leaves every lookup of another name
      as it was, including its not-found error. */
  lemma OtherNamesUnaffected(reg: Registry, name: string, other: string, genesis: BlockRef,
                             latest: BlockRef, shared: SecretRef)
    requires other != name
    ensures Get(CreateElection(reg, name, genesis, latest, shared), other) == Get(reg, other)
    ensures name in reg ==> Get(UpdateLatest(reg, name, latest), other) == Get(reg, other)
  {
  }

  /** Only the most recent tip update of an election is kept. */
  lemma UpdateLatestLastWins(reg: Registry, name: string, a: BlockRef, b: BlockRef)
    requires name in reg
    ensures UpdateLatest(UpdateLatest(reg, name, a), name, b) == UpdateLatest(reg, name, b)
  {
  }

  /** Moving the tip of a freshly created election to a real block gives the
      same registry as creating it with that tip; a nil tip is not defaulted by
      an update the way it is by a creation. */
  lemma CreateThenUpdate(reg: Registry, name: string, genesis: BlockRef, latest: BlockRef,
                         shared: SecretRef, tip: BlockRef)
    ensures tip.Some? ==>
      UpdateLatest(CreateElection(reg, name, genesis, latest, shared), name, tip)
      == CreateElection(reg, name, genesis, tip, shared)
    ensures genesis.Some? && tip.None? ==>
      UpdateLatest(CreateElection(reg, name, genesis, latest, shared), name, tip)[name].latest
      != CreateElection(reg, name, genesis, tip, shared)[name].latest
  {
  }
}
