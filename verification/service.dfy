/** The registry effects of the election service's request handlers and of
    its start-up (service/service.go). Protocol runs, skipchain calls and
    persistence are external: each enters as an oracle value saying what that
    call returned. */
module Service {
  import opened Wrappers
  import opened Registry

  /** An error returned to the service's client. */
  datatype ClientError = ClientError(message: string)

  /** How long GenerateRequest waits for key generation, in milliseconds. */
  const DkgTimeoutMs: nat := 2000

  const TimeoutMessage: string := "dkg didn't finish in time"
  const CastNotFoundMessage: string := "Election not found"
  const UnknownProtocolMessage: string := "Unknown protocol"
  const WrongTypeMessage: string := "Data of wrong type"

  /** The outcome of every external call GenerateRequest makes, in call
      order: creating the key-generation protocol, creating the genesis
      block, configuring and starting the protocol, the time at which the
      protocol signals completion (None: never) and the secret it then
      yields. */
  datatype DkgRun = DkgRun(
    createProtocol: Outcome<string>,
    createGenesis: Result<SkipBlock, string>,
    setConfig: Outcome<string>,
    start: Outcome<string>,
    doneAtMs: Option<nat>,
    shared: SharedSecret)

  /** The shared public key and the hash of the new chain's genesis block. */
  datatype GenerateResponse = GenerateResponse(key: Bytes, hash: Bytes)

  datatype CastResponse = CastResponse

  /** The registry after a request together with what the client receives. */
  datatype Reply<+T> = Reply(registry: Registry, response: Result<T, ClientError>)

  /** Every call before the wait succeeded. */
  predicate SetupSucceeds(run: DkgRun) {
    run.createProtocol.Pass? && run.createGenesis.Success? && run.setConfig.Pass? && run.start.Pass?
  }

  /** The completion signal arrives before the timer fires. */
  predicate CompletesInTime(run: DkgRun) {
    run.doneAtMs.Some? && run.doneAtMs.value < DkgTimeoutMs
  }

  /** Runs key generation for a new election and, once it completes in
      time, registers the election with a one-block chain. */
  function GenerateRequest(reg: Registry, name: string, run: DkgRun): (r: Reply<GenerateResponse>)
    ensures r.response.Success? <==> SetupSucceeds(run) && CompletesInTime(run)
    ensures r.response.Failure? ==> r.registry == reg
    ensures run.createProtocol.Fail? ==> r.response == Failure(ClientError(run.createProtocol.error))
    ensures run.createProtocol.Pass? && run.createGenesis.Failure? ==>
              r.response == Failure(ClientError(run.createGenesis.error))
    ensures run.createProtocol.Pass? && run.createGenesis.Success? && run.setConfig.Fail? ==>
              r.response == Failure(ClientError(run.setConfig.error))
    ensures run.createProtocol.Pass? && run.createGenesis.Success? && run.setConfig.Pass? && run.start.Fail? ==>
              r.response == Failure(ClientError(run.start.error))
    ensures SetupSucceeds(run) && !CompletesInTime(run) ==>
              r.response == Failure(ClientError(TimeoutMessage))
    ensures r.response.Success? ==>
              && name in r.registry
              && r.registry[name].genesis == Some(run.createGenesis.value)
              && r.registry[name].latest == r.registry[name].genesis
              && r.registry[name].shared == Some(run.shared)
              && r.response.value == GenerateResponse(run.shared.x, run.createGenesis.value.hash)
    ensures reg.Keys <= r.registry.Keys <= reg.Keys + {name}
    ensures forall n :: n in reg && n != name ==> r.registry[n] == reg[n]
  {
    if run.createProtocol.Fail? then
      Reply(reg, Failure(ClientError(run.createProtocol.error)))
    else if run.createGenesis.Failure? then
      Reply(reg, Failure(ClientError(run.createGenesis.error)))
    else if run.setConfig.Fail? then
      Reply(reg, Failure(ClientError(run.setConfig.error)))
    else if run.start.Fail? then
      Reply(reg, Failure(ClientError(run.start.error)))
    else if CompletesInTime(run) then
      var genesis := run.createGenesis.value;
      Reply(reg[name := Election(Some(genesis), Some(genesis), Some(run.shared))],
            Success(GenerateResponse(run.shared.x, genesis.hash)))
    else
      Reply(reg, Failure(ClientError(TimeoutMessage)))
  }

  /** The handler's direct map write agrees with the registry's own creation
      operation called with a nil tip. */
  lemma GenerateIsCreateElection(reg: Registry, name: string, run: DkgRun)
    requires SetupSucceeds(run) && CompletesInTime(run)
    ensures GenerateRequest(reg, name, run).registry
         == CreateElection(reg, name, Some(run.createGenesis.value), None, Some(run.shared))
  {
  }

  /** A failed key generation can be retried: the failed attempt leaves
      nothing behind, so the retry sees the registry the first attempt saw. */
  lemma FailedGenerateLeavesNoTrace(reg: Registry, name: string, failed: DkgRun, retry: DkgRun)
    requires !(SetupSucceeds(failed) && CompletesInTime(failed))
    ensures GenerateRequest(GenerateRequest(reg, name, failed).registry, name, retry)
         == GenerateRequest(reg, name, retry)
  {
  }

  /** Appends a ballot to a registered election's chain. `store` is the
      skipchain append: given the current tip and the ballot it returns the
      new tip or an error. */
  function CastRequest(reg: Registry, name: string, ballot: string,
                       store: (BlockRef, string) -> Result<BlockRef, string>): (r: Reply<CastResponse>)
    ensures name !in reg ==> r == Reply(reg, Failure(ClientError(CastNotFoundMessage)))
    ensures r.response.Success? <==> name in reg && store(reg[name].latest, ballot).Success?
    ensures r.response.Failure? ==> r.registry == reg
    ensures name in reg && store(reg[name].latest, ballot).Failure? ==>
              r.response == Failure(ClientError(store(reg[name].latest, ballot).error))
    ensures r.response.Success? ==>
              && r.registry == UpdateLatest(reg, name, store(reg[name].latest, ballot).value)
              && r.response.value == CastResponse
  {
    if name !in reg then
      Reply(reg, Failure(ClientError(CastNotFoundMessage)))
    else
      match store(reg[name].latest, ballot)
      case Failure(e) => Reply(reg, Failure(ClientError(e)))
      case Success(tip) => Reply(reg[name := reg[name].(latest := tip)], Success(CastResponse))
  }

  /** A successful cast moves only the tip of the named election: its genesis
      block and key share stay, and so does every other election. */
  lemma CastMovesOnlyLatest(reg: Registry, name: string, ballot: string,
                            store: (BlockRef, string) -> Result<BlockRef, string>)
    requires CastRequest(reg, name, ballot, store).response.Success?
    ensures CastRequest(reg, name, ballot, store).registry.Keys == reg.Keys
    ensures CastRequest(reg, name, ballot, store).registry[name].genesis == reg[name].genesis
    ensures CastRequest(reg, name, ballot, store).registry[name].shared == reg[name].shared
    ensures forall n :: n in reg && n != name ==>
              CastRequest(reg, name, ballot, store).registry[n] == reg[n]
  {
  }

  /** After key generation registers an election, a cast on it hands the
      genesis block to the skipchain append as the tip to extend. */
  lemma FirstCastExtendsGenesis(reg: Registry, name: string, run: DkgRun, ballot: string,
                                store: (BlockRef, string) -> Result<BlockRef, string>)
    requires SetupSucceeds(run) && CompletesInTime(run)
    ensures var after := GenerateRequest(reg, name, run).registry;
            var s := store(Some(run.createGenesis.value), ballot);
            var cast := CastRequest(after, name, ballot, store);
            && (cast.response.Success? <==> s.Success?)
            && (s.Failure? ==> cast == Reply(after, Failure(ClientError(s.error))))
            && (s.Success? ==> cast.registry == UpdateLatest(after, name, s.value))
  {
  }

  /** Selects the protocol instance for an incoming protocol name. Only the
      key-generation protocol, named `dkgName`, is known; `setup` is what
      creating that protocol returned. */
  function NewProtocol<P>(protocolName: string, dkgName: string, setup: Result<P, string>): (r: Result<P, string>)
    ensures protocolName != dkgName ==> r == Failure(UnknownProtocolMessage)
    ensures protocolName == dkgName ==> r == setup
    ensures r.Success? ==> protocolName == dkgName && setup.Success?
  {
    if protocolName == dkgName then setup else Failure(UnknownProtocolMessage)
  }

  /** The configuration the root hands to every key-generation participant. */
  datatype Config = Config(name: string, genesis: BlockRef)

  /** What a participant records once its key-generation instance completes:
      when both its secret and the decoded configuration are available, it
      registers the configured election with a one-block chain; otherwise it
      records nothing. */
  function OnDkgDone(reg: Registry, shared: Result<SharedSecret, string>,
                     config: Result<Config, string>): (r: Registry)
    ensures shared.Failure? || config.Failure? ==> r == reg
    ensures shared.Success? && config.Success? ==>
              && config.value.name in r
              && r[config.value.name] == Election(config.value.genesis, config.value.genesis, Some(shared.value))
    ensures reg.Keys <= r.Keys <= reg.Keys + (if config.Success? then {config.value.name} else {})
    ensures config.Success? ==> forall n :: n in reg && n != config.value.name ==> r[n] == reg[n]
  {
    if shared.Failure? then reg
    else if config.Failure? then reg
    else reg[config.value.name := Election(config.value.genesis, config.value.genesis, Some(shared.value))]
  }

  /** A timed-out request cancels nothing: the root registers nothing, but a
      participant whose instance of the same round later completes still
      registers the election with the genesis block created for that round. */
  lemma TimedOutRoundStillRegistersAtParticipants(reg: Registry, other: Registry, name: string,
                                                  run: DkgRun, mine: SharedSecret)
    requires SetupSucceeds(run) && !CompletesInTime(run) && name !in reg
    ensures name !in GenerateRequest(reg, name, run).registry
    ensures var peer := OnDkgDone(other, Success(mine), Success(Config(name, Some(run.createGenesis.value))));
            name in peer && peer[name].genesis == Some(run.createGenesis.value)
  {
  }

  /** When a timed-out round completes at a participant after a successful
      retry was registered there, the late completion replaces the retry's
      genesis block and key share. */
  lemma LateCompletionOverwritesRetry(other: Registry, name: string, late: DkgRun, retryShare: SharedSecret,
                                      retryGenesis: SkipBlock, lateShare: SharedSecret)
    requires late.createGenesis.Success? && late.createGenesis.value != retryGenesis
    ensures var afterRetry := OnDkgDone(other, Success(retryShare), Success(Config(name, Some(retryGenesis))));
            var afterLate := OnDkgDone(afterRetry, Success(lateShare), Success(Config(name, Some(late.createGenesis.value))));
            && afterLate[name].genesis != afterRetry[name].genesis
            && afterLate[name].shared == Some(lateShare)
  {
  }

  /** A participant's whole registry effect for one incoming protocol
      instance: the completion step runs only once the dispatch has produced
      a key-generation instance. */
  function ParticipantEffect<P>(reg: Registry, protocolName: string, dkgName: string, setup: Result<P, string>,
                                shared: Result<SharedSecret, string>, config: Result<Config, string>): (r: Registry)
    ensures protocolName != dkgName || setup.Failure? ==> r == reg
    ensures NewProtocol(protocolName, dkgName, setup).Success? ==> r == OnDkgDone(reg, shared, config)
  {
    if NewProtocol(protocolName, dkgName, setup).Success? then OnDkgDone(reg, shared, config) else reg
  }

  /** An unknown protocol name or a failed key-generation setup never touches
      the registry, whatever the completion step would have yielded. */
  lemma FailedDispatchLeavesRegistry<P>(reg: Registry, protocolName: string, dkgName: string,
                                        setup: Result<P, string>, shared: Result<SharedSecret, string>,
                                        config: Result<Config, string>)
    requires NewProtocol(protocolName, dkgName, setup).Failure?
    ensures ParticipantEffect(reg, protocolName, dkgName, setup, shared, config) == reg
    ensures protocolName != dkgName ==>
              NewProtocol(protocolName, dkgName, setup) == Failure(UnknownProtocolMessage)
  {
  }

  /** The root and a participant that received the root's configuration
      register the same chain for the election; only the key share differs. */
  lemma RootAndParticipantAgree(reg: Registry, other: Registry, name: string, run: DkgRun,
                                mine: SharedSecret)
    requires SetupSucceeds(run) && CompletesInTime(run)
    ensures var root := GenerateRequest(reg, name, run).registry;
            var peer := OnDkgDone(other, Success(mine), Success(Config(name, Some(run.createGenesis.value))));
            && root[name].genesis == peer[name].genesis
            && root[name].latest == peer[name].latest
  {
  }

  /** A persisted message: either the service's own registry snapshot or a
      message of another type. */
  datatype Stored = StoredRegistry(elections: Registry) | OtherMessage(typeName: string)

  /** The state start-up leaves, as the source writes it: the registry
      pointer (None: nil) and the error reported. */
  datatype RawBoot = RawBoot(storage: Option<Registry>, err: Option<string>)

  /** Start-up as written: a failed type assertion on the loaded message
      assigns the assertion's zero value, nil, to the registry pointer. */
  function TryLoadAsWritten(available: bool, load: Result<Stored, string>): (b: RawBoot)
    ensures !available ==> b == RawBoot(Some(map[]), None)
    ensures b.storage.None? <==> available && load.Success? && load.value.OtherMessage?
  {
    if !available then RawBoot(Some(map[]), None)
    else if load.Failure? then RawBoot(Some(map[]), Some(load.error))
    else if load.value.StoredRegistry? then RawBoot(Some(load.value.elections), None)
    else RawBoot(None, Some(WrongTypeMessage))
  }

  /** Persisted data of the wrong type leaves the service with no registry
      at all, so the next request dereferences nil. */
  lemma WrongTypeLosesRegistry()
    ensures TryLoadAsWritten(true, Success(OtherMessage("Config"))) == RawBoot(None, Some(WrongTypeMessage))
  {
  }

  /** The state start-up leaves: the registry and the error reported. */
  datatype Boot = Boot(registry: Registry, err: Option<string>)

  /** Start-up as intended: the empty registry made first is kept whenever
      the stored snapshot cannot be used. */
  function TryLoad(available: bool, load: Result<Stored, string>): (b: Boot)
    ensures !available ==> b == Boot(map[], None)
    ensures b.err.Some? ==> b.registry == map[]
    ensures b.err.None? <==> !available || (load.Success? && load.value.StoredRegistry?)
    ensures available && load.Failure? ==> b.err == Some(load.error)
    ensures available && load.Success? && load.value.StoredRegistry? ==> b.registry == load.value.elections
    ensures available && load.Success? && load.value.OtherMessage? ==> b.err == Some(WrongTypeMessage)
  {
    if !available then Boot(map[], None)
    else if load.Failure? then Boot(map[], Some(load.error))
    else if load.value.StoredRegistry? then Boot(load.value.elections, None)
    else Boot(map[], Some(WrongTypeMessage))
  }

  /** The corrected start-up differs from the written one only where the
      written one loses the registry, and always reports the same error. */
  lemma TryLoadCorrectsOnlyWrongType(available: bool, load: Result<Stored, string>)
    ensures TryLoad(available, load).err == TryLoadAsWritten(available, load).err
    ensures TryLoadAsWritten(available, load).storage.Some? ==>
              TryLoad(available, load).registry == TryLoadAsWritten(available, load).storage.value
  {
  }
}
