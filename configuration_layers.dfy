/** The settings of a node as values: what a `Configuration` object holds at
    one moment, one layer of optional overrides, and what `Overwrite` does to
    the former given the latter. The class in module `Executable` is proved
    against these definitions. */
module ConfigurationLayers {
  import opened Nullable
  import opened SystemTypes
  import opened Properties

  // The properties of a `Configuration`, grouped by the sections of the
  // class declaration. Nullable properties are `Option`s; string arrays are
  // sequences.

  /** Properties ahead of the first heading: versions, genesis, host, ports, keys. */
  datatype NodeSettings = NodeSettings(
    appProtocolVersionString: Option<string>,
    trustedAppProtocolVersionSignerStrings: Option<seq<string>>,
    genesisBlockPath: Option<string>,
    host: Option<string>,
    port: Option<uint16>,
    consensusPort: Option<uint16>,
    swarmPrivateKeyString: Option<string>,
    consensusPrivateKeyString: Option<string>,
    workers: int32)

  /** Properties under the `Storage` heading. */
  datatype StorageSettings = StorageSettings(
    storeType: Option<string>,
    storePath: Option<string>,
    noReduceStore: bool,
    storeStateCacheSize: int32)

  /** Properties under the `Miner` heading. */
  datatype MinerSettings = MinerSettings(
    noMiner: bool,
    minerCount: int32,
    minerPrivateKeyString: Option<string>)

  /** Properties under the `Networking` heading. */
  datatype NetworkingSettings = NetworkingSettings(
    networkType: NetworkType,
    iceServerStrings: Option<seq<string>>,
    peerStrings: Option<seq<string>>)

  /** Properties under the `RPC Server` heading. */
  datatype RpcSettings = RpcSettings(
    rpcServer: bool,
    rpcListenHost: string,
    rpcListenPort: Option<int32>,
    rpcRemoteServer: Option<bool>,
    rpcHttpServer: Option<bool>)

  /** Properties under the `GraphQL Server` heading. */
  datatype GraphQLSettings = GraphQLSettings(
    graphQLServer: bool,
    graphQLHost: Option<string>,
    graphQLPort: Option<int32>,
    graphQLSecretTokenPath: Option<string>,
    noCors: bool)

  /** Properties under the `Rendering` heading. */
  datatype RenderingSettings = RenderingSettings(
    nonblockRenderer: bool,
    nonblockRendererQueue: int32,
    strictRendering: bool,
    logActionRenders: Option<bool>)

  /** The properties of the `Dev` holder. */
  datatype DevSettings = DevSettings(
    blockInterval: int32,
    reorgInterval: int32)

  /** Properties under the `Settings` heading. */
  datatype GeneralSettings = GeneralSettings(
    confirmations: int32,
    txLifeTime: int32,
    messageTimeout: int32,
    tipTimeout: int32,
    demandBuffer: int32,
    consensusSeedStrings: Option<seq<string>>,
    consensusPeerStrings: Option<seq<string>>,
    skipPreload: bool,
    minimumBroadcastTarget: int32,
    bucketSize: int32,
    chainTipStaleBehaviorType: string,
    txQuotaPerSigner: int32,
    maximumPollPeers: int32,
    validatorStrings: Option<seq<string>>)

  /** The value of every property of a `Configuration`, `Dev`'s included. */
  datatype Settings = Settings(
    node: NodeSettings,
    storage: StorageSettings,
    miner: MinerSettings,
    networking: NetworkingSettings,
    rpc: RpcSettings,
    graphQL: GraphQLSettings,
    rendering: RenderingSettings,
    dev: DevSettings,
    general: GeneralSettings)

  /** One layer of optional values: one component per parameter of
      `Overwrite`, named as the parameter is. `None` is a null argument.
      There is no component for `storeStateCacheSize` or `reorgInterval`,
      and `blockInterval` targets the `Dev` holder's. */
  datatype OverwriteArgs = OverwriteArgs(
    appProtocolVersionString: Option<string>,
    trustedAppProtocolVersionSignerStrings: Option<seq<string>>,
    genesisBlockPath: Option<string>,
    host: Option<string>,
    port: Option<uint16>,
    consensusPort: Option<uint16>,
    swarmPrivateKeyString: Option<string>,
    consensusPrivateKeyString: Option<string>,
    workers: Option<int32>,
    storeType: Option<string>,
    storePath: Option<string>,
    noReduceStore: Option<bool>,
    noMiner: Option<bool>,
    minerCount: Option<int32>,
    minerPrivateKeyString: Option<string>,
    networkType: Option<NetworkType>,
    iceServerStrings: Option<seq<string>>,
    peerStrings: Option<seq<string>>,
    rpcServer: Option<bool>,
    rpcListenHost: Option<string>,
    rpcListenPort: Option<int32>,
    rpcRemoteServer: Option<bool>,
    rpcHttpServer: Option<bool>,
    graphQlServer: Option<bool>,
    graphQLHost: Option<string>,
    graphQLPort: Option<int32>,
    graphQlSecretTokenPath: Option<string>,
    noCors: Option<bool>,
    nonblockRenderer: Option<bool>,
    nonblockRendererQueue: Option<int32>,
    strictRendering: Option<bool>,
    logActionRenders: Option<bool>,
    blockInterval: Option<int32>,
    confirmations: Option<int32>,
    txLifeTime: Option<int32>,
    messageTimeout: Option<int32>,
    tipTimeout: Option<int32>,
    demandBuffer: Option<int32>,
    consensusSeedStrings: Option<seq<string>>,
    consensusPeerStrings: Option<seq<string>>,
    skipPreload: Option<bool>,
    minimumBroadcastTarget: Option<int32>,
    bucketSize: Option<int32>,
    chainTipStaleBehaviorType: Option<string>,
    txQuotaPerSigner: Option<int32>,
    maximumPollPeers: Option<int32>,
    validatorStrings: Option<seq<string>>)

  /** The layer in which every argument is null. */
  function NoArgs(): OverwriteArgs {
    OverwriteArgs(None, None, None, None, None, None, None, None, None, None, None, None, None, None, None, None, None, None, None, None, None, None, None, None, None, None, None, None, None, None, None, None, None, None, None, None, None, None, None, None, None, None, None, None, None, None, None)
  }

  // `Overwrite` on values, section by section, one update per assignment of
  // the method: `x ?? y` is `Coalesce(x, y)` when `y` is not nullable and
  // `OrElse(x, y)` when it is. The `consensusPeerStrings` assignment falls
  // back to its own argument, as the method does.

  function MergeNode(part: NodeSettings, a: OverwriteArgs): NodeSettings {
    part.(
      appProtocolVersionString := OrElse(a.appProtocolVersionString, part.appProtocolVersionString),
      trustedAppProtocolVersionSignerStrings := OrElse(a.trustedAppProtocolVersionSignerStrings, part.trustedAppProtocolVersionSignerStrings),
      genesisBlockPath := OrElse(a.genesisBlockPath, part.genesisBlockPath),
      host := OrElse(a.host, part.host),
      port := OrElse(a.port, part.port),
      consensusPort := OrElse(a.consensusPort, part.consensusPort),
      swarmPrivateKeyString := OrElse(a.swarmPrivateKeyString, part.swarmPrivateKeyString),
      consensusPrivateKeyString := OrElse(a.consensusPrivateKeyString, part.consensusPrivateKeyString),
      workers := Coalesce(a.workers, part.workers)
    )
  }

  function MergeStorage(part: StorageSettings, a: OverwriteArgs): StorageSettings {
    part.(
      storeType := OrElse(a.storeType, part.storeType),
      storePath := OrElse(a.storePath, part.storePath),
      noReduceStore := Coalesce(a.noReduceStore, part.noReduceStore)
    )
  }

  function MergeMiner(part: MinerSettings, a: OverwriteArgs): MinerSettings {
    part.(
      noMiner := Coalesce(a.noMiner, part.noMiner),
      minerCount := Coalesce(a.minerCount, part.minerCount),
      minerPrivateKeyString := OrElse(a.minerPrivateKeyString, part.minerPrivateKeyString)
    )
  }

  function MergeNetworking(part: NetworkingSettings, a: OverwriteArgs): NetworkingSettings {
    part.(
      networkType := Coalesce(a.networkType, part.networkType),
      iceServerStrings := OrElse(a.iceServerStrings, part.iceServerStrings),
      peerStrings := OrElse(a.peerStrings, part.peerStrings)
    )
  }

  function MergeRpc(part: RpcSettings, a: OverwriteArgs): RpcSettings {
    part.(
      rpcServer := Coalesce(a.rpcServer, part.rpcServer),
      rpcListenHost := Coalesce(a.rpcListenHost, part.rpcListenHost),
      rpcListenPort := OrElse(a.rpcListenPort, part.rpcListenPort),
      rpcRemoteServer := OrElse(a.rpcRemoteServer, part.rpcRemoteServer),
      rpcHttpServer := OrElse(a.rpcHttpServer, part.rpcHttpServer)
    )
  }

  function MergeGraphQL(part: GraphQLSettings, a: OverwriteArgs): GraphQLSettings {
    part.(
      graphQLServer := Coalesce(a.graphQlServer, part.graphQLServer),
      graphQLHost := OrElse(a.graphQLHost, part.graphQLHost),
      graphQLPort := OrElse(a.graphQLPort, part.graphQLPort),
      graphQLSecretTokenPath := OrElse(a.graphQlSecretTokenPath, part.graphQLSecretTokenPath),
      noCors := Coalesce(a.noCors, part.noCors)
    )
  }

  function MergeRendering(part: RenderingSettings, a: OverwriteArgs): RenderingSettings {
    part.(
      nonblockRenderer := Coalesce(a.nonblockRenderer, part.nonblockRenderer),
      nonblockRendererQueue := Coalesce(a.nonblockRendererQueue, part.nonblockRendererQueue),
      strictRendering := Coalesce(a.strictRendering, part.strictRendering),
      logActionRenders := OrElse(a.logActionRenders, part.logActionRenders)
    )
  }

  function MergeDev(part: DevSettings, a: OverwriteArgs): DevSettings {
    part.(
      blockInterval := Coalesce(a.blockInterval, part.blockInterval)
    )
  }

  function MergeGeneral(part: GeneralSettings, a: OverwriteArgs): GeneralSettings {
    part.(
      confirmations := Coalesce(a.confirmations, part.confirmations),
      txLifeTime := Coalesce(a.txLifeTime, part.txLifeTime),
      messageTimeout := Coalesce(a.messageTimeout, part.messageTimeout),
      tipTimeout := Coalesce(a.tipTimeout, part.tipTimeout),
      demandBuffer := Coalesce(a.demandBuffer, part.demandBuffer),
      consensusSeedStrings := OrElse(a.consensusSeedStrings, part.consensusSeedStrings),
      consensusPeerStrings := OrElse(a.consensusPeerStrings, a.consensusPeerStrings),
      skipPreload := Coalesce(a.skipPreload, part.skipPreload),
      minimumBroadcastTarget := Coalesce(a.minimumBroadcastTarget, part.minimumBroadcastTarget),
      bucketSize := Coalesce(a.bucketSize, part.bucketSize),
      chainTipStaleBehaviorType := Coalesce(a.chainTipStaleBehaviorType, part.chainTipStaleBehaviorType),
      txQuotaPerSigner := Coalesce(a.txQuotaPerSigner, part.txQuotaPerSigner),
      maximumPollPeers := Coalesce(a.maximumPollPeers, part.maximumPollPeers),
      validatorStrings := OrElse(a.validatorStrings, part.validatorStrings)
    )
  }

  /** `Overwrite` on values. */
  function Merge(s: Settings, a: OverwriteArgs): Settings {
    Settings(
      MergeNode(s.node, a),
      MergeStorage(s.storage, a),
      MergeMiner(s.miner, a),
      MergeNetworking(s.networking, a),
      MergeRpc(s.rpc, a),
      MergeGraphQL(s.graphQL, a),
      MergeRendering(s.rendering, a),
      MergeDev(s.dev, a),
      MergeGeneral(s.general, a)
    )
  }

  /** Applying a sequence of layers with `Overwrite`, first to last. */
  function MergeAll(s: Settings, layers: seq<OverwriteArgs>): (r: Settings)
    ensures r.storage.storeStateCacheSize == s.storage.storeStateCacheSize
    ensures r.dev.reorgInterval == s.dev.reorgInterval
    ensures |layers| > 0 ==> r.general.consensusPeerStrings == layers[|layers| - 1].consensusPeerStrings
  {
    if |layers| == 0 then s
    else Merge(MergeAll(s, layers[..|layers| - 1]), layers[|layers| - 1])
  }

  /** The layer that has the effect of applying `a` and then `b`: each argument
      is `b`'s when that is not null and `a`'s otherwise, except
      `consensusPeerStrings`, which is always `b`'s. */
  function Stack(a: OverwriteArgs, b: OverwriteArgs): OverwriteArgs {
    OverwriteArgs(
      OrElse(b.appProtocolVersionString, a.appProtocolVersionString),
      OrElse(b.trustedAppProtocolVersionSignerStrings, a.trustedAppProtocolVersionSignerStrings),
      OrElse(b.genesisBlockPath, a.genesisBlockPath),
      OrElse(b.host, a.host),
      OrElse(b.port, a.port),
      OrElse(b.consensusPort, a.consensusPort),
      OrElse(b.swarmPrivateKeyString, a.swarmPrivateKeyString),
      OrElse(b.consensusPrivateKeyString, a.consensusPrivateKeyString),
      OrElse(b.workers, a.workers),
      OrElse(b.storeType, a.storeType),
      OrElse(b.storePath, a.storePath),
      OrElse(b.noReduceStore, a.noReduceStore),
      OrElse(b.noMiner, a.noMiner),
      OrElse(b.minerCount, a.minerCount),
      OrElse(b.minerPrivateKeyString, a.minerPrivateKeyString),
      OrElse(b.networkType, a.networkType),
      OrElse(b.iceServerStrings, a.iceServerStrings),
      OrElse(b.peerStrings, a.peerStrings),
      OrElse(b.rpcServer, a.rpcServer),
      OrElse(b.rpcListenHost, a.rpcListenHost),
      OrElse(b.rpcListenPort, a.rpcListenPort),
      OrElse(b.rpcRemoteServer, a.rpcRemoteServer),
      OrElse(b.rpcHttpServer, a.rpcHttpServer),
      OrElse(b.graphQlServer, a.graphQlServer),
      OrElse(b.graphQLHost, a.graphQLHost),
      OrElse(b.graphQLPort, a.graphQLPort),
      OrElse(b.graphQlSecretTokenPath, a.graphQlSecretTokenPath),
      OrElse(b.noCors, a.noCors),
      OrElse(b.nonblockRenderer, a.nonblockRenderer),
      OrElse(b.nonblockRendererQueue, a.nonblockRendererQueue),
      OrElse(b.strictRendering, a.strictRendering),
      OrElse(b.logActionRenders, a.logActionRenders),
      OrElse(b.blockInterval, a.blockInterval),
      OrElse(b.confirmations, a.confirmations),
      OrElse(b.txLifeTime, a.txLifeTime),
      OrElse(b.messageTimeout, a.messageTimeout),
      OrElse(b.tipTimeout, a.tipTimeout),
      OrElse(b.demandBuffer, a.demandBuffer),
      OrElse(b.consensusSeedStrings, a.consensusSeedStrings),
      b.consensusPeerStrings,
      OrElse(b.skipPreload, a.skipPreload),
      OrElse(b.minimumBroadcastTarget, a.minimumBroadcastTarget),
      OrElse(b.bucketSize, a.bucketSize),
      OrElse(b.chainTipStaleBehaviorType, a.chainTipStaleBehaviorType),
      OrElse(b.txQuotaPerSigner, a.txQuotaPerSigner),
      OrElse(b.maximumPollPeers, a.maximumPollPeers),
      OrElse(b.validatorStrings, a.validatorStrings)
    )
  }

  /** The one layer with the effect of applying `layers` first to last. */
  function StackAll(layers: seq<OverwriteArgs>): OverwriteArgs
    requires |layers| > 0
  {
    if |layers| == 1 then layers[0]
    else Stack(StackAll(layers[..|layers| - 1]), layers[|layers| - 1])
  }

  // A field-by-field view of settings and layers, so that the rule every
  // assignment of `Overwrite` follows can be stated once for all settings.

  /** A setting: the section of the class it is declared in, and which one. */
  datatype Field =
    | Node(NodeField)
    | Storage(StorageField)
    | Miner(MinerField)
    | Networking(NetworkingField)
    | Rpc(RpcField)
    | GraphQL(GraphQLField)
    | Rendering(RenderingField)
    | Dev(DevField)
    | General(GeneralField)

  datatype NodeField = AppProtocolVersionString | TrustedAppProtocolVersionSignerStrings | GenesisBlockPath | Host | Port | ConsensusPort | SwarmPrivateKeyString | ConsensusPrivateKeyString | Workers

  datatype StorageField = StoreType | StorePath | NoReduceStore | StoreStateCacheSize

  datatype MinerField = NoMiner | MinerCount | MinerPrivateKeyString

  datatype NetworkingField = NetworkType | IceServerStrings | PeerStrings

  datatype RpcField = RpcServer | RpcListenHost | RpcListenPort | RpcRemoteServer | RpcHttpServer

  datatype GraphQLField = GraphQLServer | GraphQLHost | GraphQLPort | GraphQLSecretTokenPath | NoCors

  datatype RenderingField = NonblockRenderer | NonblockRendererQueue | StrictRendering | LogActionRenders

  datatype DevField = BlockInterval | ReorgInterval

  datatype GeneralField = Confirmations | TxLifeTime | MessageTimeout | TipTimeout | DemandBuffer | ConsensusSeedStrings | ConsensusPeerStrings | SkipPreload | MinimumBroadcastTarget | BucketSize | ChainTipStaleBehaviorType | TxQuotaPerSigner | MaximumPollPeers | ValidatorStrings

  /** The value of one setting, whatever its declared type; `Null` is null. */
  datatype Value =
    | Null
    | Text(string)
    | Texts(seq<string>)
    | Int(int32)
    | UShort(uint16)
    | Flag(bool)
    | Network(NetworkType)

  /** The value of setting `f` in `s`. */
  function Get(s: Settings, f: Field): Value {
    match f
    case Node(g) => GetNode(s.node, g)
    case Storage(g) => GetStorage(s.storage, g)
    case Miner(g) => GetMiner(s.miner, g)
    case Networking(g) => GetNetworking(s.networking, g)
    case Rpc(g) => GetRpc(s.rpc, g)
    case GraphQL(g) => GetGraphQL(s.graphQL, g)
    case Rendering(g) => GetRendering(s.rendering, g)
    case Dev(g) => GetDev(s.dev, g)
    case General(g) => GetGeneral(s.general, g)
  }

  function GetNode(part: NodeSettings, g: NodeField): Value {
    match g
    case AppProtocolVersionString => if part.appProtocolVersionString.Some? then Text(part.appProtocolVersionString.value) else Null
    case TrustedAppProtocolVersionSignerStrings => if part.trustedAppProtocolVersionSignerStrings.Some? then Texts(part.trustedAppProtocolVersionSignerStrings.value) else Null
    case GenesisBlockPath => if part.genesisBlockPath.Some? then Text(part.genesisBlockPath.value) else Null
    case Host => if part.host.Some? then Text(part.host.value) else Null
    case Port => if part.port.Some? then UShort(part.port.value) else Null
    case ConsensusPort => if part.consensusPort.Some? then UShort(part.consensusPort.value) else Null
    case SwarmPrivateKeyString => if part.swarmPrivateKeyString.Some? then Text(part.swarmPrivateKeyString.value) else Null
    case ConsensusPrivateKeyString => if part.consensusPrivateKeyString.Some? then Text(part.consensusPrivateKeyString.value) else Null
    case Workers => Int(part.workers)
  }

  function GetStorage(part: StorageSettings, g: StorageField): Value {
    match g
    case StoreType => if part.storeType.Some? then Text(part.storeType.value) else Null
    case StorePath => if part.storePath.Some? then Text(part.storePath.value) else Null
    case NoReduceStore => Flag(part.noReduceStore)
    case StoreStateCacheSize => Int(part.storeStateCacheSize)
  }

  function GetMiner(part: MinerSettings, g: MinerField): Value {
    match g
    case NoMiner => Flag(part.noMiner)
    case MinerCount => Int(part.minerCount)
    case MinerPrivateKeyString => if part.minerPrivateKeyString.Some? then Text(part.minerPrivateKeyString.value) else Null
  }

  function GetNetworking(part: NetworkingSettings, g: NetworkingField): Value {
    match g
    case NetworkType => Network(part.networkType)
    case IceServerStrings => if part.iceServerStrings.Some? then Texts(part.iceServerStrings.value) else Null
    case PeerStrings => if part.peerStrings.Some? then Texts(part.peerStrings.value) else Null
  }

  function GetRpc(part: RpcSettings, g: RpcField): Value {
    match g
    case RpcServer => Flag(part.rpcServer)
    case RpcListenHost => Text(part.rpcListenHost)
    case RpcListenPort => if part.rpcListenPort.Some? then Int(part.rpcListenPort.value) else Null
    case RpcRemoteServer => if part.rpcRemoteServer.Some? then Flag(part.rpcRemoteServer.value) else Null
    case RpcHttpServer => if part.rpcHttpServer.Some? then Flag(part.rpcHttpServer.value) else Null
  }

  function GetGraphQL(part: GraphQLSettings, g: GraphQLField): Value {
    match g
    case GraphQLServer => Flag(part.graphQLServer)
    case GraphQLHost => if part.graphQLHost.Some? then Text(part.graphQLHost.value) else Null
    case GraphQLPort => if part.graphQLPort.Some? then Int(part.graphQLPort.value) else Null
    case GraphQLSecretTokenPath => if part.graphQLSecretTokenPath.Some? then Text(part.graphQLSecretTokenPath.value) else Null
    case NoCors => Flag(part.noCors)
  }

  function GetRendering(part: RenderingSettings, g: RenderingField): Value {
    match g
    case NonblockRenderer => Flag(part.nonblockRenderer)
    case NonblockRendererQueue => Int(part.nonblockRendererQueue)
    case StrictRendering => Flag(part.strictRendering)
    case LogActionRenders => if part.logActionRenders.Some? then Flag(part.logActionRenders.value) else Null
  }

  function GetDev(part: DevSettings, g: DevField): Value {
    match g
    case BlockInterval => Int(part.blockInterval)
    case ReorgInterval => Int(part.reorgInterval)
  }

  function GetGeneral(part: GeneralSettings, g: GeneralField): Value {
    match g
    case Confirmations => Int(part.confirmations)
    case TxLifeTime => Int(part.txLifeTime)
    case MessageTimeout => Int(part.messageTimeout)
    case TipTimeout => Int(part.tipTimeout)
    case DemandBuffer => Int(part.demandBuffer)
    case ConsensusSeedStrings => if part.consensusSeedStrings.Some? then Texts(part.consensusSeedStrings.value) else Null
    case ConsensusPeerStrings => if part.consensusPeerStrings.Some? then Texts(part.consensusPeerStrings.value) else Null
    case SkipPreload => Flag(part.skipPreload)
    case MinimumBroadcastTarget => Int(part.minimumBroadcastTarget)
    case BucketSize => Int(part.bucketSize)
    case ChainTipStaleBehaviorType => Text(part.chainTipStaleBehaviorType)
    case TxQuotaPerSigner => Int(part.txQuotaPerSigner)
    case MaximumPollPeers => Int(part.maximumPollPeers)
    case ValidatorStrings => if part.validatorStrings.Some? then Texts(part.validatorStrings.value) else Null
  }

  /** The argument `a` passes for setting `f`: `None` when it is null and when
      `Overwrite` has no parameter for `f`. */
  function ArgOf(a: OverwriteArgs, f: Field): Option<Value> {
    match f
    case Node(g) => ArgOfNode(a, g)
    case Storage(g) => ArgOfStorage(a, g)
    case Miner(g) => ArgOfMiner(a, g)
    case Networking(g) => ArgOfNetworking(a, g)
    case Rpc(g) => ArgOfRpc(a, g)
    case GraphQL(g) => ArgOfGraphQL(a, g)
    case Rendering(g) => ArgOfRendering(a, g)
    case Dev(g) => ArgOfDev(a, g)
    case General(g) => ArgOfGeneral(a, g)
  }

  function ArgOfNode(a: OverwriteArgs, g: NodeField): Option<Value> {
    match g
    case AppProtocolVersionString => if a.appProtocolVersionString.Some? then Some(Text(a.appProtocolVersionString.value)) else None
    case TrustedAppProtocolVersionSignerStrings => if a.trustedAppProtocolVersionSignerStrings.Some? then Some(Texts(a.trustedAppProtocolVersionSignerStrings.value)) else None
    case GenesisBlockPath => if a.genesisBlockPath.Some? then Some(Text(a.genesisBlockPath.value)) else None
    case Host => if a.host.Some? then Some(Text(a.host.value)) else None
    case Port => if a.port.Some? then Some(UShort(a.port.value)) else None
    case ConsensusPort => if a.consensusPort.Some? then Some(UShort(a.consensusPort.value)) else None
    case SwarmPrivateKeyString => if a.swarmPrivateKeyString.Some? then Some(Text(a.swarmPrivateKeyString.value)) else None
    case ConsensusPrivateKeyString => if a.consensusPrivateKeyString.Some? then Some(Text(a.consensusPrivateKeyString.value)) else None
    case Workers => if a.workers.Some? then Some(Int(a.workers.value)) else None
  }

  function ArgOfStorage(a: OverwriteArgs, g: StorageField): Option<Value> {
    match g
    case StoreType => if a.storeType.Some? then Some(Text(a.storeType.value)) else None
    case StorePath => if a.storePath.Some? then Some(Text(a.storePath.value)) else None
    case NoReduceStore => if a.noReduceStore.Some? then Some(Flag(a.noReduceStore.value)) else None
    case StoreStateCacheSize => None
  }

  function ArgOfMiner(a: OverwriteArgs, g: MinerField): Option<Value> {
    match g
    case NoMiner => if a.noMiner.Some? then Some(Flag(a.noMiner.value)) else None
    case MinerCount => if a.minerCount.Some? then Some(Int(a.minerCount.value)) else None
    case MinerPrivateKeyString => if a.minerPrivateKeyString.Some? then Some(Text(a.minerPrivateKeyString.value)) else None
  }

  function ArgOfNetworking(a: OverwriteArgs, g: NetworkingField): Option<Value> {
    match g
    case NetworkType => if a.networkType.Some? then Some(Network(a.networkType.value)) else None
    case IceServerStrings => if a.iceServerStrings.Some? then Some(Texts(a.iceServerStrings.value)) else None
    case PeerStrings => if a.peerStrings.Some? then Some(Texts(a.peerStrings.value)) else None
  }

  function ArgOfRpc(a: OverwriteArgs, g: RpcField): Option<Value> {
    match g
    case RpcServer => if a.rpcServer.Some? then Some(Flag(a.rpcServer.value)) else None
    case RpcListenHost => if a.rpcListenHost.Some? then Some(Text(a.rpcListenHost.value)) else None
    case RpcListenPort => if a.rpcListenPort.Some? then Some(Int(a.rpcListenPort.value)) else None
    case RpcRemoteServer => if a.rpcRemoteServer.Some? then Some(Flag(a.rpcRemoteServer.value)) else None
    case RpcHttpServer => if a.rpcHttpServer.Some? then Some(Flag(a.rpcHttpServer.value)) else None
  }

  function ArgOfGraphQL(a: OverwriteArgs, g: GraphQLField): Option<Value> {
    match g
    case GraphQLServer => if a.graphQlServer.Some? then Some(Flag(a.graphQlServer.value)) else None
    case GraphQLHost => if a.graphQLHost.Some? then Some(Text(a.graphQLHost.value)) else None
    case GraphQLPort => if a.graphQLPort.Some? then Some(Int(a.graphQLPort.value)) else None
    case GraphQLSecretTokenPath => if a.graphQlSecretTokenPath.Some? then Some(Text(a.graphQlSecretTokenPath.value)) else None
    case NoCors => if a.noCors.Some? then Some(Flag(a.noCors.value)) else None
  }

  function ArgOfRendering(a: OverwriteArgs, g: RenderingField): Option<Value> {
    match g
    case NonblockRenderer => if a.nonblockRenderer.Some? then Some(Flag(a.nonblockRenderer.value)) else None
    case NonblockRendererQueue => if a.nonblockRendererQueue.Some? then Some(Int(a.nonblockRendererQueue.value)) else None
    case StrictRendering => if a.strictRendering.Some? then Some(Flag(a.strictRendering.value)) else None
    case LogActionRenders => if a.logActionRenders.Some? then Some(Flag(a.logActionRenders.value)) else None
  }

  function ArgOfDev(a: OverwriteArgs, g: DevField): Option<Value> {
    match g
    case BlockInterval => if a.blockInterval.Some? then Some(Int(a.blockInterval.value)) else None
    case ReorgInterval => None
  }

  function ArgOfGeneral(a: OverwriteArgs, g: GeneralField): Option<Value> {
    match g
    case Confirmations => if a.confirmations.Some? then Some(Int(a.confirmations.value)) else None
    case TxLifeTime => if a.txLifeTime.Some? then Some(Int(a.txLifeTime.value)) else None
    case MessageTimeout => if a.messageTimeout.Some? then Some(Int(a.messageTimeout.value)) else None
    case TipTimeout => if a.tipTimeout.Some? then Some(Int(a.tipTimeout.value)) else None
    case DemandBuffer => if a.demandBuffer.Some? then Some(Int(a.demandBuffer.value)) else None
    case ConsensusSeedStrings => if a.consensusSeedStrings.Some? then Some(Texts(a.consensusSeedStrings.value)) else None
    case ConsensusPeerStrings => if a.consensusPeerStrings.Some? then Some(Texts(a.consensusPeerStrings.value)) else None
    case SkipPreload => if a.skipPreload.Some? then Some(Flag(a.skipPreload.value)) else None
    case MinimumBroadcastTarget => if a.minimumBroadcastTarget.Some? then Some(Int(a.minimumBroadcastTarget.value)) else None
    case BucketSize => if a.bucketSize.Some? then Some(Int(a.bucketSize.value)) else None
    case ChainTipStaleBehaviorType => if a.chainTipStaleBehaviorType.Some? then Some(Text(a.chainTipStaleBehaviorType.value)) else None
    case TxQuotaPerSigner => if a.txQuotaPerSigner.Some? then Some(Int(a.txQuotaPerSigner.value)) else None
    case MaximumPollPeers => if a.maximumPollPeers.Some? then Some(Int(a.maximumPollPeers.value)) else None
    case ValidatorStrings => if a.validatorStrings.Some? then Some(Texts(a.validatorStrings.value)) else None
  }

  /** The rule `Overwrite` applies to each setting, stated once: the argument
      if it is not null, otherwise the value before. `ConsensusPeerStrings`
      falls back to its own argument instead, so it ends as the argument. */
  function FieldAfter(before: Settings, a: OverwriteArgs, f: Field): Value {
    if f == General(ConsensusPeerStrings) then Coalesce(ArgOf(a, f), Null)
    else Coalesce(ArgOf(a, f), Get(before, f))
  }
}
