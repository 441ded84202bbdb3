/** The startup settings object of the headless node: a class whose
    properties are grouped into one field per section, a nested `Dev` holder
    created with it and never replaced, the `BlockInterval` alias over `Dev`,
    and `Overwrite`, which merges one more layer of optional values onto the
    properties in place. */
module Executable {
  import opened Nullable
  import opened SystemTypes
  import opened Properties
  import opened ConfigurationLayers

  /** The development settings held by a `Configuration`. */
  class DevConfiguration {
    var blockInterval: int32
    var reorgInterval: int32

    constructor ()
      ensures blockInterval == 100 && reorgInterval == 100
    {
      blockInterval, reorgInterval := 100, 100;
    }
  }

  class Configuration {
    /** Properties ahead of the first heading: versions, genesis, host, ports, keys. */
    var node: NodeSettings
    /** Properties under the `Storage` heading. */
    var storage: StorageSettings
    /** Properties under the `Miner` heading. */
    var miner: MinerSettings
    /** Properties under the `Networking` heading. */
    var networking: NetworkingSettings
    /** Properties under the `RPC Server` heading. */
    var rpc: RpcSettings
    /** Properties under the `GraphQL Server` heading. */
    var graphQL: GraphQLSettings
    /** Properties under the `Rendering` heading. */
    var rendering: RenderingSettings
    /** Properties under the `Settings` heading. */
    var general: GeneralSettings

    /** `Dev` has a getter only: the holder is created with the object. */
    const dev: DevConfiguration

    /** Every property at its declared default. The default store path is
        computed from the user's profile folder, so it is a parameter here. */
    constructor (defaultStorePath: string)
      ensures fresh(dev)
      ensures node.appProtocolVersionString == None
      ensures node.trustedAppProtocolVersionSignerStrings == None
      ensures node.genesisBlockPath == None
      ensures node.host == None
      ensures node.port == None
      ensures node.consensusPort == None
      ensures node.swarmPrivateKeyString == None
      ensures node.consensusPrivateKeyString == None
      ensures node.workers == 5
      ensures storage.storeType == None
      ensures storage.storePath == Some(defaultStorePath)
      ensures storage.noReduceStore == false
      ensures storage.storeStateCacheSize == 100
      ensures miner.noMiner == false
      ensures miner.minerCount == 1
      ensures miner.minerPrivateKeyString == None
      ensures networking.networkType == Main
      ensures networking.iceServerStrings == None
      ensures networking.peerStrings == None
      ensures rpc.rpcServer == false
      ensures rpc.rpcListenHost == "0.0.0.0"
      ensures rpc.rpcListenPort == None
      ensures rpc.rpcRemoteServer == None
      ensures rpc.rpcHttpServer == None
      ensures graphQL.graphQLServer == false
      ensures graphQL.graphQLHost == None
      ensures graphQL.graphQLPort == None
      ensures graphQL.graphQLSecretTokenPath == None
      ensures graphQL.noCors == false
      ensures rendering.nonblockRenderer == false
      ensures rendering.nonblockRendererQueue == 512
      ensures rendering.strictRendering == false
      ensures rendering.logActionRenders == None
      ensures general.confirmations == 0
      ensures general.txLifeTime == 1000
      ensures general.messageTimeout == 60
      ensures general.tipTimeout == 60
      ensures general.demandBuffer == 1150
      ensures general.consensusSeedStrings == None
      ensures general.consensusPeerStrings == None
      ensures general.skipPreload == false
      ensures general.minimumBroadcastTarget == 10
      ensures general.bucketSize == 16
      ensures general.chainTipStaleBehaviorType == "reboot"
      ensures general.txQuotaPerSigner == 10
      ensures general.maximumPollPeers == Int32MaxValue
      ensures general.validatorStrings == None
      ensures dev.blockInterval == 100 && dev.reorgInterval == 100
    {
      node := NodeSettings(None, None, None, None, None, None, None, None, 5);
      storage := StorageSettings(None, Some(defaultStorePath), false, 100);
      miner := MinerSettings(false, 1, None);
      networking := NetworkingSettings(Main, None, None);
      rpc := RpcSettings(false, "0.0.0.0", None, None, None);
      graphQL := GraphQLSettings(false, None, None, None, false);
      rendering := RenderingSettings(false, 512, false, None);
      general := GeneralSettings(0, 1000, 60, 60, 1150, None, None, false, 10, 16, "reboot", 10, Int32MaxValue, None);
      dev := new DevConfiguration();
    }

    /** The value of every property, `Dev`'s included. */
    function Snapshot(): Settings
      reads this, dev
    {
      Settings(node, storage, miner, networking, rpc, graphQL, rendering, DevSettings(dev.blockInterval, dev.reorgInterval), general)
    }

    /** The `BlockInterval` property reads `Dev.BlockInterval`. */
    function BlockInterval(): (r: int32)
      reads dev
    {
      dev.blockInterval
    }

    /** Setting `BlockInterval` writes `Dev.BlockInterval` and nothing else. */
    method SetBlockInterval(value: int32)
      modifies dev`blockInterval
      ensures dev.blockInterval == value && BlockInterval() == value
      ensures Snapshot() == old(Snapshot()).(dev := old(Snapshot()).dev.(blockInterval := value))
    {
      dev.blockInterval := value;
    }

    /** Merges one layer of optional values onto the properties: each
        non-null argument replaces its property, a null one keeps it; the
        exception is `consensusPeerStrings`, which is replaced by its argument
        even when that is null. `layer` names the arguments for the
        postconditions. The assignments are made section by section, in the
        order of the declaration. */
    method Overwrite(
      appProtocolVersionString: Option<string>,
      trustedAppProtocolVersionSignerStrings: Option<seq<string>>,
      genesisBlockPath: Option<string>,
      host: Option<string>,
      port: Option<uint16>,
      consensusPort: Option<uint16>,
      swarmPrivateKeyString: Option<string>,
      consensusPrivateKeyString: Option<string>,
      workers: Option<int32>,
      storeType: Option<string>,
      storePath: Option<string>,
      noReduceStore: Option<bool>,
      noMiner: Option<bool>,
      minerCount: Option<int32>,
      minerPrivateKeyString: Option<string>,
      networkType: Option<NetworkType>,
      iceServerStrings: Option<seq<string>>,
      peerStrings: Option<seq<string>>,
      rpcServer: Option<bool>,
      rpcListenHost: Option<string>,
      rpcListenPort: Option<int32>,
      rpcRemoteServer: Option<bool>,
      rpcHttpServer: Option<bool>,
      graphQlServer: Option<bool>,
      graphQLHost: Option<string>,
      graphQLPort: Option<int32>,
      graphQlSecretTokenPath: Option<string>,
      noCors: Option<bool>,
      nonblockRenderer: Option<bool>,
      nonblockRendererQueue: Option<int32>,
      strictRendering: Option<bool>,
      logActionRenders: Option<bool>,
      blockInterval: Option<int32>,
      confirmations: Option<int32>,
      txLifeTime: Option<int32>,
      messageTimeout: Option<int32>,
      tipTimeout: Option<int32>,
      demandBuffer: Option<int32>,
      consensusSeedStrings: Option<seq<string>>,
      consensusPeerStrings: Option<seq<string>>,
      skipPreload: Option<bool>,
      minimumBroadcastTarget: Option<int32>,
      bucketSize: Option<int32>,
      chainTipStaleBehaviorType: Option<string>,
      txQuotaPerSigner: Option<int32>,
      maximumPollPeers: Option<int32>,
      validatorStrings: Option<seq<string>>
    ) returns (ghost layer: OverwriteArgs)
      modifies this, dev
      ensures layer == OverwriteArgs(appProtocolVersionString, trustedAppProtocolVersionSignerStrings, genesisBlockPath, host, port, consensusPort, swarmPrivateKeyString, consensusPrivateKeyString, workers, storeType, storePath, noReduceStore, noMiner, minerCount, minerPrivateKeyString, networkType, iceServerStrings, peerStrings, rpcServer, rpcListenHost, rpcListenPort, rpcRemoteServer, rpcHttpServer, graphQlServer, graphQLHost, graphQLPort, graphQlSecretTokenPath, noCors, nonblockRenderer, nonblockRendererQueue, strictRendering, logActionRenders, blockInterval, confirmations, txLifeTime, messageTimeout, tipTimeout, demandBuffer, consensusSeedStrings, consensusPeerStrings, skipPreload, minimumBroadcastTarget, bucketSize, chainTipStaleBehaviorType, txQuotaPerSigner, maximumPollPeers, validatorStrings)
      ensures Snapshot() == Merge(old(Snapshot()), layer)
      ensures general.consensusPeerStrings == consensusPeerStrings
      ensures storage.storeStateCacheSize == old(storage.storeStateCacheSize)
      ensures dev.reorgInterval == old(dev.reorgInterval)
      ensures BlockInterval() == Coalesce(blockInterval, old(BlockInterval()))
    {
      var args := OverwriteArgs(appProtocolVersionString, trustedAppProtocolVersionSignerStrings, genesisBlockPath, host, port, consensusPort, swarmPrivateKeyString, consensusPrivateKeyString, workers, storeType, storePath, noReduceStore, noMiner, minerCount, minerPrivateKeyString, networkType, iceServerStrings, peerStrings, rpcServer, rpcListenHost, rpcListenPort, rpcRemoteServer, rpcHttpServer, graphQlServer, graphQLHost, graphQLPort, graphQlSecretTokenPath, noCors, nonblockRenderer, nonblockRendererQueue, strictRendering, logActionRenders, blockInterval, confirmations, txLifeTime, messageTimeout, tipTimeout, demandBuffer, consensusSeedStrings, consensusPeerStrings, skipPreload, minimumBroadcastTarget, bucketSize, chainTipStaleBehaviorType, txQuotaPerSigner, maximumPollPeers, validatorStrings);
      node := MergeNode(node, args);
      storage := MergeStorage(storage, args);
      miner := MergeMiner(miner, args);
      networking := MergeNetworking(networking, args);
      rpc := MergeRpc(rpc, args);
      graphQL := MergeGraphQL(graphQL, args);
      rendering := MergeRendering(rendering, args);
      dev.blockInterval := Coalesce(blockInterval, dev.blockInterval);
      general := MergeGeneral(general, args);
      layer := args;
    }
  }
}
