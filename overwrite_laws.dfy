/** What `Overwrite` guarantees, proved on its value-level specification
    `Merge`: the per-setting rule, the settings it never touches, the
    `consensusPeerStrings` irregularity, idempotence and layering. */
module OverwriteLaws {
  import opened Nullable
  import opened ConfigurationLayers

  /** Every setting after `Merge` is given by the per-setting rule. */
  lemma MergeByField(s: Settings, a: OverwriteArgs, f: Field)
    ensures Get(Merge(s, a), f) == FieldAfter(s, a, f)
  {
    match f
    case Node(g) => MergeByFieldNode(s, a, g);
    case Storage(g) => MergeByFieldStorage(s, a, g);
    case Miner(g) => MergeByFieldMiner(s, a, g);
    case Networking(g) => MergeByFieldNetworking(s, a, g);
    case Rpc(g) => MergeByFieldRpc(s, a, g);
    case GraphQL(g) => MergeByFieldGraphQL(s, a, g);
    case Rendering(g) => MergeByFieldRendering(s, a, g);
    case Dev(g) => MergeByFieldDev(s, a, g);
    case General(g) => MergeByFieldGeneral(s, a, g);
  }

  lemma MergeByFieldNode(s: Settings, a: OverwriteArgs, g: NodeField)
    ensures Get(Merge(s, a), Node(g)) == FieldAfter(s, a, Node(g))
  {
    match g
    case AppProtocolVersionString =>
    case TrustedAppProtocolVersionSignerStrings =>
    case GenesisBlockPath =>
    case Host =>
    case Port =>
    case ConsensusPort =>
    case SwarmPrivateKeyString =>
    case ConsensusPrivateKeyString =>
    case Workers =>
  }

  lemma MergeByFieldStorage(s: Settings, a: OverwriteArgs, g: StorageField)
    ensures Get(Merge(s, a), Storage(g)) == FieldAfter(s, a, Storage(g))
  {
    match g
    case StoreType =>
    case StorePath =>
    case NoReduceStore =>
    case StoreStateCacheSize =>
  }

  lemma MergeByFieldMiner(s: Settings, a: OverwriteArgs, g: MinerField)
    ensures Get(Merge(s, a), Miner(g)) == FieldAfter(s, a, Miner(g))
  {
    match g
    case NoMiner =>
    case MinerCount =>
    case MinerPrivateKeyString =>
  }

  lemma MergeByFieldNetworking(s: Settings, a: OverwriteArgs, g: NetworkingField)
    ensures Get(Merge(s, a), Networking(g)) == FieldAfter(s, a, Networking(g))
  {
    match g
    case NetworkType =>
    case IceServerStrings =>
    case PeerStrings =>
  }

  lemma MergeByFieldRpc(s: Settings, a: OverwriteArgs, g: RpcField)
    ensures Get(Merge(s, a), Rpc(g)) == FieldAfter(s, a, Rpc(g))
  {
    match g
    case RpcServer =>
    case RpcListenHost =>
    case RpcListenPort =>
    case RpcRemoteServer =>
    case RpcHttpServer =>
  }

  lemma MergeByFieldGraphQL(s: Settings, a: OverwriteArgs, g: GraphQLField)
    ensures Get(Merge(s, a), GraphQL(g)) == FieldAfter(s, a, GraphQL(g))
  {
    match g
    case GraphQLServer =>
    case GraphQLHost =>
    case GraphQLPort =>
    case GraphQLSecretTokenPath =>
    case NoCors =>
  }

  lemma MergeByFieldRendering(s: Settings, a: OverwriteArgs, g: RenderingField)
    ensures Get(Merge(s, a), Rendering(g)) == FieldAfter(s, a, Rendering(g))
  {
    match g
    case NonblockRenderer =>
    case NonblockRendererQueue =>
    case StrictRendering =>
    case LogActionRenders =>
  }

  lemma MergeByFieldDev(s: Settings, a: OverwriteArgs, g: DevField)
    ensures Get(Merge(s, a), Dev(g)) == FieldAfter(s, a, Dev(g))
  {
    match g
    case BlockInterval =>
    case ReorgInterval =>
  }

  lemma MergeByFieldGeneral(s: Settings, a: OverwriteArgs, g: GeneralField)
    ensures Get(Merge(s, a), General(g)) == FieldAfter(s, a, General(g))
  {
    match g
    case Confirmations =>
    case TxLifeTime =>
    case MessageTimeout =>
    case TipTimeout =>
    case DemandBuffer =>
    case ConsensusSeedStrings =>
    case ConsensusPeerStrings =>
    case SkipPreload =>
    case MinimumBroadcastTarget =>
    case BucketSize =>
    case ChainTipStaleBehaviorType =>
    case TxQuotaPerSigner =>
    case MaximumPollPeers =>
    case ValidatorStrings =>
  }

  /** `Overwrite` has no parameter for `StoreStateCacheSize` or
      `Dev.ReorgInterval`; the rule keeps both whatever the layer. */
  lemma MergeKeepsUnparameterised(s: Settings, a: OverwriteArgs)
    ensures Merge(s, a).storage.storeStateCacheSize == s.storage.storeStateCacheSize
    ensures Merge(s, a).dev.reorgInterval == s.dev.reorgInterval
    ensures ArgOf(a, Storage(StoreStateCacheSize)).None? && ArgOf(a, Dev(ReorgInterval)).None?
  {
  }

  /** `consensusPeerStrings` is replaced by its argument unconditionally: a
      null argument clears a value that was set. */
  lemma MergeSetsPeerStringsAsWritten(s: Settings, a: OverwriteArgs)
    ensures Merge(s, a).general.consensusPeerStrings == a.consensusPeerStrings
  {
  }

  /** With every argument null, nothing changes but `consensusPeerStrings`,
      which becomes null. */
  lemma MergeNoArgs(s: Settings)
    ensures Merge(s, NoArgs()) == s.(general := s.general.(consensusPeerStrings := None))
  {
  }

  /** Overwriting twice with the same layer is overwriting once. */
  lemma MergeIdempotent(s: Settings, a: OverwriteArgs)
    ensures Merge(Merge(s, a), a) == Merge(s, a)
  {
    MergeNodeIdempotent(s.node, a);
    MergeStorageIdempotent(s.storage, a);
    MergeMinerIdempotent(s.miner, a);
    MergeNetworkingIdempotent(s.networking, a);
    MergeRpcIdempotent(s.rpc, a);
    MergeGraphQLIdempotent(s.graphQL, a);
    MergeRenderingIdempotent(s.rendering, a);
    MergeDevIdempotent(s.dev, a);
    MergeGeneralIdempotent(s.general, a);
  }

  lemma MergeNodeIdempotent(part: NodeSettings, a: OverwriteArgs)
    ensures MergeNode(MergeNode(part, a), a) == MergeNode(part, a)
  {
  }

  lemma MergeStorageIdempotent(part: StorageSettings, a: OverwriteArgs)
    ensures MergeStorage(MergeStorage(part, a), a) == MergeStorage(part, a)
  {
  }

  lemma MergeMinerIdempotent(part: MinerSettings, a: OverwriteArgs)
    ensures MergeMiner(MergeMiner(part, a), a) == MergeMiner(part, a)
  {
  }

  lemma MergeNetworkingIdempotent(part: NetworkingSettings, a: OverwriteArgs)
    ensures MergeNetworking(MergeNetworking(part, a), a) == MergeNetworking(part, a)
  {
  }

  lemma MergeRpcIdempotent(part: RpcSettings, a: OverwriteArgs)
    ensures MergeRpc(MergeRpc(part, a), a) == MergeRpc(part, a)
  {
  }

  lemma MergeGraphQLIdempotent(part: GraphQLSettings, a: OverwriteArgs)
    ensures MergeGraphQL(MergeGraphQL(part, a), a) == MergeGraphQL(part, a)
  {
  }

  lemma MergeRenderingIdempotent(part: RenderingSettings, a: OverwriteArgs)
    ensures MergeRendering(MergeRendering(part, a), a) == MergeRendering(part, a)
  {
  }

  lemma MergeDevIdempotent(part: DevSettings, a: OverwriteArgs)
    ensures MergeDev(MergeDev(part, a), a) == MergeDev(part, a)
  {
  }

  lemma MergeGeneralIdempotent(part: GeneralSettings, a: OverwriteArgs)
    ensures MergeGeneral(MergeGeneral(part, a), a) == MergeGeneral(part, a)
  {
  }

  /** Overwriting with `a` and then `b` is overwriting once with the layer
      that prefers `b`'s non-null arguments to `a`'s. */
  lemma MergeLayering(s: Settings, a: OverwriteArgs, b: OverwriteArgs)
    ensures Merge(Merge(s, a), b) == Merge(s, Stack(a, b))
  {
    MergeNodeLayering(s.node, a, b);
    MergeStorageLayering(s.storage, a, b);
    MergeMinerLayering(s.miner, a, b);
    MergeNetworkingLayering(s.networking, a, b);
    MergeRpcLayering(s.rpc, a, b);
    MergeGraphQLLayering(s.graphQL, a, b);
    MergeRenderingLayering(s.rendering, a, b);
    MergeDevLayering(s.dev, a, b);
    MergeGeneralLayering(s.general, a, b);
  }

  lemma MergeNodeLayering(part: NodeSettings, a: OverwriteArgs, b: OverwriteArgs)
    ensures MergeNode(MergeNode(part, a), b) == MergeNode(part, Stack(a, b))
  {
  }

  lemma MergeStorageLayering(part: StorageSettings, a: OverwriteArgs, b: OverwriteArgs)
    ensures MergeStorage(MergeStorage(part, a), b) == MergeStorage(part, Stack(a, b))
  {
  }

  lemma MergeMinerLayering(part: MinerSettings, a: OverwriteArgs, b: OverwriteArgs)
    ensures MergeMiner(MergeMiner(part, a), b) == MergeMiner(part, Stack(a, b))
  {
  }

  lemma MergeNetworkingLayering(part: NetworkingSettings, a: OverwriteArgs, b: OverwriteArgs)
    ensures MergeNetworking(MergeNetworking(part, a), b) == MergeNetworking(part, Stack(a, b))
  {
  }

  lemma MergeRpcLayering(part: RpcSettings, a: OverwriteArgs, b: OverwriteArgs)
    ensures MergeRpc(MergeRpc(part, a), b) == MergeRpc(part, Stack(a, b))
  {
  }

  lemma MergeGraphQLLayering(part: GraphQLSettings, a: OverwriteArgs, b: OverwriteArgs)
    ensures MergeGraphQL(MergeGraphQL(part, a), b) == MergeGraphQL(part, Stack(a, b))
  {
  }

  lemma MergeRenderingLayering(part: RenderingSettings, a: OverwriteArgs, b: OverwriteArgs)
    ensures MergeRendering(MergeRendering(part, a), b) == MergeRendering(part, Stack(a, b))
  {
  }

  lemma MergeDevLayering(part: DevSettings, a: OverwriteArgs, b: OverwriteArgs)
    ensures MergeDev(MergeDev(part, a), b) == MergeDev(part, Stack(a, b))
  {
  }

  lemma MergeGeneralLayering(part: GeneralSettings, a: OverwriteArgs, b: OverwriteArgs)
    ensures MergeGeneral(MergeGeneral(part, a), b) == MergeGeneral(part, Stack(a, b))
  {
  }

  /** Applying `xs` and then `ys` is applying `xs + ys`. */
  lemma {:induction false} MergeAllAppend(s: Settings, xs: seq<OverwriteArgs>, ys: seq<OverwriteArgs>)
    ensures MergeAll(s, xs + ys) == MergeAll(MergeAll(s, xs), ys)
  {
    if |ys| == 0 {
      assert xs + ys == xs;
    } else {
      var n := |ys|;
      assert (xs + ys)[..|xs + ys| - 1] == xs + ys[..n - 1];
      MergeAllAppend(s, xs, ys[..n - 1]);
    }
  }

  /** Any non-empty sequence of overwrites has the effect of a single one, with
      the layers stacked first to last. */
  lemma {:induction false} MergeAllStacked(s: Settings, layers: seq<OverwriteArgs>)
    requires |layers| > 0
    ensures MergeAll(s, layers) == Merge(s, StackAll(layers))
  {
    var n := |layers|;
    if n > 1 {
      var prefix := layers[..n - 1];
      MergeAllStacked(s, prefix);
      MergeLayering(s, StackAll(prefix), layers[n - 1]);
    }
  }

  /** Replaying a sequence of overwrites a second time changes nothing. */
  lemma ReplayChangesNothing(s: Settings, layers: seq<OverwriteArgs>)
    ensures MergeAll(MergeAll(s, layers), layers) == MergeAll(s, layers)
  {
    if |layers| > 0 {
      MergeAllStacked(s, layers);
      MergeAllStacked(MergeAll(s, layers), layers);
      MergeIdempotent(s, StackAll(layers));
    }
  }

  /** Layering setting by setting: `b`'s argument when not null, else `a`'s
      when not null, else the original value; `ConsensusPeerStrings` ends as
      `b`'s argument. */
  lemma LayeringByField(s: Settings, a: OverwriteArgs, b: OverwriteArgs, f: Field)
    ensures Get(Merge(Merge(s, a), b), f) ==
      if f == General(ConsensusPeerStrings) then Coalesce(ArgOf(b, f), Null)
      else Coalesce(ArgOf(b, f), Coalesce(ArgOf(a, f), Get(s, f)))
  {
    MergeByField(s, a, f);
    MergeByField(Merge(s, a), b, f);
  }

  /** Over any number of layers, a setting other than `ConsensusPeerStrings`
      ends as the argument of the last layer that passes one. */
  lemma {:induction false} LastNonNullLayerWins(s: Settings, layers: seq<OverwriteArgs>, f: Field, i: nat)
    requires f != General(ConsensusPeerStrings)
    requires i < |layers| && ArgOf(layers[i], f).Some?
    requires forall j :: i < j < |layers| ==> ArgOf(layers[j], f).None?
    ensures Get(MergeAll(s, layers), f) == ArgOf(layers[i], f).value
  {
    var n := |layers|;
    var prefix, last := layers[..n - 1], layers[n - 1];
    assert MergeAll(s, layers) == Merge(MergeAll(s, prefix), last);
    MergeByField(MergeAll(s, prefix), last, f);
    if i < n - 1 {
      assert ArgOf(last, f).None?;
      LastNonNullLayerWins(s, prefix, f, i);
    }
  }

  /** A setting that no layer passes an argument for keeps its original value
      (`ConsensusPeerStrings` only when there are no layers at all). */
  lemma {:induction false} UnsetEverywhereKeeps(s: Settings, layers: seq<OverwriteArgs>, f: Field)
    requires f != General(ConsensusPeerStrings) || |layers| == 0
    requires forall j :: 0 <= j < |layers| ==> ArgOf(layers[j], f).None?
    ensures Get(MergeAll(s, layers), f) == Get(s, f)
  {
    if |layers| > 0 {
      var n := |layers|;
      var prefix := layers[..n - 1];
      MergeByField(MergeAll(s, prefix), layers[n - 1], f);
      UnsetEverywhereKeeps(s, prefix, f);
    }
  }
}
