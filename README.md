# Headless node settings: `Configuration` and `Overwrite`

This project models the startup settings object of the NineChronicles headless
node (`NineChronicles.Headless.Executable/Configuration.cs`). The object holds
48 typed settings. Most are nullable, some have declared defaults, and one is a
nested `DevConfiguration` holder that is created with the object and never
replaced. `BlockInterval` is an alias that reads and writes
`Dev.BlockInterval`. `Overwrite` takes 47 optional values, one for every setting except
`StoreStateCacheSize` and `Dev.ReorgInterval` (its `blockInterval` argument
writes into the `Dev` holder), and merges them onto the settings in place: a
non-null argument replaces its setting, and a null one keeps it.

There is one exception, at line 188: `ConsensusPeerStrings` falls back to its
own argument (`consensusPeerStrings ?? consensusPeerStrings`) rather than to
the property. So it is replaced unconditionally, and a null argument clears a
value that was set. The model reproduces the assignment as written. The
lemmas state the resulting behaviour, including the case where a null
argument clears the value.

Modules:

- `Nullable`: C# nullable values as `Option`, and the `??` operator.
  `Coalesce` is used when the fallback is non-nullable, `OrElse` when it is
  nullable.
- `SystemTypes`: the .NET `int` and `ushort` ranges as the newtypes `int32`
  and `uint16`. Nothing does arithmetic on them.
- `Properties`: `NetworkType`, with its default member `Main`.
- `ConfigurationLayers`: the settings as values.
  - `Settings` holds one record per heading of the class declaration: the
    untitled leading group, Storage, Miner, Networking, RPC Server, GraphQL
    Server, Rendering, the `Dev` holder and Settings.
  - `OverwriteArgs` is one layer of arguments, with one component per
    parameter of `Overwrite`.
  - `Merge` is `Overwrite` on values.
  - `MergeAll` applies a sequence of layers.
  - `Stack` combines two layers into one, and `StackAll` combines a sequence of them.
  - A per-setting view (`Field`, `Value`, `Get`, `ArgOf`, `FieldAfter`) states
    once the rule that every assignment follows.
- `Executable`: the two classes.
  - `DevConfiguration` has the two mutable fields.
  - `Configuration` has one mutable field per section, plus `dev`, a constant
    reference to its `DevConfiguration`.
  - `Overwrite` is proved to leave the object in the state `Merge` describes,
    with `Snapshot` reading the object's current value.
- `OverwriteLaws`: the properties of `Merge`. These are the per-setting rule,
  the settings without a parameter, the line-188 behaviour, the all-null
  layer, idempotence, composing two layers, and composing any number of
  layers.

## Model

| member | source | states |
|---|---|---|
| Executable.DevConfiguration.constructor | NineChronicles.Headless.Executable/Configuration.cs:9-13 | A new `Dev` holder has `BlockInterval` = 100 and `ReorgInterval` = 100. |
| Executable.Configuration.constructor | NineChronicles.Headless.Executable/Configuration.cs:15-96 | A new configuration has every declared default. These are `Workers` 5, `StoreStateCacheSize` 100, `MinerCount` 1, `NetworkType.Main`, `RpcListenHost` "0.0.0.0", `NonblockRendererQueue` 512, `TxLifeTime` 1000, `MessageTimeout` 60, `TipTimeout` 60, `DemandBuffer` 1150, `MinimumBroadcastTarget` 10, `BucketSize` 16, `ChainTipStaleBehaviorType` "reboot", `TxQuotaPerSigner` 10 and `MaximumPollPeers` `int.MaxValue`. The booleans are false, `Confirmations` is 0, and the other nullables are null. `StorePath` is the given default path. The `Dev` holder is fresh and has both intervals at 100. |
| Executable.Configuration.SetBlockInterval | NineChronicles.Headless.Executable/Configuration.cs:74-78 | Writing `BlockInterval` sets `Dev.BlockInterval`. Afterwards both views read the new value, and every other setting is unchanged. |
| Executable.Configuration.Overwrite | NineChronicles.Headless.Executable/Configuration.cs:98-196 | Afterwards the object's settings are `Merge` of the settings before, with the layer made of the 47 arguments. `ConsensusPeerStrings` equals its argument. `StoreStateCacheSize` and `Dev.ReorgInterval` are unchanged. The alias reads the `blockInterval` argument when that is non-null and the previous value otherwise. `Dev` is a constant field, so it is never replaced. |
| ConfigurationLayers.MergeAll | NineChronicles.Headless.Executable/Configuration.cs:98-196 | Over any sequence of `Overwrite` calls, `StoreStateCacheSize` and `Dev.ReorgInterval` keep their values. After at least one call, `ConsensusPeerStrings` is the last call's argument. |
| OverwriteLaws.MergeByField | NineChronicles.Headless.Executable/Configuration.cs:148-195 | For every setting, the value after `Overwrite` is the argument when it is non-null, and the value before otherwise. `ConsensusPeerStrings` is the exception: it ends as its argument, null included. |
| OverwriteLaws.MergeKeepsUnparameterised | NineChronicles.Headless.Executable/Configuration.cs:98-196 | `Overwrite` has no parameter for `StoreStateCacheSize` or `Dev.ReorgInterval`. It leaves both unchanged whatever the arguments. |
| OverwriteLaws.MergeSetsPeerStringsAsWritten | NineChronicles.Headless.Executable/Configuration.cs:188 | `ConsensusPeerStrings` becomes the `consensusPeerStrings` argument unconditionally. A null argument clears a value that was set. |
| OverwriteLaws.MergeNoArgs | NineChronicles.Headless.Executable/Configuration.cs:148-195 | With every argument null, every setting keeps its value except `ConsensusPeerStrings`, which becomes null. |
| OverwriteLaws.MergeIdempotent | NineChronicles.Headless.Executable/Configuration.cs:148-195 | Overwriting twice with the same arguments gives the same settings as overwriting once. |
| OverwriteLaws.MergeLayering | NineChronicles.Headless.Executable/Configuration.cs:148-195 | Overwriting with `a` and then `b` equals one overwrite with the layer that takes each of `b`'s non-null arguments and `a`'s otherwise. `consensusPeerStrings` is always taken from `b`. |
| OverwriteLaws.MergeAllAppend | NineChronicles.Headless.Executable/Configuration.cs:148-195 | Overwriting with one sequence of layers and then another is the same as overwriting with their concatenation. |
| OverwriteLaws.MergeAllStacked | NineChronicles.Headless.Executable/Configuration.cs:148-195 | Any non-empty sequence of overwrites has the same effect as one overwrite with the layers stacked first to last, where a later non-null argument wins. |
| OverwriteLaws.ReplayChangesNothing | NineChronicles.Headless.Executable/Configuration.cs:148-195 | Replaying the same sequence of overwrites a second time leaves the settings as the first pass left them. |
| OverwriteLaws.LayeringByField | NineChronicles.Headless.Executable/Configuration.cs:148-195 | After `a` then `b`, each setting is `b`'s argument if non-null, else `a`'s if non-null, else the original value. `ConsensusPeerStrings` ends as `b`'s argument. |
| OverwriteLaws.LastNonNullLayerWins | NineChronicles.Headless.Executable/Configuration.cs:148-195 | After any number of overwrites, a setting other than `ConsensusPeerStrings` equals the argument of the last call that passed a non-null one. |
| OverwriteLaws.UnsetEverywhereKeeps | NineChronicles.Headless.Executable/Configuration.cs:148-195 | A setting for which no call passes an argument keeps its original value. For `ConsensusPeerStrings` this holds only when there are no calls. |

## Left out

- `Executable.Configuration` keeps its 48 properties in eight section records plus the `Dev` holder, not in 48 separate fields.
  - Each assignment of `Overwrite` is one component update inside the section's `Merge` function. The method writes the sections in declaration order.
  - The model does not represent the intermediate states between two assignments of the same section. Nothing can observe them, because the method is straight-line code with no calls.
- The default of `StorePath` is computed from the user's profile folder through `Environment.GetFolderPath` and `Path.Combine`. That value is a parameter of the constructor.
- The settings are opaque values: ports, key strings, peer strings and host names are not parsed or validated, and `NetworkType` has only `Main` and an opaque other case. The code that uses them is not part of this model.
- C# auto-property machinery and nullable annotations are not modelled: a property is a field, and `T?` is `Option<T>`. A `string[]?` setting is a value (`Option<seq<string>>`), so the model does not capture that after `Overwrite` the property and the caller's array are the same object, where an in-place write to one would show in the other. `int` and `ushort` are range-bounded newtypes, and nothing checks them further, because the source does no arithmetic on them.
- `NineChronicles.Headless.Tests/GraphTypes/ActionQueryTest.cs` is not part of this model. It is an asynchronous test harness over a blockchain, a GraphQL schema and a binary codec, none of which are modelled.
