# Dynamic dimension manager

A model of Forge's `DynamicDimensionManager`, the object that lets mods register new
dimensions (world definitions) while a server session is being set up and bring them
online later without a restart.

The manager holds two references that are present only while a session runs: the
session's dynamic registries (the dimension-type and noise-settings tables) and the
server configuration (which owns the table of dimension definitions). It is ready
exactly when both are present. Registration inserts a definition into the
configuration's table only when its key is still free, so repeated registration is
harmless. Keys are (registry, location) pairs compared structurally: the dimension key,
the world key, the dimension-type key and the noise-settings key are all derived from
the same `ResourceLocation`. Loading a dimension sends the server one request built
from the registered definition. `getServerWorlds` filters the server's worlds, in
order, by comparing the registry names of their dimension types.

Modules:

- `Registries` (registries.dfy): locations, registry tags and keys, key derivation,
  lookup, insert-if-absent and the reverse (value-to-name) lookup of a bidirectional
  table.
- `Host` (host.dfy): the host-side objects. Dimension types, chunk generators and
  noise settings are opaque handles. A dimension is a (type, generator) pair. The
  session objects (`DynamicRegistries`, `ServerConfiguration`) and `MinecraftServer`
  are classes, because the manager holds references to them and registration changes
  the configuration in place. The server records each load request.
- `WorldFilter` (world_filter.dfy): the specification of `getServerWorlds` and its
  lemmas. The result is an order-preserving subsequence of matching worlds, and the
  only one of its length. Under a bidirectional table, comparing names is the same as
  comparing types.
- `DynamicDimensions` (dynamic_dimension_manager.dfy): the manager class.
- `Scenarios` (scenarios.dfy): client code proved from the contracts alone.

Failure behaviour follows the code. The Java methods never check `isReady()`; they
dereference whichever session reference they use and throw a `NullPointerException`
when it is missing. So each method requires exactly the reference it dereferences:
`registerDimension`, `getDimension` and `loadOrCreateDimension` need the server
configuration; `getDimensionType`, `getDimensionSettings` and `getServerWorlds` need
the dynamic registries; `getServerWorld` needs neither. `loadOrCreateDimension`
dereferences the looked-up definition, so it requires the location to be registered.
`getServerWorlds` dereferences the name of every world's type, so it requires every
world's type to be registered. `Validate.notNull` failures on null arguments cannot
arise, because Dafny's datatype and non-null class types have no null. There are
no typed `NotReady`, `UnknownIdentifier` or `UnresolvedReference` results, and
registration returns no "inserted" boolean: the Java code has none of these (it throws,
and `registerDimension` returns nothing), so the model follows the code.

## Model

| member | source | states |
|---|---|---|
| DynamicDimensions.DynamicDimensionManager.constructor | src/main/java/net/minecraftforge/dimension/DynamicDimensionManager.java:30-37 | a new manager holds neither session reference and is not ready |
| DynamicDimensions.DynamicDimensionManager.IsReady | src/main/java/net/minecraftforge/dimension/DynamicDimensionManager.java:57-59 | true exactly when both session references are present |
| DynamicDimensions.DynamicDimensionManager.InitDimensionManager | src/main/java/net/minecraftforge/dimension/DynamicDimensionManager.java:43-46 | both references become the arguments (a second call replaces them); ready exactly when both arguments are non-null |
| DynamicDimensions.DynamicDimensionManager.OnIntegratedServerStop | src/main/java/net/minecraftforge/dimension/DynamicDimensionManager.java:48-51 | from any state, both references are cleared and the manager is not ready |
| Scenarios.ReadinessCycle | src/main/java/net/minecraftforge/dimension/DynamicDimensionManager.java:43-59 | isReady is false before attach, true after attach with two references, false after stop |
| DynamicDimensions.DynamicDimensionManager.RegisterDimension | src/main/java/net/minecraftforge/dimension/DynamicDimensionManager.java:74-83 | the definitions table becomes insert-if-absent of the old table at (DIMENSION_KEY, loc); the lookup of loc keeps an existing definition or yields the new one; every other location's lookup is unchanged; only the configuration object is modified |
| Registries.InsertIfAbsent | src/main/java/net/minecraftforge/dimension/DynamicDimensionManager.java:78-82 | the key set grows by exactly the key; no existing entry is overwritten; an absent key gets the new value |
| Registries.InsertIfAbsentKeepsFirst | src/main/java/net/minecraftforge/dimension/DynamicDimensionManager.java:78-82 | a second registration under the same key changes nothing, and the lookup yields the first value |
| Registries.InsertIfAbsentCommutes | src/main/java/net/minecraftforge/dimension/DynamicDimensionManager.java:74-83 | registrations under different keys give the same table in either order |
| Scenarios.RegisterTwice | src/main/java/net/minecraftforge/dimension/DynamicDimensionManager.java:74-83 | after registering two definitions under one location, getDimension returns the first |
| Registries.KeyDerivationInjective | src/main/java/net/minecraftforge/dimension/DynamicDimensionManager.java:93-94 | derived keys are equal exactly when registry and location are equal, and a key's location is the one it came from |
| DynamicDimensions.DynamicDimensionManager.GetDimension | src/main/java/net/minecraftforge/dimension/DynamicDimensionManager.java:126-135 | None exactly when nothing is registered under (DIMENSION_KEY, loc), otherwise the registered definition |
| DynamicDimensions.DynamicDimensionManager.LoadOrCreateDimension | src/main/java/net/minecraftforge/dimension/DynamicDimensionManager.java:89-102 | requires a registered location; the server receives exactly one new load request, for (WORLD_KEY, loc), with the registered definition's type and generator |
| Scenarios.RegisterThenLoad | src/test/java/net/minecraftforge/debug/DimensionTest.java:132-138 | register then load sends exactly one request, for the world key of the same location, with the definition's type and generator |
| DynamicDimensions.DynamicDimensionManager.GetDimensionType | src/main/java/net/minecraftforge/dimension/DynamicDimensionManager.java:109-119 | None exactly when no type is registered under (DIMENSION_TYPE_KEY, loc), otherwise the registered type |
| DynamicDimensions.DynamicDimensionManager.GetDimensionSettings | src/main/java/net/minecraftforge/dimension/DynamicDimensionManager.java:182-191 | None exactly when no settings are registered under (NOISE_SETTINGS_KEY, loc), otherwise the registered settings |
| DynamicDimensions.TypeLookupAgreesWithNames | src/main/java/net/minecraftforge/dimension/DynamicDimensionManager.java:113-116 | in a bidirectional type table, getDimensionType(loc) finds t exactly when the table names t as loc |
| DynamicDimensions.DynamicDimensionManager.GetServerWorlds | src/main/java/net/minecraftforge/dimension/DynamicDimensionManager.java:143-159 | the loop's result is the order-preserving filter of the server's worlds by type name, a subsequence of them; in a bidirectional table it holds exactly the worlds whose type is the requested one (none if that type is unregistered) |
| WorldFilter.WorldsOfTypeIsMatchingSubsequence | src/main/java/net/minecraftforge/dimension/DynamicDimensionManager.java:152-156 | the filter is a subsequence of the worlds, holds only matching worlds, and keeps every occurrence of each matching world |
| WorldFilter.MatchingSubsequenceBounded | src/main/java/net/minecraftforge/dimension/DynamicDimensionManager.java:152-156 | no subsequence of matching worlds is longer than the filter |
| WorldFilter.MatchingSubsequenceIsFilter | src/main/java/net/minecraftforge/dimension/DynamicDimensionManager.java:152-156 | a subsequence of matching worlds as long as the filter is the filter, so the result is exactly the matching subsequence |
| WorldFilter.WorldsOfTypeByValue | src/main/java/net/minecraftforge/dimension/DynamicDimensionManager.java:153 | in a bidirectional type table, comparing registry names is the same as comparing types; an unregistered type matches nothing |
| WorldFilter.SubsequenceMembers | src/main/java/net/minecraftforge/dimension/DynamicDimensionManager.java:150-158 | every world the filter returns is a world of the server |
| Scenarios.OverworldsOfThree | src/main/java/net/minecraftforge/dimension/DynamicDimensionManager.java:148-158 | of three live worlds, two of the overworld type and one not, exactly the two come back, in server order; with the type table built bidirectional, the other world is excluded by its type |
| Registries.NamesInverseInjective | src/main/java/net/minecraftforge/dimension/DynamicDimensionManager.java:153 | in a bidirectional table two values share a name only if they are the same value |
| Registries.NamesInverseRoundTrip | src/main/java/net/minecraftforge/dimension/DynamicDimensionManager.java:148-153 | looking up by name finds v exactly when the reverse lookup names v with that location |
| DynamicDimensions.DynamicDimensionManager.GetServerWorld | src/main/java/net/minecraftforge/dimension/DynamicDimensionManager.java:167-175 | needs no session; a found world is a world of the server stored under (WORLD_KEY, loc), and the only one when world keys are distinct; None only when no world has that key |
| Host.FindWorld | src/main/java/net/minecraftforge/dimension/DynamicDimensionManager.java:174 | a found world is in the list under the key, and the only one there when world keys are distinct; None only when no world has the key |
| Host.MinecraftServer.LoadDimension | src/main/java/net/minecraftforge/dimension/DynamicDimensionManager.java:101 | appends exactly one load request with the given key, type and generator |

## Left out

- `onDimensionRegister` (lines 64-66) posts a `DimensionRegisterEvent` carrying the manager on Forge's event bus. The event bus is an external framework, and the event only holds the manager.
- `getDimensionManager` and the static singleton (lines 30, 39-41): the manager is an ordinary object that its creator owns.
- `getBiomeRegistry` (lines 198-201): a deprecated accessor that only returns a table.
- `Lifecycle.stable()`, the numeric ids and entry order of the host's registries, and `ResourceLocation` syntax checks belong to the host libraries, which are not part of this model.
- A `Dimension` holds a supplier of its type that is evaluated on each `getDimensionType()` call. Here the type is a plain value, so a supplier that reads the manager lazily is not modelled.
- `Host.MinecraftServer.LoadDimension`: the server's construction of the world is not part of this model. Only the request is recorded, and the contract says nothing about the server's world list afterwards.
- `DynamicRegistries.Valid` (the type table is a bidirectional map) is the host's registry behaviour. It is assumed where it is used, not enforced on the host's objects.
- Registry tags are assumed distinct. In the host library the world and dimension registries may share one registry name, which would make `(WORLD_KEY, loc)` and `(DIMENSION_KEY, loc)` the same key; no table here holds both kinds of key, so no operation's behaviour depends on this.
- `Host.DistinctWorldKeys` (one world per world key, as the server's keyed map of worlds guarantees) is assumed where `GetServerWorld` and `FindWorld` use it, not enforced on `MinecraftServer`.
- Thread safety: the Java class has no synchronisation, and the model is sequential.
