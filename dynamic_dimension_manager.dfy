/**
 * The dynamic dimension manager: it holds references to the session's
 * dynamic registries and server configuration while a session runs, and
 * registers, looks up and brings online world definitions through them.
 *
 * The Java class keeps one static instance; here the instance is an
 * ordinary object that its creator owns. A method that dereferences a
 * session reference requires that reference to be present: the Java code
 * throws a NullPointerException there instead.
 */
module DynamicDimensions {
  import opened Wrappers
  import opened Registries
  import opened Host
  import opened WorldFilter

  class DynamicDimensionManager {
    var dynamicRegistries: DynamicRegistries?
    var serverWorldInfo: ServerConfiguration?

    /** A fresh manager holds no session. */
    constructor ()
      ensures dynamicRegistries == null && serverWorldInfo == null
      ensures !IsReady()
    {
      dynamicRegistries, serverWorldInfo := null, null;
    }

    /** Ready to accept registrations: both session references are present. */
    predicate IsReady()
      reads this
    {
      dynamicRegistries != null && serverWorldInfo != null
    }

    /** Attaches a session; a second call simply replaces both references. */
    method InitDimensionManager(registries: DynamicRegistries?, config: ServerConfiguration?)
      modifies this
      ensures dynamicRegistries == registries && serverWorldInfo == config
      ensures IsReady() <==> registries != null && config != null
    {
      dynamicRegistries := registries;
      serverWorldInfo := config;
    }

    /** Detaches the session, whatever state the manager was in. */
    method OnIntegratedServerStop()
      modifies this
      ensures dynamicRegistries == null && serverWorldInfo == null
      ensures !IsReady()
    {
      dynamicRegistries := null;
      serverWorldInfo := null;
    }

    /** The world definition registered under `loc`, or None. */
    function GetDimension(loc: ResourceLocation): (d: Option<Dimension>)
      reads this, serverWorldInfo
      requires serverWorldInfo != null
      ensures d.None? <==> RegistryKey(DimensionKey, loc) !in serverWorldInfo.dimensions
      ensures d.Some? ==> serverWorldInfo.dimensions[RegistryKey(DimensionKey, loc)] == d.value
    {
      var registryKey := GetOrCreateKey(DimensionKey, loc);
      GetValueForKey(serverWorldInfo.dimensions, registryKey)
    }

    /**
     * Registers `dimension` under `loc` unless a definition is already
     * registered there; a repeated registration neither overwrites nor fails.
     * Only the configuration's table of definitions changes.
     */
    method RegisterDimension(loc: ResourceLocation, dimension: Dimension)
      requires serverWorldInfo != null
      modifies serverWorldInfo
      ensures serverWorldInfo.dimensions
           == InsertIfAbsent(old(serverWorldInfo.dimensions), RegistryKey(DimensionKey, loc), dimension)
      ensures GetDimension(loc) == if old(GetDimension(loc)).Some? then old(GetDimension(loc)) else Some(dimension)
      ensures forall l :: l != loc ==> GetDimension(l) == old(GetDimension(l))
    {
      var registryKey := GetOrCreateKey(DimensionKey, loc);
      if GetValueForKey(serverWorldInfo.dimensions, registryKey) == None {
        serverWorldInfo.dimensions := serverWorldInfo.dimensions[registryKey := dimension];
      }
    }

    /**
     * Asks `server` to load the world registered under `loc`: one request,
     * for the world key derived from the same location, with the registered
     * definition's type and generator.
     */
    method LoadOrCreateDimension(server: MinecraftServer, loc: ResourceLocation)
      requires serverWorldInfo != null
      requires GetDimension(loc).Some?
      modifies server
      ensures server.loadRequests == old(server.loadRequests) + [LoadRequest(
        RegistryKey(WorldKey, loc),
        GetDimension(loc).value.dimensionType,
        GetDimension(loc).value.chunkGenerator)]
    {
      var registryKey := GetOrCreateKey(DimensionKey, loc);
      var registryKey1 := GetOrCreateKey(WorldKey, registryKey.location);
      var dimension := GetValueForKey(serverWorldInfo.dimensions, registryKey).value;
      var dimensionType := dimension.dimensionType;
      var gen := dimension.chunkGenerator;
      server.LoadDimension(registryKey1, dimensionType, gen);
    }

    /** The dimension type registered under `loc`, or None. */
    function GetDimensionType(loc: ResourceLocation): (t: Option<DimensionType>)
      reads this, dynamicRegistries
      requires dynamicRegistries != null
      ensures t.None? <==> RegistryKey(DimensionTypeKey, loc) !in dynamicRegistries.dimensionTypes
      ensures t.Some? ==> dynamicRegistries.dimensionTypes[RegistryKey(DimensionTypeKey, loc)] == t.value
    {
      var key := GetOrCreateKey(DimensionTypeKey, loc);
      GetValueForKey(dynamicRegistries.dimensionTypes, key)
    }

    /**
     * The worlds of `server`, in its enumeration order, whose dimension type
     * has the same registry name as `dimensionType`. Every world's type must
     * be registered, since the name of each is dereferenced.
     */
    method GetServerWorlds(server: MinecraftServer, dimensionType: DimensionType) returns (worlds: seq<ServerWorld>)
      requires dynamicRegistries != null
      requires forall w :: w in server.worlds ==> w.dimensionType in dynamicRegistries.dimensionTypeNames
      ensures worlds == WorldsOfType(server.worlds, dynamicRegistries.dimensionTypeNames, dimensionType)
      ensures IsSubsequence(worlds, server.worlds)
      ensures dynamicRegistries.Valid() ==>
        forall w :: w in worlds <==>
          w in server.worlds && dimensionType in dynamicRegistries.dimensionTypeNames && w.dimensionType == dimensionType
    {
      var names := dynamicRegistries.dimensionTypeNames;
      var all := server.worlds;
      worlds := [];
      for i := 0 to |all|
        invariant worlds + WorldsOfType(all[i..], names, dimensionType) == WorldsOfType(all, names, dimensionType)
      {
        assert all[i..] == [all[i]] + all[i + 1..];
        var world := all[i];
        if SameTypeName(names, world, dimensionType) {
          worlds := worlds + [world];
        }
      }
      assert all[|all|..] == [];
      WorldsOfTypeIsMatchingSubsequence(all, names, dimensionType);
      if dynamicRegistries.Valid() {
        WorldsOfTypeByValue(all, dynamicRegistries.dimensionTypes, names, dimensionType);
      }
    }

    /** The live world whose world key is derived from `loc`, or None. */
    function GetServerWorld(server: MinecraftServer, loc: ResourceLocation): (w: Option<ServerWorld>)
      reads server
      ensures w.Some? ==> w.value in server.worlds && w.value.dimensionKey == RegistryKey(WorldKey, loc)
      ensures w.None? ==> forall x :: x in server.worlds ==> x.dimensionKey != RegistryKey(WorldKey, loc)
      ensures w.Some? && DistinctWorldKeys(server.worlds) ==>
        forall x :: x in server.worlds && x.dimensionKey == RegistryKey(WorldKey, loc) ==> x == w.value
    {
      var registryKey := GetOrCreateKey(WorldKey, loc);
      server.GetWorld(registryKey)
    }

    /** The noise settings registered under `loc`, or None. */
    function GetDimensionSettings(loc: ResourceLocation): (s: Option<DimensionSettings>)
      reads this, dynamicRegistries
      requires dynamicRegistries != null
      ensures s.None? <==> RegistryKey(NoiseSettingsKey, loc) !in dynamicRegistries.noiseSettings
      ensures s.Some? ==> dynamicRegistries.noiseSettings[RegistryKey(NoiseSettingsKey, loc)] == s.value
    {
      var registryKey := GetOrCreateKey(NoiseSettingsKey, loc);
      GetValueForKey(dynamicRegistries.noiseSettings, registryKey)
    }
  }

  /**
   * The two readings of the dimension-type table agree: the type that
   * `GetDimensionType` finds under `loc` is the type that `GetServerWorlds`
   * names `loc` when it compares world types.
   */
  lemma TypeLookupAgreesWithNames(manager: DynamicDimensionManager, loc: ResourceLocation, dimensionType: DimensionType)
    requires manager.dynamicRegistries != null && manager.dynamicRegistries.Valid()
    ensures manager.GetDimensionType(loc) == Some(dimensionType)
        <==> GetKey(manager.dynamicRegistries.dimensionTypeNames, dimensionType) == Some(loc)
  {
  }
}
