/**
 * The host-side objects the dimension manager works with. Their contents
 * (world types, chunk generators, noise settings) are opaque here: each is a
 * value told apart by a handle. The session objects the host hands to the
 * manager, and the running server, are classes, because the manager holds
 * references to them and changes the session configuration in place.
 */
module Host {
  import opened Wrappers
  import opened Registries

  /** A world-type descriptor (height, light, ...), opaque here. */
  datatype DimensionType = DimensionType(handle: nat)

  /** A chunk generator, opaque here. */
  datatype ChunkGenerator = ChunkGenerator(handle: nat)

  /** A noise (generation) settings descriptor, opaque here. */
  datatype DimensionSettings = DimensionSettings(handle: nat)

  /** A world definition: its world type and the generator that builds its terrain. */
  datatype Dimension = Dimension(dimensionType: DimensionType, chunkGenerator: ChunkGenerator)

  /** A live world of the server: the world key it is stored under and its world type. */
  datatype ServerWorld = ServerWorld(dimensionKey: RegistryKey, dimensionType: DimensionType)

  /** One request made to the server to bring a world online. */
  datatype LoadRequest = LoadRequest(worldKey: RegistryKey, dimensionType: DimensionType, generator: ChunkGenerator)

  /**
   * The session's dynamic registries: the dimension-type table (with its
   * reverse direction, value to name) and the noise-settings table.
   */
  class DynamicRegistries {
    var dimensionTypes: map<RegistryKey, DimensionType>
    var dimensionTypeNames: map<DimensionType, ResourceLocation>
    var noiseSettings: map<RegistryKey, DimensionSettings>

    constructor (types: map<RegistryKey, DimensionType>, names: map<DimensionType, ResourceLocation>,
                 settings: map<RegistryKey, DimensionSettings>)
      ensures dimensionTypes == types && dimensionTypeNames == names && noiseSettings == settings
    {
      dimensionTypes, dimensionTypeNames, noiseSettings := types, names, settings;
    }

    /** The dimension-type table is a bidirectional map, as the host's registries are. */
    ghost predicate Valid()
      reads this
    {
      NamesInverse(DimensionTypeKey, dimensionTypes, dimensionTypeNames)
    }
  }

  /** The server's in-progress configuration; it owns the table of world definitions. */
  class ServerConfiguration {
    var dimensions: map<RegistryKey, Dimension>

    constructor (dimensions: map<RegistryKey, Dimension>)
      ensures this.dimensions == dimensions
    {
      this.dimensions := dimensions;
    }
  }

  /** No two worlds share a world key, as in the server's key-indexed map of worlds. */
  ghost predicate DistinctWorldKeys(worlds: seq<ServerWorld>)
  {
    forall a, b :: a in worlds && b in worlds && a.dimensionKey == b.dimensionKey ==> a == b
  }

  /** The first world in `worlds` stored under `key`, if any; with distinct keys, the only one. */
  function FindWorld(worlds: seq<ServerWorld>, key: RegistryKey): (w: Option<ServerWorld>)
    ensures w.Some? ==> w.value in worlds && w.value.dimensionKey == key
    ensures w.None? ==> forall x :: x in worlds ==> x.dimensionKey != key
    ensures w.Some? && DistinctWorldKeys(worlds) ==> forall x :: x in worlds && x.dimensionKey == key ==> x == w.value
  {
    if worlds == [] then None
    else if worlds[0].dimensionKey == key then Some(worlds[0])
    else FindWorld(worlds[1..], key)
  }

  /**
   * The running server, as far as the manager sees it: its worlds in
   * enumeration order, and the log of the requests it received to load a
   * world. How the server builds a world is not part of this model.
   */
  class MinecraftServer {
    var worlds: seq<ServerWorld>
    var loadRequests: seq<LoadRequest>

    constructor (worlds: seq<ServerWorld>)
      ensures this.worlds == worlds && loadRequests == []
    {
      this.worlds := worlds;
      loadRequests := [];
    }

    /** The world stored under `key`, or None. */
    function GetWorld(key: RegistryKey): Option<ServerWorld>
      reads this
    {
      FindWorld(worlds, key)
    }

    /** Asks the server to bring the world `key` online; only the request itself is recorded. */
    method LoadDimension(key: RegistryKey, dimensionType: DimensionType, generator: ChunkGenerator)
      modifies this
      ensures loadRequests == old(loadRequests) + [LoadRequest(key, dimensionType, generator)]
    {
      loadRequests := loadRequests + [LoadRequest(key, dimensionType, generator)];
    }
  }
}
