/**
 * Client code written against the manager's contracts alone: the session
 * lifecycle, a repeated registration, the register-then-load sequence a mod
 * uses at server start, and a type query over three live worlds.
 */
module Scenarios {
  import opened Wrappers
  import opened Registries
  import opened Host
  import opened WorldFilter
  import opened DynamicDimensions

  /** Not ready before a session is attached, ready while it is, not ready after it stops. */
  method ReadinessCycle(registries: DynamicRegistries, config: ServerConfiguration)
    returns (before: bool, during: bool, after: bool)
    ensures !before && during && !after
  {
    var manager := new DynamicDimensionManager();
    before := manager.IsReady();
    manager.InitDimensionManager(registries, config);
    during := manager.IsReady();
    manager.OnIntegratedServerStop();
    after := manager.IsReady();
  }

  /** Registering twice under one location keeps the first definition. */
  method RegisterTwice(loc: ResourceLocation, first: Dimension, second: Dimension) returns (found: Option<Dimension>)
    ensures found == Some(first)
  {
    var registries := new DynamicRegistries(map[], map[], map[]);
    var config := new ServerConfiguration(map[]);
    var manager := new DynamicDimensionManager();
    manager.InitDimensionManager(registries, config);
    manager.RegisterDimension(loc, first);
    manager.RegisterDimension(loc, second);
    found := manager.GetDimension(loc);
  }

  /**
   * Registering a definition and then loading it sends the server exactly
   * one request, for the world key of the same location, carrying the
   * definition's type and generator; the world is then looked up under that
   * same key.
   */
  method RegisterThenLoad(loc: ResourceLocation, dimension: Dimension) returns (requests: seq<LoadRequest>)
    ensures requests == [LoadRequest(RegistryKey(WorldKey, loc), dimension.dimensionType, dimension.chunkGenerator)]
  {
    var registries := new DynamicRegistries(map[], map[], map[]);
    var config := new ServerConfiguration(map[]);
    var server := new MinecraftServer([]);
    var manager := new DynamicDimensionManager();
    manager.InitDimensionManager(registries, config);
    manager.RegisterDimension(loc, dimension);
    manager.LoadOrCreateDimension(server, loc);
    requests := server.loadRequests;
  }

  /** Of three live worlds, the two of the overworld type come back, in server order. */
  method OverworldsOfThree(a: RegistryKey, b: RegistryKey, c: RegistryKey) returns (found: seq<ServerWorld>)
    ensures found == [ServerWorld(a, DimensionType(0)), ServerWorld(c, DimensionType(0))]
    ensures ServerWorld(b, DimensionType(1)) !in found
  {
    var overworld, nether := DimensionType(0), DimensionType(1);
    var overworldLoc, netherLoc := ResourceLocation("minecraft", "overworld"), ResourceLocation("minecraft", "the_nether");
    var registries := new DynamicRegistries(
      map[RegistryKey(DimensionTypeKey, overworldLoc) := overworld, RegistryKey(DimensionTypeKey, netherLoc) := nether],
      map[overworld := overworldLoc, nether := netherLoc],
      map[]);
    var config := new ServerConfiguration(map[]);
    var wa, wb, wc := ServerWorld(a, overworld), ServerWorld(b, nether), ServerWorld(c, overworld);
    var server := new MinecraftServer([wa, wb, wc]);
    var manager := new DynamicDimensionManager();
    manager.InitDimensionManager(registries, config);
    assert registries.Valid();
    found := manager.GetServerWorlds(server, overworld);
    // The by-value reading of the filter: the nether world is left out because its type differs.
    assert wb !in found;
    var names := registries.dimensionTypeNames;
    assert [wa, wb, wc][1..] == [wb, wc] && [wb, wc][1..] == [wc] && [wc][1..] == [];
    assert WorldsOfType([wb, wc], names, overworld) == WorldsOfType([wc], names, overworld) == [wc];
  }
}
