/** The closed sets of tile kinds the renderer draws, and the embedded image
    asset each kind selects. */
module Tiles {

  datatype Terrain = Plain | Swamp | Wall

  datatype Resource = Source | Hydrogen | Oxygen | Keanium | Lemergium | Utrium | Zynthium | Catalyst

  datatype BuildableStructure =
    | Constructedwall | Container | Controller | Extension | Extractor | Factory | Lab | Link | Nuker
    | Observer | Powerspawn | Rampart | Road | Spawn | Storage | Terminal | Tower

  /** The embedded image data a tile draw reads, one per kind. */
  datatype Asset =
    | TerrainPlainImg | TerrainSwampImg | TerrainWallImg
    | ResourceSourceImg | ResourceHydrogenImg | ResourceOxygenImg | ResourceKeaniumImg
    | ResourceLemergiumImg | ResourceUtriumImg | ResourceZynthiumImg | ResourceCatalystImg
    | StructureConstructedwallImg | StructureContainerImg | StructureControllerImg
    | StructureExtensionImg | StructureExtractorImg | StructureFactoryImg | StructureLabImg
    | StructureLinkImg | StructureNukerImg | StructureObserverImg | StructurePowerspawnImg
    | StructureRampartImg | StructureRoadImg | StructureSpawnImg | StructureStorageImg
    | StructureTerminalImg | StructureTowerImg
  {
    /** The category whose `match` selects this asset. */
    predicate IsTerrain()
    {
      TerrainPlainImg? || TerrainSwampImg? || TerrainWallImg?
    }

    predicate IsResource()
    {
      ResourceSourceImg? || ResourceHydrogenImg? || ResourceOxygenImg? || ResourceKeaniumImg?
      || ResourceLemergiumImg? || ResourceUtriumImg? || ResourceZynthiumImg? || ResourceCatalystImg?
    }

    predicate IsStructure()
    {
      !IsTerrain() && !IsResource()
    }
  }

  /** The asset a terrain tile is drawn from. */
  function TerrainAsset(t: Terrain): (a: Asset)
    ensures a.IsTerrain()
  {
    match t
    case Plain => TerrainPlainImg
    case Swamp => TerrainSwampImg
    case Wall => TerrainWallImg
  }

  /** The asset a resource tile is drawn from. */
  function ResourceAsset(r: Resource): (a: Asset)
    ensures a.IsResource()
  {
    match r
    case Source => ResourceSourceImg
    case Hydrogen => ResourceHydrogenImg
    case Oxygen => ResourceOxygenImg
    case Keanium => ResourceKeaniumImg
    case Lemergium => ResourceLemergiumImg
    case Utrium => ResourceUtriumImg
    case Zynthium => ResourceZynthiumImg
    case Catalyst => ResourceCatalystImg
  }

  /** The asset a structure tile is drawn from. */
  function StructureAsset(s: BuildableStructure): (a: Asset)
    ensures a.IsStructure()
  {
    match s
    case Constructedwall => StructureConstructedwallImg
    case Container => StructureContainerImg
    case Controller => StructureControllerImg
    case Extension => StructureExtensionImg
    case Extractor => StructureExtractorImg
    case Factory => StructureFactoryImg
    case Lab => StructureLabImg
    case Link => StructureLinkImg
    case Nuker => StructureNukerImg
    case Observer => StructureObserverImg
    case Powerspawn => StructurePowerspawnImg
    case Rampart => StructureRampartImg
    case Road => StructureRoadImg
    case Spawn => StructureSpawnImg
    case Storage => StructureStorageImg
    case Terminal => StructureTerminalImg
    case Tower => StructureTowerImg
  }

  /** Any kind of tile, across the three categories. */
  datatype TileKind = TerrainTile(terrain: Terrain) | ResourceTile(resource: Resource) | StructureTile(structure: BuildableStructure)

  /** The asset a tile of kind `k` is drawn from. */
  function AssetOf(k: TileKind): (a: Asset)
    ensures a.IsTerrain() <==> k.TerrainTile?
    ensures a.IsResource() <==> k.ResourceTile?
    ensures a.IsStructure() <==> k.StructureTile?
  {
    match k
    case TerrainTile(t) => TerrainAsset(t)
    case ResourceTile(r) => ResourceAsset(r)
    case StructureTile(s) => StructureAsset(s)
  }

  /** Reference inverse of `AssetOf`: the kind whose tile an asset depicts. */
  function KindOf(a: Asset): (k: TileKind)
  {
    match a
    case TerrainPlainImg => TerrainTile(Plain)
    case TerrainSwampImg => TerrainTile(Swamp)
    case TerrainWallImg => TerrainTile(Wall)
    case ResourceSourceImg => ResourceTile(Source)
    case ResourceHydrogenImg => ResourceTile(Hydrogen)
    case ResourceOxygenImg => ResourceTile(Oxygen)
    case ResourceKeaniumImg => ResourceTile(Keanium)
    case ResourceLemergiumImg => ResourceTile(Lemergium)
    case ResourceUtriumImg => ResourceTile(Utrium)
    case ResourceZynthiumImg => ResourceTile(Zynthium)
    case ResourceCatalystImg => ResourceTile(Catalyst)
    case StructureConstructedwallImg => StructureTile(Constructedwall)
    case StructureContainerImg => StructureTile(Container)
    case StructureControllerImg => StructureTile(Controller)
    case StructureExtensionImg => StructureTile(Extension)
    case StructureExtractorImg => StructureTile(Extractor)
    case StructureFactoryImg => StructureTile(Factory)
    case StructureLabImg => StructureTile(Lab)
    case StructureLinkImg => StructureTile(Link)
    case StructureNukerImg => StructureTile(Nuker)
    case StructureObserverImg => StructureTile(Observer)
    case StructurePowerspawnImg => StructureTile(Powerspawn)
    case StructureRampartImg => StructureTile(Rampart)
    case StructureRoadImg => StructureTile(Road)
    case StructureSpawnImg => StructureTile(Spawn)
    case StructureStorageImg => StructureTile(Storage)
    case StructureTerminalImg => StructureTile(Terminal)
    case StructureTowerImg => StructureTile(Tower)
  }

  /** Every kind is recovered from its asset. */
  lemma KindOfAssetOf(k: TileKind)
    ensures KindOf(AssetOf(k)) == k
  {
  }

  /** Every asset is the asset of the kind it depicts: the mapping is onto. */
  lemma AssetOfKindOf(a: Asset)
    ensures AssetOf(KindOf(a)) == a
  {
  }

  /** Distinct kinds, in the same category or not, select distinct assets. */
  lemma AssetOfInjective(k1: TileKind, k2: TileKind)
    ensures AssetOf(k1) == AssetOf(k2) <==> k1 == k2
  {
    KindOfAssetOf(k1);
    KindOfAssetOf(k2);
  }
}
