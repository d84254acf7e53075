/**
 * The game-data sheets the core reads, passed in as values. A sheet row that
 * may be absent is a map entry; each row keeps only the columns the core uses.
 */
module GameData {
  import opened Ints
  import opened Wrappers

  /** A subrow of the SatisfactionSupply sheet: the requested item, the request slot it belongs to, and its weight. */
  datatype SupplyRow = SupplyRow(item: UInt32, slot: Byte, probabilityPct: Byte)

  /** A RecipeLookup row: for each crafting job, the id of the recipe that makes the item. */
  datatype RecipeLookupRow = RecipeLookupRow(
    crp: UInt32, bsm: UInt32, arm: UInt32, gsm: UInt32,
    ltw: UInt32, wvr: UInt32, alc: UInt32, cul: UInt32)

  /** A Recipe row, reduced to its first ingredient and the amount of it one craft uses. */
  datatype Recipe = Recipe(ingredient0: UInt32, amountIngredient0: Byte)

  /** A ClassJob row: its id and its index into the player's level array (`sbyte`, -1 for none). */
  datatype ClassJobRow = ClassJobRow(rowId: UInt32, expArrayIndex: int)

  /** A world position (`Vector3`); the core only copies positions around. */
  datatype Vec3 = Vec3(x: real, y: real, z: real)

  /** The asset type of a layer instance; only event NPCs matter to the core. */
  datatype LayerEntryType = EventNPC | OtherEntry(code: int)

  /** One instance object of a layer of an `.lgb` layer-group file. `baseId` is the ENpcBase id when it is an event NPC. */
  datatype InstanceObject = InstanceObject(assetType: LayerEntryType, instanceId: bv32, baseId: UInt32, translation: Vec3)

  /** A layer-group file: its layers, each a list of instance objects. */
  type LayerGroup = seq<seq<InstanceObject>>

  /** The sheets and files of the game data that the core consults. */
  datatype Sheets = Sheets(
    satisfactionSupply: map<nat, seq<SupplyRow>>,   // subrows of each supply row
    recipeLookup: map<nat, RecipeLookupRow>,        // by crafted item id
    recipe: map<nat, Recipe>,                       // by recipe id
    eNpcBase: map<nat, seq<UInt32>>,                // ENpcData event-handler row ids of each NPC
    gilShopItem: map<nat, seq<UInt32>>,             // item id of each subrow of each shop
    territoryBg: map<nat, string>,                  // TerritoryType.Bg scene path
    aetheryteTerritory: map<nat, UInt32>,           // Aetheryte.Territory
    layerFiles: map<string, LayerGroup>,            // `.lgb` files by path
    itemName: map<nat, string>)                     // Item.Name

  /** The logged-in character, reduced to its current class/job id. */
  datatype Player = Player(classJob: UInt32)
}
