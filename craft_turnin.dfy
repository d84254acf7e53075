/**
 * Where a crafting delivery is bought, crafted and handed in: the recipe a
 * job crafts an item with, the ingredient that recipe uses, the shop that
 * sells it, and the turn-in NPC and vendor found in the zone's event layer.
 */
module CraftTurnin {
  import opened Ints
  import opened Wrappers
  import opened GameData

  /** The event-handler type of a gil shop (the upper 16 bits of its handler id). */
  const SHOP_HANDLER_TYPE: int := 4
  /** The crafting jobs CRP, BSM, ARM, GSM, LTW, WVR, ALC and CUL have the class/job ids 8 to 15. */
  const FIRST_CRAFTER: int := 8
  const LAST_CRAFTER: int := 15

  /** The position of the last `c` in `s`, or -1 (`string.LastIndexOf(char)`). */
  function LastIndexOf(s: string, c: char): (r: int)
    ensures -1 <= r < |s|
    ensures r >= 0 ==> s[r] == c
    ensures forall k :: r < k < |s| ==> s[k] != c
  {
    if |s| == 0 then -1
    else if s[|s| - 1] == c then |s| - 1
    else LastIndexOf(s[..|s| - 1], c)
  }

  /**
   * The event layer group of a zone: the directory of its scene path,
   * between "bg/" and "planevent.lgb". The directory is the longest prefix
   * of the scene that is empty or ends in '/'.
   */
  function LayerPath(scene: string): (r: string)
    ensures |r| >= 16 && r[..3] == "bg/" && r[|r| - 13..] == "planevent.lgb"
    ensures r[3..|r| - 13] <= scene
    ensures |r| > 16 ==> r[|r| - 14] == '/'
    ensures forall k :: |r| - 16 <= k < |scene| ==> scene[k] != '/'
    ensures (forall k :: 0 <= k < |scene| ==> scene[k] != '/') ==> r == "bg/planevent.lgb"
  {
    var start := LastIndexOf(scene, '/') + 1;
    Framed("bg/", scene[..start], "planevent.lgb");
    "bg/" + scene[..start] + "planevent.lgb"
  }

  /** The three parts of a concatenation can be cut back out of it. */
  lemma Framed(head: string, middle: string, tail: string)
    ensures var r := head + middle + tail;
      r[..|head|] == head && r[|head|..|r| - |tail|] == middle && r[|r| - |tail|..] == tail
  {
  }

  /** `(1ul << 32) | instanceId`: the game object id of a layer instance. */
  function EncodeInstanceId(instanceId: bv32): (r: bv64)
    ensures r >> 32 == 1 && r & 0xFFFF_FFFF == instanceId as bv64
  {
    var id := instanceId as bv64;
    assert id >> 32 == 0;
    0x1_0000_0000 | id
  }

  /** The shop `handler` is a gil shop whose item list holds `itemId`. */
  predicate Sells(sheets: Sheets, handler: UInt32, itemId: UInt32)
  {
    handler / 0x1_0000 == SHOP_HANDLER_TYPE && handler in sheets.gilShopItem && itemId in sheets.gilShopItem[handler]
  }

  /** The first position of `itemId` in a shop's items, or -1. */
  function IndexOfItem(items: seq<UInt32>, itemId: UInt32): (r: int)
    ensures -1 <= r < |items|
    ensures r >= 0 ==> items[r] == itemId && forall k :: 0 <= k < r ==> items[k] != itemId
    ensures r == -1 <==> itemId !in items
  {
    if |items| == 0 then -1
    else if items[0] == itemId then 0
    else
      var i := IndexOfItem(items[1..], itemId);
      assert forall k :: 1 <= k < |items| ==> items[k] == items[1..][k - 1];
      if i < 0 then -1 else i + 1
  }

  /** The position of the first handler that sells `itemId`, or -1. */
  function FirstSeller(sheets: Sheets, handlers: seq<UInt32>, itemId: UInt32): (j: int)
    ensures -1 <= j < |handlers|
    ensures j >= 0 ==> Sells(sheets, handlers[j], itemId)
    ensures forall k :: 0 <= k < |handlers| && (j < 0 || k < j) ==> !Sells(sheets, handlers[k], itemId)
  {
    if |handlers| == 0 then -1
    else if Sells(sheets, handlers[0], itemId) then 0
    else
      var j := FirstSeller(sheets, handlers[1..], itemId);
      assert forall k :: 1 <= k < |handlers| ==> handlers[k] == handlers[1..][k - 1];
      if j < 0 then -1 else j + 1
  }

  /**
   * The shop of NPC `enpcId` that sells `itemId`, and the item's position in
   * it: the first shop handler of the NPC, in order, whose items hold it, and
   * the first position there; (0, -1) when the NPC is missing or none sells it.
   */
  function FindVendorItem(sheets: Sheets, enpcId: UInt32, itemId: UInt32): (r: (UInt32, int))
    ensures r.1 >= 0 <==> enpcId in sheets.eNpcBase && FirstSeller(sheets, sheets.eNpcBase[enpcId], itemId) >= 0
    ensures r.1 < 0 ==> r == (0, -1)
    ensures r.1 >= 0 ==>
      var handlers := sheets.eNpcBase[enpcId];
      var j := FirstSeller(sheets, handlers, itemId);
      r.0 == handlers[j] && Sells(sheets, r.0, itemId) &&
      r.1 < |sheets.gilShopItem[r.0]| && sheets.gilShopItem[r.0][r.1] == itemId &&
      forall k :: 0 <= k < r.1 ==> sheets.gilShopItem[r.0][k] != itemId
  {
    if enpcId !in sheets.eNpcBase then (0, -1)
    else
      var handlers := sheets.eNpcBase[enpcId];
      var j := FirstSeller(sheets, handlers, itemId);
      if j < 0 then (0, -1)
      else (handlers[j], IndexOfItem(sheets.gilShopItem[handlers[j]], itemId))
  }

  /** The recipe columns of a RecipeLookup row, in the order of the crafting jobs 8 to 15. */
  function CraftingColumns(row: RecipeLookupRow): seq<UInt32>
  {
    [row.crp, row.bsm, row.arm, row.gsm, row.ltw, row.wvr, row.alc, row.cul]
  }

  /** The recipe a job crafts the item with: its own column for a crafting job, CRP for any other job. */
  function RecipeFor(row: RecipeLookupRow, job: UInt32): (r: UInt32)
    ensures FIRST_CRAFTER <= job <= LAST_CRAFTER ==> r == CraftingColumns(row)[job - FIRST_CRAFTER]
    ensures !(FIRST_CRAFTER <= job <= LAST_CRAFTER) ==> r == row.crp
  {
    match job
    case 8 => row.crp
    case 9 => row.bsm
    case 10 => row.arm
    case 11 => row.gsm
    case 12 => row.ltw
    case 13 => row.wvr
    case 14 => row.alc
    case 15 => row.cul
    case _ => row.crp
  }

  /**
   * The recipe id for crafting `itemId` as the local player's current job,
   * 0 when the item has no RecipeLookup row. The player is dereferenced
   * before it is checked, so without a player the lookup throws.
   */
  function GetRecipeId(sheets: Sheets, player: Option<Player>, itemId: UInt32): (r: Result<UInt32>)
    ensures r.Err? <==> player.None?
    ensures r.Err? ==> r.fault == NoLocalPlayer
    ensures r.Ok? && itemId !in sheets.recipeLookup ==> r.value == 0
    ensures r.Ok? && itemId in sheets.recipeLookup ==>
      r.value in CraftingColumns(sheets.recipeLookup[itemId]) &&
      r.value == RecipeFor(sheets.recipeLookup[itemId], player.value.classJob)
  {
    if player.None? then Err(NoLocalPlayer)
    else if itemId !in sheets.recipeLookup then Ok(0)
    else Ok(RecipeFor(sheets.recipeLookup[itemId], player.value.classJob))
  }

  /** An ingredient and how many of it one craft uses. */
  datatype Ingredient = Ingredient(id: UInt32, count: int)

  /** The first ingredient of a recipe and its amount. */
  function FirstIngredient(recipe: Recipe): Ingredient
  {
    Ingredient(recipe.ingredient0, recipe.amountIngredient0)
  }

  /**
   * The first ingredient, and its amount, of the recipe for `itemId`: the CUL
   * recipe without a local player, the current job's recipe (CRP for a
   * non-crafter) with one; (0, 0) when the item has no RecipeLookup row.
   * The CUL recipe row is dereferenced first in every case, and a missing
   * recipe row throws.
   */
  function GetCraftIngredient(sheets: Sheets, player: Option<Player>, itemId: UInt32): (r: Result<Ingredient>)
    ensures itemId !in sheets.recipeLookup ==> r == Ok(Ingredient(0, 0))
    ensures r.Err? ==> r.fault == MissingRow
    ensures itemId in sheets.recipeLookup && sheets.recipeLookup[itemId].cul !in sheets.recipe ==> r.Err?
    ensures r.Ok? && itemId in sheets.recipeLookup ==>
      var row := sheets.recipeLookup[itemId];
      var id := if player.None? then row.cul else RecipeFor(row, player.value.classJob);
      id in sheets.recipe && r.value == FirstIngredient(sheets.recipe[id])
  {
    if itemId !in sheets.recipeLookup then Ok(Ingredient(0, 0))
    else
      var row := sheets.recipeLookup[itemId];
      if row.cul !in sheets.recipe then Err(MissingRow)
      else if player.None? then Ok(FirstIngredient(sheets.recipe[row.cul]))
      else
        var id := RecipeFor(row, player.value.classJob);
        if id !in sheets.recipe then Err(MissingRow) else Ok(FirstIngredient(sheets.recipe[id]))
  }

  /**
   * With a player logged in and the item listed, the ingredient that is
   * bought is the first ingredient of the very recipe that is crafted.
   */
  lemma IngredientOfCraftedRecipe(sheets: Sheets, player: Option<Player>, itemId: UInt32)
    requires player.Some? && itemId in sheets.recipeLookup
    requires GetCraftIngredient(sheets, player, itemId).Ok?
    ensures GetRecipeId(sheets, player, itemId).Ok?
    ensures var id := GetRecipeId(sheets, player, itemId).value;
      id in sheets.recipe && GetCraftIngredient(sheets, player, itemId).value == FirstIngredient(sheets.recipe[id])
  {
  }

  /** Layers flattened into one list of instances, in scan order. */
  function Flatten(layers: LayerGroup): (r: seq<InstanceObject>)
  {
    if |layers| == 0 then [] else Flatten(layers[..|layers| - 1]) + layers[|layers| - 1]
  }

  /** An event-NPC instance of the turn-in NPC. */
  predicate IsTurnIn(o: InstanceObject, turnInENpcId: UInt32)
  {
    o.assetType == EventNPC && o.baseId == turnInENpcId
  }

  /** An event-NPC instance of an NPC with a shop that sells the ingredient. */
  predicate IsVendor(sheets: Sheets, o: InstanceObject, ingredientId: UInt32)
  {
    o.assetType == EventNPC && FindVendorItem(sheets, o.baseId, ingredientId).1 >= 0
  }

  /** The position of the last turn-in instance, or -1. */
  function LastTurnIn(objs: seq<InstanceObject>, turnInENpcId: UInt32): (j: int)
    ensures -1 <= j < |objs|
    ensures j >= 0 ==> IsTurnIn(objs[j], turnInENpcId)
    ensures forall k :: j < k < |objs| ==> !IsTurnIn(objs[k], turnInENpcId)
  {
    if |objs| == 0 then -1
    else if IsTurnIn(objs[|objs| - 1], turnInENpcId) then |objs| - 1
    else LastTurnIn(objs[..|objs| - 1], turnInENpcId)
  }

  /** The position of the last vendor instance, or -1. */
  function LastVendor(sheets: Sheets, objs: seq<InstanceObject>, ingredientId: UInt32): (j: int)
    ensures -1 <= j < |objs|
    ensures j >= 0 ==> IsVendor(sheets, objs[j], ingredientId)
    ensures forall k :: j < k < |objs| ==> !IsVendor(sheets, objs[k], ingredientId)
  {
    if |objs| == 0 then -1
    else if IsVendor(sheets, objs[|objs| - 1], ingredientId) then |objs| - 1
    else LastVendor(sheets, objs[..|objs| - 1], ingredientId)
  }

  const ORIGIN := Vec3(0.0, 0.0, 0.0)

  /** What the scan has found after the instances `objs`: the fields it has set, default where nothing matched. */
  datatype Found = Found(turnInInstanceId: bv64, turnInLocation: Vec3, vendorInstanceId: bv64, vendorLocation: Vec3, vendorShopId: UInt32)

  /** The fields the scan of `objs` leaves: those of the last turn-in and of the last vendor instance. */
  function FoundIn(sheets: Sheets, objs: seq<InstanceObject>, turnInENpcId: UInt32, ingredientId: UInt32): Found
  {
    var t := LastTurnIn(objs, turnInENpcId);
    var v := LastVendor(sheets, objs, ingredientId);
    Found(
      if t < 0 then 0 else EncodeInstanceId(objs[t].instanceId),
      if t < 0 then ORIGIN else objs[t].translation,
      if v < 0 then 0 else EncodeInstanceId(objs[v].instanceId),
      if v < 0 then ORIGIN else objs[v].translation,
      if v < 0 then 0 else FindVendorItem(sheets, objs[v].baseId, ingredientId).0)
  }

  /** What seeing one more instance does to the fields: a turn-in instance or a vendor instance overwrites its own kind. */
  function Absorb(sheets: Sheets, f: Found, inst: InstanceObject, turnInENpcId: UInt32, ingredientId: UInt32): Found
  {
    var f' := if IsTurnIn(inst, turnInENpcId) then
      f.(turnInInstanceId := EncodeInstanceId(inst.instanceId), turnInLocation := inst.translation)
    else f;
    if IsVendor(sheets, inst, ingredientId) then
      f'.(vendorInstanceId := EncodeInstanceId(inst.instanceId), vendorLocation := inst.translation,
          vendorShopId := FindVendorItem(sheets, inst.baseId, ingredientId).0)
    else f'
  }

  lemma FoundSnoc(sheets: Sheets, seen: seq<InstanceObject>, inst: InstanceObject, turnInENpcId: UInt32, ingredientId: UInt32)
    ensures FoundIn(sheets, seen + [inst], turnInENpcId, ingredientId) ==
      Absorb(sheets, FoundIn(sheets, seen, turnInENpcId, ingredientId), inst, turnInENpcId, ingredientId)
  {
    assert (seen + [inst])[..|seen|] == seen;
  }

  /** Scan the instances of one layer in order, after the instances `seen`. */
  method ScanLayer(sheets: Sheets, ghost seen: seq<InstanceObject>, layer: seq<InstanceObject>, turnInENpcId: UInt32, ingredientId: UInt32, f0: Found)
    returns (f: Found)
    requires f0 == FoundIn(sheets, seen, turnInENpcId, ingredientId)
    ensures f == FoundIn(sheets, seen + layer, turnInENpcId, ingredientId)
  {
    f := f0;
    var oi := 0;
    assert seen + layer[..0] == seen;
    while oi < |layer|
      invariant 0 <= oi <= |layer|
      invariant f == FoundIn(sheets, seen + layer[..oi], turnInENpcId, ingredientId)
    {
      var inst := layer[oi];
      FoundSnoc(sheets, seen + layer[..oi], inst, turnInENpcId, ingredientId);
      assert seen + layer[..oi + 1] == seen + layer[..oi] + [inst];
      if inst.assetType == EventNPC {
        if inst.baseId == turnInENpcId {
          f := f.(turnInInstanceId := EncodeInstanceId(inst.instanceId), turnInLocation := inst.translation);
        }
        var vendor := FindVendorItem(sheets, inst.baseId, ingredientId);
        if vendor.1 >= 0 {
          f := f.(vendorInstanceId := EncodeInstanceId(inst.instanceId), vendorLocation := inst.translation,
                  vendorShopId := vendor.0);
        }
      }
      oi := oi + 1;
    }
    assert layer[..|layer|] == layer;
  }

  /**
   * Scan every instance of every layer in order: a turn-in instance sets the
   * turn-in fields and a vendor instance the vendor fields, each overwriting
   * what an earlier match set, so the last match of each kind wins.
   */
  method ScanLayers(sheets: Sheets, layers: LayerGroup, turnInENpcId: UInt32, ingredientId: UInt32) returns (f: Found)
    ensures f == FoundIn(sheets, Flatten(layers), turnInENpcId, ingredientId)
  {
    f := Found(0, ORIGIN, 0, ORIGIN, 0);
    var li := 0;
    while li < |layers|
      invariant 0 <= li <= |layers|
      invariant f == FoundIn(sheets, Flatten(layers[..li]), turnInENpcId, ingredientId)
    {
      f := ScanLayer(sheets, Flatten(layers[..li]), layers[li], turnInENpcId, ingredientId, f);
      assert layers[..li + 1][..li] == layers[..li];
      li := li + 1;
    }
    assert layers[..|layers|] == layers;
  }

  /**
   * Why building the craft data throws, if it does: a missing subrow 0 of
   * the supply row, a failing ingredient lookup, or a missing zone row.
   */
  function CraftDataFault(sheets: Sheets, player: Option<Player>, supplyId: UInt32, territoryId: UInt32): (r: Option<Fault>)
    ensures r.None? ==>
      supplyId in sheets.satisfactionSupply && |sheets.satisfactionSupply[supplyId]| > 0 &&
      GetCraftIngredient(sheets, player, sheets.satisfactionSupply[supplyId][0].item).Ok? &&
      territoryId in sheets.territoryBg
  {
    if supplyId !in sheets.satisfactionSupply || |sheets.satisfactionSupply[supplyId]| == 0 then Some(MissingRow)
    else
      var ingredient := GetCraftIngredient(sheets, player, sheets.satisfactionSupply[supplyId][0].item);
      if ingredient.Err? then Some(ingredient.fault)
      else if territoryId !in sheets.territoryBg then Some(MissingRow)
      else None
  }

  /** The vendor and turn-in NPC of a crafting delivery. */
  class CraftData {
    var vendorInstanceId: bv64
    var vendorLocation: Vec3
    var vendorShopId: UInt32
    var turnInInstanceId: bv64
    var turnInLocation: Vec3

    /**
     * Find, in the event layer of zone `territoryId`, the turn-in NPC
     * `turnInENpcId` and a vendor selling the first ingredient of the item
     * requested in subrow 0 of supply row `supplyId`. Without the layer file
     * nothing is found and every field keeps its default.
     */
    constructor (sheets: Sheets, player: Option<Player>, supplyId: UInt32, turnInENpcId: UInt32, territoryId: UInt32)
      requires CraftDataFault(sheets, player, supplyId, territoryId).None?
      ensures
        var item := sheets.satisfactionSupply[supplyId][0].item;
        var ingredient := GetCraftIngredient(sheets, player, item).value.id;
        var path := LayerPath(sheets.territoryBg[territoryId]);
        var objs := if path in sheets.layerFiles then Flatten(sheets.layerFiles[path]) else [];
        Found(turnInInstanceId, turnInLocation, vendorInstanceId, vendorLocation, vendorShopId) ==
          FoundIn(sheets, objs, turnInENpcId, ingredient)
    {
      var item := sheets.satisfactionSupply[supplyId][0].item;
      var ingredient := GetCraftIngredient(sheets, player, item).value.id;
      var path := LayerPath(sheets.territoryBg[territoryId]);
      var f := Found(0, ORIGIN, 0, ORIGIN, 0);
      if path in sheets.layerFiles {
        f := ScanLayers(sheets, sheets.layerFiles[path], turnInENpcId, ingredient);
      }
      vendorInstanceId := f.vendorInstanceId;
      vendorLocation := f.vendorLocation;
      vendorShopId := f.vendorShopId;
      turnInInstanceId := f.turnInInstanceId;
      turnInLocation := f.turnInLocation;
    }
  }
}
