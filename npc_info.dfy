/**
 * A supply NPC of the delivery system: its identity, the supply rows it
 * uses at each rank, this week's requests and progress, and the data the
 * delivery workflows need to reach it.
 */
module NpcInfo {
  import opened Ints
  import opened Wrappers
  import opened GameData
  import opened CraftTurnin
  import opened GatherData

  /** Where and how the fish of a fishing delivery is caught. */
  datatype FishSpot = FishSpot(fishItemId: UInt32, isSpearFish: bool, fishSpotId: UInt32, territoryTypeId: UInt32, center: Vec3)

  /** A `uint` cast of an `int` keeps its bit pattern: casting back gives the `int` again. */
  lemma UIntCastRoundTrip(x: Int32)
    ensures WrapInt32(WrapUInt32(x)) == x
  {
    if x < 0 {
      assert WrapUInt32(x) == x + TWO_32;
    }
  }

  class Npc {
    const index: Int32
    const turninId: UInt32
    const name: string
    const maxDeliveries: Int32
    /** The supply row of each rank; a copy, so later changes to the caller's array do not reach it. */
    const supplyIndices: seq<Int32>
    var rank: Int32
    var usedDeliveries: Int32
    var requests: seq<UInt32>
    var isBonusOverride: seq<bool>
    var isBonusEffective: seq<bool>
    var effectiveRequests: seq<UInt32>
    var rewards: seq<UInt32>
    var turnInItems: seq<UInt32>
    var achievementId: UInt32
    /** The achievement progress at the start of the week. */
    var achievementStart: UInt32
    var achievementMax: UInt32
    var aetheryteId: UInt32
    var territoryId: UInt32
    var craftData: CraftData?
    var fishData: Option<FishSpot>
    var gatherData: Option<GatherItem>

    /** A new NPC: the per-slot arrays hold three false or zero entries, and there are no requests yet. */
    constructor (index: Int32, turninId: UInt32, name: string, maxDeliveries: Int32, supplyIndices: array<Int32>)
      ensures this.index == index && this.turninId == turninId && this.name == name
      ensures this.maxDeliveries == maxDeliveries && this.supplyIndices == supplyIndices[..]
      ensures rank == 0 && usedDeliveries == 0 && requests == []
      ensures isBonusOverride == [false, false, false] && isBonusEffective == [false, false, false]
      ensures effectiveRequests == [0, 0, 0] && rewards == [0, 0, 0] && turnInItems == [0, 0, 0]
      ensures achievementId == 0 && achievementStart == 0 && achievementMax == 0
      ensures aetheryteId == 0 && territoryId == 0
      ensures craftData == null && fishData.None? && gatherData.None?
    {
      this.index := index;
      this.turninId := turninId;
      this.name := name;
      this.maxDeliveries := maxDeliveries;
      this.supplyIndices := supplyIndices[..];
      rank := 0;
      usedDeliveries := 0;
      requests := [];
      isBonusOverride := [false, false, false];
      isBonusEffective := [false, false, false];
      effectiveRequests := [0, 0, 0];
      rewards := [0, 0, 0];
      turnInItems := [0, 0, 0];
      achievementId := 0;
      achievementStart := 0;
      achievementMax := 0;
      aetheryteId := 0;
      territoryId := 0;
      craftData := null;
      fishData := None;
      gatherData := None;
    }

    /** The supply row of the current rank, as a `uint`; a rank outside the array throws. */
    function SupplyIndex(): (r: Result<UInt32>)
      reads this
      ensures r.Ok? <==> 0 <= rank < |supplyIndices|
      ensures r.Err? ==> r.fault == IndexOutOfRange
      ensures r.Ok? ==> WrapInt32(r.value) == supplyIndices[rank]
      ensures r.Ok? && supplyIndices[rank] >= 0 ==> r.value == supplyIndices[rank]
    {
      if 0 <= rank < |supplyIndices| then
        UIntCastRoundTrip(supplyIndices[rank]);
        Ok(WrapUInt32(supplyIndices[rank]))
      else Err(IndexOutOfRange)
    }

    /** The achievement progress now: the week's start plus this week's deliveries (as `uint`), capped at the maximum. */
    function AchievementCur(): (r: UInt32)
      reads this
      ensures r <= achievementMax
      ensures r == achievementMax || r == WrapUInt32(achievementStart + WrapUInt32(usedDeliveries))
      ensures usedDeliveries >= 0 && achievementStart + usedDeliveries <= achievementMax ==>
        r == achievementStart + usedDeliveries
    {
      var sum := WrapUInt32(achievementStart + WrapUInt32(usedDeliveries));
      if sum <= achievementMax then sum else achievementMax
    }

    /**
     * Set the data that is not in the game's sheets: the achievement and
     * aetheryte ids, the zone (the given one, or the aetheryte's zone when
     * it is 0), and the craft data of the rank-one supply row. On a fault
     * the fields assigned before it keep their new values.
     */
    method InitHardcodedData(sheets: Sheets, player: Option<Player>, achievementId: UInt32, aetheryteId: UInt32, territoryId: UInt32)
      returns (fault: Option<Fault>)
      modifies this
      ensures this.achievementId == achievementId && this.aetheryteId == aetheryteId
      ensures territoryId != 0 ==> this.territoryId == territoryId
      ensures territoryId == 0 && aetheryteId in sheets.aetheryteTerritory ==>
        this.territoryId == sheets.aetheryteTerritory[aetheryteId]
      ensures territoryId == 0 && aetheryteId !in sheets.aetheryteTerritory ==>
        fault == Some(MissingRow) && this.territoryId == old(this.territoryId)
      ensures |supplyIndices| < 2 && fault.Some? ==> fault.value == MissingRow || fault.value == IndexOutOfRange
      ensures territoryId != 0 || aetheryteId in sheets.aetheryteTerritory ==>
        fault == (if |supplyIndices| < 2 then Some(IndexOutOfRange)
                  else CraftDataFault(sheets, player, WrapUInt32(supplyIndices[1]), this.territoryId))
      ensures fault.Some? ==> craftData == old(craftData)
      ensures fault.None? ==>
        |supplyIndices| >= 2 &&
        CraftDataFault(sheets, player, WrapUInt32(supplyIndices[1]), this.territoryId).None? &&
        craftData != null && fresh(craftData)
      ensures fault.None? ==>
        var supplyId := WrapUInt32(supplyIndices[1]);
        var item := sheets.satisfactionSupply[supplyId][0].item;
        var ingredient := GetCraftIngredient(sheets, player, item).value.id;
        var path := LayerPath(sheets.territoryBg[this.territoryId]);
        var objs := if path in sheets.layerFiles then Flatten(sheets.layerFiles[path]) else [];
        Found(craftData.turnInInstanceId, craftData.turnInLocation, craftData.vendorInstanceId,
              craftData.vendorLocation, craftData.vendorShopId) == FoundIn(sheets, objs, turninId, ingredient)
      ensures rank == old(rank) && usedDeliveries == old(usedDeliveries) && turnInItems == old(turnInItems)
      ensures achievementStart == old(achievementStart) && achievementMax == old(achievementMax)
      ensures requests == old(requests) && fishData == old(fishData) && gatherData == old(gatherData)
      ensures isBonusOverride == old(isBonusOverride) && isBonusEffective == old(isBonusEffective)
      ensures effectiveRequests == old(effectiveRequests) && rewards == old(rewards)
    {
      this.achievementId := achievementId;
      this.aetheryteId := aetheryteId;
      if territoryId != 0 {
        this.territoryId := territoryId;
      } else if aetheryteId in sheets.aetheryteTerritory {
        this.territoryId := sheets.aetheryteTerritory[aetheryteId];
      } else {
        return Some(MissingRow);
      }
      if |supplyIndices| < 2 {
        return Some(IndexOutOfRange);
      }
      var supplyId := WrapUInt32(supplyIndices[1]);
      fault := CraftDataFault(sheets, player, supplyId, this.territoryId);
      if fault.Some? {
        return;
      }
      craftData := new CraftData(sheets, player, supplyId, turninId, this.territoryId);
    }
  }

  /**
   * The NPC keeps its own copy of the supply rows: writing to the caller's
   * array after construction leaves the NPC's rows as they were.
   */
  method SupplyIndicesAreCopied(a: array<Int32>) returns (npc: Npc)
    requires a.Length > 0
    modifies a
    ensures npc.supplyIndices == old(a[..])
    ensures a[0] != npc.supplyIndices[0]
  {
    npc := new Npc(0, 0, "", 0, a);
    a[0] := if a[0] == 0 then 1 else 0;
  }
}
