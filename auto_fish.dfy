/**
 * The fishing delivery for an NPC. The catching itself is not automated:
 * while fish are still missing the task only travels to the fishing spot;
 * once enough fish are in the inventory it travels to the turn-in NPC and
 * hands them in from slot 2.
 */
module AutoFish {
  import opened Ints
  import opened GameData
  import opened World
  import opened Tasks
  import opened AutoCommon
  import opened Delivery
  import opened CraftTurnin
  import opened NpcInfo

  const FISH_DATA_MISSING := "Fish or turn-in data is not initialized"

  /**
   * `remaining - inStock` in 32-bit arithmetic: the fish still to catch.
   * With a positive number of deliveries and a stock that is not negative
   * nothing wraps, and fish are missing exactly when the stock is short.
   */
  function FishNeeded(remaining: Int32, inStock: Int32): (r: Int32)
    ensures remaining > 0 && inStock >= 0 ==> r == remaining - inStock
    ensures remaining > 0 && inStock >= 0 ==> (r > 0 <==> inStock < remaining)
  {
    WrapInt32(remaining - inStock)
  }

  /** The status line while at the spot: spearfishing or fishing, by the kind of spot. */
  function SpotStatus(fish: FishSpot): (s: Status)
    ensures s.Spearfishing? <==> fish.isSpearFish
    ensures s.Spearfishing? || s.Fishing?
    ensures s.spotId == fish.fishSpotId
  {
    if fish.isSpearFish then Spearfishing(fish.fishSpotId) else Fishing(fish.fishSpotId)
  }

  /** The requests of a whole trip to the fishing spot: a teleport if needed, a walk if needed. */
  function FishingRequests(teleported: bool, walked: bool, fish: FishSpot): seq<Action>
  {
    TeleportRequests(teleported, ClosestTo(fish.center)) + WalkRequests(walked, fish.center)
  }

  /** The spot is reached within this distance of its center. */
  const SPOT_TOLERANCE: real := 10.0

  /**
   * Travel to the fishing spot: teleport to the aetheryte closest to its
   * center, show which kind of spot it is, walk to within 10 of the center.
   */
  method GoFishing(t: AutoTask, fish: FishSpot)
    returns (o: Outcome, ghost made: seq<Action>, ghost shown: seq<Status>, ghost teleported: bool, ghost walked: bool)
    requires t.Valid()
    modifies t`status, t`scopes, t`log, t`cancelled, t`framesLeft, t`requests, t`reports
    ensures Kept(t, old(t.log), old(t.scopes), old(t.cancelled), o)
    ensures o.Done? || o.Aborted? || o.Cancelled? || o.Suspended?
    ensures t.requests == old(t.requests) + made
    ensures t.reports == old(t.reports) + shown
    ensures teleported == (MeasureOf(t.env, old(t.log) + [Report(TeleportingToFishZone)], CurrentTerritory) != fish.territoryTypeId)
    ensures made <= FishingRequests(teleported, walked, fish)
    ensures shown <= [TeleportingToFishZone, SpotStatus(fish)]
    ensures o.Done? ==> made == FishingRequests(teleported, walked, fish) && shown == [TeleportingToFishZone, SpotStatus(fish)]
  {
    t.SetStatus(TeleportingToFishZone);
    shown := [TeleportingToFishZone];
    o, made := TeleportTo(t, fish.territoryTypeId, ClosestTo(fish.center));
    teleported := made != [];
    walked := false;
    if !o.Done? {
      PrefixExtend(made, made, WalkRequests(walked, fish.center));
      return;
    }
    t.SetStatus(SpotStatus(fish));
    shown := shown + [SpotStatus(fish)];
    ghost var walk, at;
    o, walk, at := MoveTo(t, fish.center, SPOT_TOLERANCE);
    walked := walk != [];
    WalkPrefixes(fish.center);
    PrefixAfterOpening(made, WalkRequests(walked, fish.center), walk);
    ConcatAssoc(old(t.requests), made, walk);
    made := made + walk;
  }

  /**
   * Hand the catch in: teleport to the aetheryte closest to the turn-in
   * NPC, then the closing phase of a delivery from slot 2.
   */
  method HandInCatch(t: AutoTask, npcIndex: Int32, territoryId: UInt32, dest: Vec3, npcInstanceId: bv64,
                     itemId: UInt32, remaining: Int32)
    returns (o: Outcome, ghost made: seq<Action>, ghost shown: seq<Status>, ghost trip: Trip)
    requires t.Valid()
    modifies t`status, t`scopes, t`log, t`cancelled, t`framesLeft, t`requests, t`talksAdvanced, t`reports
    ensures Kept(t, old(t.log), old(t.scopes), old(t.cancelled), o)
    ensures o.Done? || o.Aborted? || o.Cancelled? || o.Suspended?
    ensures t.requests == old(t.requests) + made
    ensures t.reports == old(t.reports) + shown
    ensures trip.teleported == (MeasureOf(t.env, old(t.log) + [Report(TeleportingToTurnInZone)], CurrentTerritory) != territoryId)
    ensures made <= ReturnRequests(trip, dest, npcInstanceId, 2, remaining)
    ensures shown <= [TeleportingToTurnInZone, TurningIn(remaining, itemId)]
    ensures o.Done? ==>
      made == ReturnRequests(trip, dest, npcInstanceId, 2, remaining) &&
      shown == [TeleportingToTurnInZone, TurningIn(remaining, itemId)]
  {
    t.SetStatus(TeleportingToTurnInZone);
    shown := [TeleportingToTurnInZone];
    o, made := TeleportTo(t, territoryId, ClosestTo(dest));
    trip := Trip(made != [], false, false);
    if !o.Done? {
      PrefixExtend(made, made, DeliveryRequests(false, false, dest, npcInstanceId, 2, remaining));
      PrefixExtend(shown, shown, [TurningIn(remaining, itemId)]);
      return;
    }
    ghost var rest, walked, interacted;
    o, rest, walked, interacted := Deliver(t, npcIndex, npcInstanceId, dest, itemId, 2, remaining);
    trip := Trip(trip.teleported, walked, interacted);
    PrefixAfterOpening(made, DeliveryRequests(walked, interacted, dest, npcInstanceId, 2, remaining), rest);
    ConcatAssoc(old(t.requests), made, rest);
    made := made + rest;
    shown := shown + [TurningIn(remaining, itemId)];
  }

  /**
   * The fishing delivery for an NPC: nothing when no delivery of slot 2 is
   * left this week; an error when the NPC has no fishing or crafting data.
   * Otherwise the fish in the inventory decide: while some are missing the
   * task travels to the fishing spot and stops there (`fishing`); once none
   * are missing it travels to the turn-in NPC and hands them in.
   */
  method Execute(t: AutoTask, npc: Npc)
    returns (o: Outcome, ghost made: seq<Action>, ghost shown: seq<Status>, fishing: bool, ghost trip: Trip)
    requires t.Valid()
    modifies t`status, t`scopes, t`log, t`cancelled, t`framesLeft, t`requests, t`talksAdvanced, t`reports
    ensures Kept(t, old(t.log), old(t.scopes), old(t.cancelled), o)
    ensures o.Done? || o.Aborted? || o.Cancelled? || o.Suspended?
    ensures t.requests == old(t.requests) + made
    ensures t.reports == old(t.reports) + shown
    ensures t.env.count(old(t.log), RemainingTurnins(2)) <= 0 ==> o == Done && made == [] && shown == []
    ensures t.env.count(old(t.log), RemainingTurnins(2)) > 0 && (npc.fishData.None? || npc.craftData == null) ==>
      o == Aborted(FISH_DATA_MISSING) && made == [] && shown == []
    ensures t.env.count(old(t.log), RemainingTurnins(2)) > 0 && npc.fishData.Some? && npc.craftData != null ==>
      var remaining := t.env.count(old(t.log), RemainingTurnins(2));
      var fish := npc.fishData.value;
      var asked := old(t.log) + [Measure(RemainingTurnins(2), remaining)];
      var dest := npc.craftData.turnInLocation;
      fishing == (FishNeeded(remaining, t.env.count(asked, ItemsInInventory(fish.fishItemId, 1))) > 0) &&
      (fishing ==>
        made <= FishingRequests(trip.teleported, trip.walked, fish) &&
        shown <= [TeleportingToFishZone, SpotStatus(fish)] &&
        (o.Done? ==> made == FishingRequests(trip.teleported, trip.walked, fish) && shown == [TeleportingToFishZone, SpotStatus(fish)])) &&
      (!fishing ==>
        made <= ReturnRequests(trip, dest, npc.craftData.turnInInstanceId, 2, remaining) &&
        shown <= [TeleportingToTurnInZone, TurningIn(remaining, fish.fishItemId)] &&
        (o.Done? ==>
          made == ReturnRequests(trip, dest, npc.craftData.turnInInstanceId, 2, remaining) &&
          shown == [TeleportingToTurnInZone, TurningIn(remaining, fish.fishItemId)]))
  {
    made, shown, fishing, trip := [], [], false, Trip(false, false, false);
    var remaining := t.Read(RemainingTurnins(2));
    if remaining <= 0 {
      return Done, made, shown, fishing, trip;
    }
    var cd := npc.craftData;
    if npc.fishData.None? || cd == null {
      return Aborted(FISH_DATA_MISSING), made, shown, fishing, trip;
    }
    var fish := npc.fishData.value;
    var inStock := t.Read(ItemsInInventory(fish.fishItemId, 1));
    var needed := FishNeeded(remaining, inStock);
    fishing := needed > 0;
    if fishing {
      ghost var teleported, walked;
      o, made, shown, teleported, walked := GoFishing(t, fish);
      trip := Trip(teleported, walked, false);
    } else {
      o, made, shown, trip := HandInCatch(t, npc.index, npc.territoryId, cd.turnInLocation, cd.turnInInstanceId, fish.fishItemId, remaining);
    }
  }

  /** A trip to the fishing spot, whole or cut short, never opens an NPC's dialog or hands anything in. */
  lemma FishingNeverHandsIn(made: seq<Action>, teleported: bool, walked: bool, fish: FishSpot)
    requires made <= FishingRequests(teleported, walked, fish)
    ensures forall i :: 0 <= i < |made| ==>
      !made[i].TurnInSupply? && !made[i].InteractWith? && !made[i].TurnInRequestCommit? && !made[i].SelectTurnIn?
  {
    var tp := TeleportRequests(teleported, ClosestTo(fish.center));
    var walk := WalkRequests(walked, fish.center);
    forall i | 0 <= i < |made|
      ensures !made[i].TurnInSupply? && !made[i].InteractWith? && !made[i].TurnInRequestCommit? && !made[i].SelectTurnIn?
    {
      assert made[i] == (tp + walk)[i];
      if i >= |tp| {
        assert (tp + walk)[i] == walk[i - |tp|];
      }
    }
  }

  /** A completed hand-in of the catch offers the item of slot 2 once per delivery left, and nothing from another slot. */
  lemma CatchHandedIn(trip: Trip, dest: Vec3, npcInstanceId: bv64, remaining: Int32)
    ensures multiset(ReturnRequests(trip, dest, npcInstanceId, 2, remaining))[TurnInSupply(2)] == Iterations(remaining)
    ensures forall other :: other != 2 ==> TurnInSupply(other) !in ReturnRequests(trip, dest, npcInstanceId, 2, remaining)
  {
    ReturnCount(trip, dest, npcInstanceId, 2, remaining);
    ReturnSlot(trip, dest, npcInstanceId, 2, remaining);
  }
}
