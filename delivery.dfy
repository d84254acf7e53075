/**
 * Item names in status and error text, and the closing phase shared by the
 * crafting and fishing deliveries: announce the turn-in, walk to the turn-in
 * NPC and hand the items in.
 */
module Delivery {
  import opened Ints
  import opened GameData
  import opened World
  import opened Tasks
  import opened Text
  import opened AutoCommon

  /** The name of an item, or its id in decimal when the Item sheet has no row for it. */
  function ItemName(sheets: Sheets, itemId: UInt32): (r: string)
    ensures itemId in sheets.itemName ==> r == sheets.itemName[itemId]
    ensures itemId !in sheets.itemName ==> Value(r, 10) == itemId
  {
    if itemId in sheets.itemName then sheets.itemName[itemId] else Decimal(itemId)
  }

  /** Every request in `block` sent `n` times over is one of the requests of `block`. */
  lemma {:induction false} RepeatElements(block: seq<Action>, n: nat)
    ensures forall i :: 0 <= i < |Repeat(block, n)| ==> Repeat(block, n)[i] in block
  {
    if n > 0 {
      RepeatElements(block, n - 1);
      var r := Repeat(block, n);
      assert r == Repeat(block, n - 1) + block;
      forall i | 0 <= i < |r|
        ensures r[i] in block
      {
        if i >= |Repeat(block, n - 1)| {
          assert r[i] == block[i - |Repeat(block, n - 1)|];
        }
      }
    }
  }

  /** Sending `block` `n` times sends each of its requests `n` times as often. */
  lemma {:induction false} RepeatCount(block: seq<Action>, n: nat, a: Action)
    ensures multiset(Repeat(block, n))[a] == n * multiset(block)[a]
  {
    if n > 0 {
      RepeatCount(block, n - 1, a);
      assert Repeat(block, n) == Repeat(block, n - 1) + block;
      assert multiset(Repeat(block, n)) == multiset(Repeat(block, n - 1)) + multiset(block);
      assert n * multiset(block)[a] == (n - 1) * multiset(block)[a] + multiset(block)[a];
    }
  }

  /** Completed hand-ins offer the slot's item once per item handed in. */
  lemma HandInCount(interacted: bool, npcInstanceId: bv64, slot: int, n: nat)
    ensures multiset(Opening(interacted, npcInstanceId) + Repeat(HandIn(slot), n))[TurnInSupply(slot)] == n
  {
    RepeatCount(HandIn(slot), n, TurnInSupply(slot));
    assert multiset(HandIn(slot))[TurnInSupply(slot)] == 1;
    assert multiset(Opening(interacted, npcInstanceId))[TurnInSupply(slot)] == 0;
  }

  /** The requests of a walk that was needed (`walked`) or not. */
  function WalkRequests(walked: bool, dest: Vec3): seq<Action>
  {
    if walked then [NavPathfindAndMoveTo(dest, false), NavStop] else []
  }

  /** The requests of a teleport that was needed (`teleported`) or not. */
  function TeleportRequests(teleported: bool, target: TeleportTarget): seq<Action>
  {
    if teleported then [ExecuteTeleport(target)] else []
  }

  /**
   * The requests of a whole closing phase: the walk to the NPC if one was
   * needed, the opening of its dialog if it was not open, then `count`
   * hand-ins from `slot`.
   */
  function DeliveryRequests(walked: bool, interacted: bool, dest: Vec3, npcInstanceId: bv64, slot: int, count: Int32): seq<Action>
  {
    WalkRequests(walked, dest) + (Opening(interacted, npcInstanceId) + Repeat(HandIn(slot), Iterations(count)))
  }

  /** A request of the closing phase of a delivery: walking to `dest`, opening the NPC's dialog, handing in from `slot`. */
  predicate DeliveryRequest(a: Action, dest: Vec3, npcInstanceId: bv64, slot: int)
  {
    a == NavPathfindAndMoveTo(dest, false) || a == NavStop || a == InteractWith(npcInstanceId) ||
    a == SelectTurnIn || a == TurnInSupply(slot) || a == TurnInRequestCommit
  }

  /** Every request of `s` belongs to the closing phase. */
  ghost predicate AllDeliveries(s: seq<Action>, dest: Vec3, npcInstanceId: bv64, slot: int)
  {
    forall i :: 0 <= i < |s| ==> DeliveryRequest(s[i], dest, npcInstanceId, slot)
  }

  /** The hand-ins, after the opening of the dialog, are closing-phase requests. */
  lemma TurnInIsDelivery(interacted: bool, dest: Vec3, npcInstanceId: bv64, slot: int, n: nat)
    ensures AllDeliveries(Opening(interacted, npcInstanceId) + Repeat(HandIn(slot), n), dest, npcInstanceId, slot)
  {
    var all := Opening(interacted, npcInstanceId) + Repeat(HandIn(slot), n);
    RepeatElements(HandIn(slot), n);
    forall i | 0 <= i < |all|
      ensures DeliveryRequest(all[i], dest, npcInstanceId, slot)
    {
      if i >= |Opening(interacted, npcInstanceId)| {
        assert all[i] == Repeat(HandIn(slot), n)[i - |Opening(interacted, npcInstanceId)|];
      }
    }
  }

  /**
   * A closing phase, whole or cut short at any point, sends only walking and
   * turn-in requests for this NPC and this slot.
   */
  lemma DeliveryRequestsAreDeliveries(made: seq<Action>, walked: bool, interacted: bool, dest: Vec3, npcInstanceId: bv64, slot: int, count: Int32)
    requires made <= DeliveryRequests(walked, interacted, dest, npcInstanceId, slot, count)
    ensures AllDeliveries(made, dest, npcInstanceId, slot)
  {
    var walk := WalkRequests(walked, dest);
    var rest := Opening(interacted, npcInstanceId) + Repeat(HandIn(slot), Iterations(count));
    var all := walk + rest;
    TurnInIsDelivery(interacted, dest, npcInstanceId, slot, Iterations(count));
    forall i | 0 <= i < |made|
      ensures DeliveryRequest(made[i], dest, npcInstanceId, slot)
    {
      assert made[i] == all[i];
      if i >= |walk| {
        assert all[i] == rest[i - |walk|];
      }
    }
  }

  /** A completed closing phase offers the slot's item exactly once per item to hand in. */
  lemma DeliveredCount(walked: bool, interacted: bool, dest: Vec3, npcInstanceId: bv64, slot: int, count: Int32)
    ensures multiset(DeliveryRequests(walked, interacted, dest, npcInstanceId, slot, count))[TurnInSupply(slot)] == Iterations(count)
  {
    var n := Iterations(count);
    HandInCount(interacted, npcInstanceId, slot, n);
    var walk := WalkRequests(walked, dest);
    var rest := Opening(interacted, npcInstanceId) + Repeat(HandIn(slot), n);
    assert multiset(walk)[TurnInSupply(slot)] == 0;
    assert multiset(walk + rest) == multiset(walk) + multiset(rest);
  }

  /** What the game's answers decided along a return trip: a teleport, a walk, opening the NPC's dialog. */
  datatype Trip = Trip(teleported: bool, walked: bool, interacted: bool)

  /**
   * The requests of a return to a turn-in NPC standing at `dest`: the
   * teleport to the aetheryte closest to `dest` if one was needed, then a
   * whole closing phase handing in from `slot`.
   */
  function ReturnRequests(trip: Trip, dest: Vec3, npcInstanceId: bv64, slot: int, count: Int32): seq<Action>
  {
    TeleportRequests(trip.teleported, ClosestTo(dest)) + DeliveryRequests(trip.walked, trip.interacted, dest, npcInstanceId, slot, count)
  }

  /** A completed return offers the slot's item once per item to hand in. */
  lemma ReturnCount(trip: Trip, dest: Vec3, npcInstanceId: bv64, slot: int, count: Int32)
    ensures multiset(ReturnRequests(trip, dest, npcInstanceId, slot, count))[TurnInSupply(slot)] == Iterations(count)
  {
    var tp := TeleportRequests(trip.teleported, ClosestTo(dest));
    var rest := DeliveryRequests(trip.walked, trip.interacted, dest, npcInstanceId, slot, count);
    DeliveredCount(trip.walked, trip.interacted, dest, npcInstanceId, slot, count);
    assert multiset(tp)[TurnInSupply(slot)] == 0;
    assert multiset(tp + rest) == multiset(tp) + multiset(rest);
  }

  /** A return offers items from its own slot only. */
  lemma ReturnSlot(trip: Trip, dest: Vec3, npcInstanceId: bv64, slot: int, count: Int32)
    ensures forall other :: other != slot ==> TurnInSupply(other) !in ReturnRequests(trip, dest, npcInstanceId, slot, count)
  {
    var tp := TeleportRequests(trip.teleported, ClosestTo(dest));
    var rest := DeliveryRequests(trip.walked, trip.interacted, dest, npcInstanceId, slot, count);
    DeliveryRequestsAreDeliveries(rest, trip.walked, trip.interacted, dest, npcInstanceId, slot, count);
    forall other | other != slot
      ensures TurnInSupply(other) !in tp + rest
    {
      forall i | 0 <= i < |rest|
        ensures rest[i] != TurnInSupply(other)
      {
        assert DeliveryRequest(rest[i], dest, npcInstanceId, slot);
      }
    }
  }

  /**
   * The closing phase of a crafting or fishing delivery: show that `count`
   * items are being turned in, walk to the turn-in NPC at `dest` and hand
   * them in from `slot`. The requests sent are those of
   * `DeliveryRequests`, all of them when the phase completes.
   */
  method Deliver(t: AutoTask, npcIndex: Int32, npcInstanceId: bv64, dest: Vec3, itemId: UInt32, slot: int, count: Int32)
    returns (o: Outcome, ghost made: seq<Action>, ghost walked: bool, ghost interacted: bool)
    requires t.Valid()
    modifies t`status, t`scopes, t`log, t`cancelled, t`framesLeft, t`requests, t`talksAdvanced, t`reports
    ensures Kept(t, old(t.log), old(t.scopes), old(t.cancelled), o)
    ensures o.Done? || o.Aborted? || o.Cancelled? || o.Suspended?
    ensures t.reports == old(t.reports) + [TurningIn(count, itemId)]
    ensures t.requests == old(t.requests) + made
    ensures walked ==> !t.env.holds(old(t.log) + [Report(TurningIn(count, itemId))], PlayerInRange(dest, 3.0))
    ensures o.Done? ==> (walked <==> !t.env.holds(old(t.log) + [Report(TurningIn(count, itemId))], PlayerInRange(dest, 3.0)))
    ensures made <= DeliveryRequests(walked, interacted, dest, npcInstanceId, slot, count)
    ensures o.Done? ==> made == DeliveryRequests(walked, interacted, dest, npcInstanceId, slot, count)
  {
    t.SetStatus(TurningIn(count, itemId));
    ghost var at, handed;
    o, made, at := MoveTo(t, dest, 3.0);
    walked := made != [];
    interacted := false;
    ghost var walk := WalkRequests(walked, dest);
    WalkPrefixes(dest);
    if !o.Done? {
      PrefixExtend(made, walk, Opening(interacted, npcInstanceId) + Repeat(HandIn(slot), Iterations(count)));
      return;
    }
    o, handed, interacted := TurnIn(t, npcIndex, npcInstanceId, itemId, slot, count);
    PrefixAfterOpening(made, Opening(interacted, npcInstanceId) + Repeat(HandIn(slot), Iterations(count)), handed);
    ConcatAssoc(old(t.requests), made, handed);
    made := made + handed;
  }
}
