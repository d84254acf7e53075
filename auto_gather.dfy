/**
 * The gathering delivery for an NPC: hand the gathering over to the
 * Questionable plugin, wait for it to start and to finish, travel back to
 * the NPC's zone, walk to the NPC and hand the items in from slot 1.
 */
module AutoGather {
  import opened Ints
  import opened Wrappers
  import opened GameData
  import opened World
  import opened Tasks
  import opened AutoCommon
  import opened Delivery
  import opened CraftTurnin
  import opened GatherData
  import opened NpcInfo

  const GATHER_DATA_MISSING := "Gather or turn-in data is not initialized"
  const QUESTIONABLE_FAILED := "Unable to invoke Questionable"

  /** `(byte)` of a job id: its low eight bits. */
  function JobByte(job: UInt32): (b: Byte)
    ensures job < 0x100 ==> b == job
    ensures (job - b) % 0x100 == 0
  {
    job % 0x100
  }

  /** The item of request slot 1, or 0 when there is no such slot. */
  function SecondItem(items: seq<UInt32>): UInt32
  {
    if |items| > 1 then items[1] else 0
  }

  /**
   * The log of the waits for the gathering plugin: `r1` frames until it
   * runs, then `r2` frames until it stops.
   */
  function GatherWaits(r1: nat, r2: nat): seq<Event>
  {
    Waited(IsNot(QuestionableRunning), r1) + [Probe(QuestionableRunning, true)] +
    Waited(Is(QuestionableRunning), r2) + [Probe(QuestionableRunning, false)]
  }

  /** `s` is the log of a wait until the gathering plugin ran and then stopped. */
  ghost predicate WaitedForGathering(s: seq<Event>)
  {
    exists r1: nat, r2: nat :: s == GatherWaits(r1, r2)
  }

  /** The requests of a whole gathering delivery: start the plugin, then return and hand in from slot 1. */
  function GatherRequests(start: Action, trip: Trip, dest: Vec3, npcInstanceId: bv64, remaining: Int32): seq<Action>
  {
    [start] + ReturnRequests(trip, dest, npcInstanceId, 1, remaining)
  }

  /** The status lines of a whole gathering delivery, in order. */
  function GatherStatuses(remaining: Int32, itemId: UInt32): seq<Status>
  {
    [GatheringWithQuestionable, TeleportingBackToNpc, MovingToNpc, TurningIn(remaining, itemId)]
  }

  /** Wait until the gathering plugin runs, then until it stops. */
  method WaitForGathering(t: AutoTask) returns (o: Outcome, ghost r1: nat, ghost r2: nat)
    requires t.Valid()
    modifies t`scopes, t`log, t`cancelled, t`framesLeft
    ensures Kept(t, old(t.log), old(t.scopes), old(t.cancelled), o)
    ensures o.Done? || o.Cancelled? || o.Suspended?
    ensures o.Done? ==> t.log == old(t.log) + GatherWaits(r1, r2)
  {
    r2 := 0;
    o, r1 := t.WaitWhile(IsNot(QuestionableRunning), "Waiting for gathering to start");
    if !o.Done? {
      return;
    }
    o, r2 := t.WaitWhile(Is(QuestionableRunning), "Waiting for gathering to finish");
  }

  /**
   * Ask the plugin to gather, then wait until it runs and until it stops.
   * A refused request aborts before the status line changes.
   */
  method Gather(t: AutoTask, start: Action) returns (o: Outcome, ghost shown: seq<Status>, ghost waited: seq<Event>)
    requires t.Valid()
    modifies t`status, t`scopes, t`log, t`cancelled, t`framesLeft, t`requests, t`reports
    ensures Kept(t, old(t.log), old(t.scopes), old(t.cancelled), o)
    ensures o.Done? || o.Aborted? || o.Cancelled? || o.Suspended?
    ensures t.requests == old(t.requests) + [start]
    ensures t.reports == old(t.reports) + shown
    ensures !t.env.succeeds(old(t.log), start) ==>
      o == Aborted(ErrorMessage(t.kind, old(t.scopes), QUESTIONABLE_FAILED)) && shown == []
    ensures t.env.succeeds(old(t.log), start) ==> !o.Aborted? && shown == [GatheringWithQuestionable]
    ensures o.Done? ==>
      WaitedForGathering(waited) &&
      t.log == old(t.log) + [Call(start, true), Report(GatheringWithQuestionable)] + waited
  {
    shown, waited := [], [];
    var ok := t.Invoke(start);
    o := t.ErrorIf(!ok, QUESTIONABLE_FAILED);
    if o.Aborted? {
      return;
    }
    t.SetStatus(GatheringWithQuestionable);
    shown := [GatheringWithQuestionable];
    ghost var r1, r2;
    o, r1, r2 := WaitForGathering(t);
    if o.Done? {
      waited := GatherWaits(r1, r2);
      assert WaitedForGathering(waited);
    }
  }

  /**
   * The end of a return: walk to `dest`, then hand in the item of slot 1
   * `remaining` times. The item is looked up after the walk, so a list of
   * turn-in items without slot 1 fails only there.
   */
  method WalkAndHandIn(t: AutoTask, npcIndex: Int32, dest: Vec3, npcInstanceId: bv64, items: seq<UInt32>, remaining: Int32)
    returns (o: Outcome, ghost made: seq<Action>, ghost shown: seq<Status>, ghost walked: bool, ghost interacted: bool)
    requires t.Valid()
    modifies t`status, t`scopes, t`log, t`cancelled, t`framesLeft, t`requests, t`talksAdvanced, t`reports
    ensures Kept(t, old(t.log), old(t.scopes), old(t.cancelled), o)
    ensures o.Done? || o.Aborted? || o.Failed? || o.Cancelled? || o.Suspended?
    ensures o.Failed? ==> o == Failed(IndexOutOfRange) && |items| <= 1
    ensures t.requests == old(t.requests) + made
    ensures t.reports == old(t.reports) + shown
    ensures walked ==> !t.env.holds(old(t.log) + [Report(MovingToNpc)], PlayerInRange(dest, 3.0))
    ensures o.Done? ==> (walked <==> !t.env.holds(old(t.log) + [Report(MovingToNpc)], PlayerInRange(dest, 3.0)))
    ensures made <= DeliveryRequests(walked, interacted, dest, npcInstanceId, 1, remaining)
    ensures shown <= [MovingToNpc, TurningIn(remaining, SecondItem(items))]
    ensures o.Done? ==>
      made == DeliveryRequests(walked, interacted, dest, npcInstanceId, 1, remaining) &&
      shown == [MovingToNpc, TurningIn(remaining, SecondItem(items))] && |items| > 1
  {
    t.SetStatus(MovingToNpc);
    shown := [MovingToNpc];
    ghost var at;
    o, made, at := MoveTo(t, dest, 3.0);
    walked := made != [];
    interacted := false;
    WalkPrefixes(dest);
    if !o.Done? || |items| <= 1 {
      PrefixExtend(made, WalkRequests(walked, dest), Opening(interacted, npcInstanceId) + Repeat(HandIn(1), Iterations(remaining)));
      if o.Done? {
        o := Failed(IndexOutOfRange);
      }
      return;
    }
    var itemId := items[1];
    t.SetStatus(TurningIn(remaining, itemId));
    shown := shown + [TurningIn(remaining, itemId)];
    ghost var handed;
    o, handed, interacted := TurnIn(t, npcIndex, npcInstanceId, itemId, 1, remaining);
    PrefixAfterOpening(made, Opening(interacted, npcInstanceId) + Repeat(HandIn(1), Iterations(remaining)), handed);
    ConcatAssoc(old(t.requests), made, handed);
    made := made + handed;
  }

  /**
   * Travel back once the gathering is done: teleport to the NPC's zone,
   * walk to `dest`, then hand in the item of slot 1 `remaining` times.
   */
  method Return(t: AutoTask, npcIndex: Int32, territoryId: UInt32, dest: Vec3, npcInstanceId: bv64,
                items: seq<UInt32>, remaining: Int32)
    returns (o: Outcome, ghost made: seq<Action>, ghost shown: seq<Status>, ghost trip: Trip)
    requires t.Valid()
    modifies t`status, t`scopes, t`log, t`cancelled, t`framesLeft, t`requests, t`talksAdvanced, t`reports
    ensures Kept(t, old(t.log), old(t.scopes), old(t.cancelled), o)
    ensures o.Done? || o.Aborted? || o.Failed? || o.Cancelled? || o.Suspended?
    ensures o.Failed? ==> o == Failed(IndexOutOfRange) && |items| <= 1
    ensures t.requests == old(t.requests) + made
    ensures t.reports == old(t.reports) + shown
    ensures trip.teleported == (MeasureOf(t.env, old(t.log) + [Report(TeleportingBackToNpc)], CurrentTerritory) != territoryId)
    ensures made <= ReturnRequests(trip, dest, npcInstanceId, 1, remaining)
    ensures shown <= [TeleportingBackToNpc, MovingToNpc, TurningIn(remaining, SecondItem(items))]
    ensures o.Done? ==>
      made == ReturnRequests(trip, dest, npcInstanceId, 1, remaining) &&
      shown == [TeleportingBackToNpc, MovingToNpc, TurningIn(remaining, SecondItem(items))] &&
      |items| > 1
  {
    t.SetStatus(TeleportingBackToNpc);
    shown := [TeleportingBackToNpc];
    o, made := TeleportTo(t, territoryId, ClosestTo(dest));
    trip := Trip(made != [], false, false);
    ghost var later := [MovingToNpc, TurningIn(remaining, SecondItem(items))];
    if !o.Done? {
      PrefixExtend(made, made, DeliveryRequests(false, false, dest, npcInstanceId, 1, remaining));
      PrefixExtend(shown, shown, later);
      return;
    }
    ghost var rest, seen, walked, interacted;
    ConcatAssoc(old(t.reports), shown, later);
    o, rest, seen, walked, interacted := WalkAndHandIn(t, npcIndex, dest, npcInstanceId, items, remaining);
    trip := Trip(trip.teleported, walked, interacted);
    PrefixAfterOpening(made, DeliveryRequests(walked, interacted, dest, npcInstanceId, 1, remaining), rest);
    PrefixAfterOpening(shown, later, seen);
    ConcatAssoc(old(t.requests), made, rest);
    ConcatAssoc(old(t.reports), shown, seen);
    made := made + rest;
    shown := shown + seen;
  }

  /**
   * The gathering delivery for an NPC: nothing when no delivery of slot 1
   * is left this week; an error when the NPC has no gathering or crafting
   * data; otherwise the gathering is handed to the plugin and, once the
   * plugin has run and stopped, the task travels back and hands in. The
   * requests sent are those of `GatherRequests`, all of them when the
   * delivery completes, and the status lines those of `GatherStatuses`.
   */
  method Execute(t: AutoTask, ctx: Context, npc: Npc)
    returns (o: Outcome, ghost made: seq<Action>, ghost shown: seq<Status>, ghost trip: Trip, ghost gathered: seq<Event>)
    requires t.Valid()
    modifies t`status, t`scopes, t`log, t`cancelled, t`framesLeft, t`requests, t`talksAdvanced, t`reports
    ensures Kept(t, old(t.log), old(t.scopes), old(t.cancelled), o)
    ensures o.Done? || o.Aborted? || o.Failed? || o.Cancelled? || o.Suspended?
    ensures t.requests == old(t.requests) + made
    ensures t.reports == old(t.reports) + shown
    ensures t.env.count(old(t.log), RemainingTurnins(1)) <= 0 ==> o == Done && made == [] && shown == []
    ensures t.env.count(old(t.log), RemainingTurnins(1)) > 0 && (npc.gatherData.None? || npc.craftData == null) ==>
      o == Aborted(GATHER_DATA_MISSING) && made == [] && shown == []
    ensures t.env.count(old(t.log), RemainingTurnins(1)) > 0 && npc.gatherData.Some? && npc.craftData != null ==>
      var remaining := t.env.count(old(t.log), RemainingTurnins(1));
      var start := StartGathering(npc.turninId, npc.gatherData.value.gatherItemId, JobByte(ClassJobId(ctx)), remaining);
      var asked := old(t.log) + [Measure(RemainingTurnins(1), remaining)];
      var dest := npc.craftData.vendorLocation;
      made <= GatherRequests(start, trip, dest, npc.craftData.turnInInstanceId, remaining) &&
      shown <= GatherStatuses(remaining, SecondItem(npc.turnInItems)) &&
      (o.Done? ==>
        made == GatherRequests(start, trip, dest, npc.craftData.turnInInstanceId, remaining) &&
        shown == GatherStatuses(remaining, SecondItem(npc.turnInItems)) && |npc.turnInItems| > 1) &&
      (!t.env.succeeds(asked, start) ==>
        o == Aborted(ErrorMessage(t.kind, old(t.scopes), QUESTIONABLE_FAILED)) && made == [start] && shown == []) &&
      (|made| > 1 ==>
        WaitedForGathering(gathered) &&
        trip.teleported == (MeasureOf(t.env, asked + [Call(start, true), Report(GatheringWithQuestionable)] + gathered +
                                      [Report(TeleportingBackToNpc)], CurrentTerritory) != npc.territoryId))
  {
    made, shown, trip, gathered := [], [], Trip(false, false, false), [];
    var remaining := t.Read(RemainingTurnins(1));
    if remaining <= 0 {
      return Done, made, shown, trip, gathered;
    }
    var cd := npc.craftData;
    if npc.gatherData.None? || cd == null {
      return Aborted(GATHER_DATA_MISSING), made, shown, trip, gathered;
    }
    var start := StartGathering(npc.turninId, npc.gatherData.value.gatherItemId, JobByte(ClassJobId(ctx)), remaining);
    ghost var ret := ReturnRequests(trip, cd.vendorLocation, cd.turnInInstanceId, 1, remaining);
    ghost var later := [TeleportingBackToNpc, MovingToNpc, TurningIn(remaining, SecondItem(npc.turnInItems))];
    o, shown, gathered := Gather(t, start);
    made := [start];
    if !o.Done? {
      PrefixExtend(made, made, ret);
      PrefixExtend(shown, [GatheringWithQuestionable], later);
      return;
    }
    ghost var back, seen;
    ConcatAssoc(old(t.reports), shown, later);
    o, back, seen, trip := Return(t, npc.index, npc.territoryId, cd.vendorLocation, cd.turnInInstanceId, npc.turnInItems, remaining);
    PrefixAfterOpening(made, ReturnRequests(trip, cd.vendorLocation, cd.turnInInstanceId, 1, remaining), back);
    PrefixAfterOpening(shown, later, seen);
    ConcatAssoc(old(t.requests), made, back);
    ConcatAssoc(old(t.reports), shown, seen);
    made := made + back;
    shown := shown + seen;
  }

  /** A completed gathering delivery hands in the item of slot 1 once per delivery left, and nothing from another slot. */
  lemma GatherHandsInRemaining(start: Action, trip: Trip, dest: Vec3, npcInstanceId: bv64, remaining: Int32)
    requires start.StartGathering?
    ensures multiset(GatherRequests(start, trip, dest, npcInstanceId, remaining))[TurnInSupply(1)] == Iterations(remaining)
    ensures forall other :: other != 1 ==> TurnInSupply(other) !in GatherRequests(start, trip, dest, npcInstanceId, remaining)
  {
    var ret := ReturnRequests(trip, dest, npcInstanceId, 1, remaining);
    ReturnCount(trip, dest, npcInstanceId, 1, remaining);
    ReturnSlot(trip, dest, npcInstanceId, 1, remaining);
    assert multiset([start] + ret) == multiset([start]) + multiset(ret);
  }

  /**
   * A gathering delivery, whole or cut short, starts the plugin with its
   * first request and never again.
   */
  lemma StartsGatheringOnce(made: seq<Action>, start: Action, trip: Trip, dest: Vec3, npcInstanceId: bv64, remaining: Int32)
    requires made <= GatherRequests(start, trip, dest, npcInstanceId, remaining)
    ensures made != [] ==> made[0] == start
    ensures forall i :: 0 < i < |made| ==> !made[i].StartGathering?
  {
    var tp := TeleportRequests(trip.teleported, ClosestTo(dest));
    var rest := DeliveryRequests(trip.walked, trip.interacted, dest, npcInstanceId, 1, remaining);
    var all := GatherRequests(start, trip, dest, npcInstanceId, remaining);
    DeliveryRequestsAreDeliveries(rest, trip.walked, trip.interacted, dest, npcInstanceId, 1, remaining);
    forall i | 0 < i < |made|
      ensures !made[i].StartGathering?
    {
      assert made[i] == all[i];
      if i - 1 < |tp| {
        assert all[i] == tp[i - 1];
      } else {
        assert all[i] == rest[i - 1 - |tp|];
        assert DeliveryRequest(rest[i - 1 - |tp|], dest, npcInstanceId, 1);
      }
    }
  }
}
