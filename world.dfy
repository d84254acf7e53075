/**
 * The boundary between the automation and the game: everything a task asks
 * the game or another plugin, everything it tells them to do, and the log of
 * those exchanges. The game itself is an oracle, `Env`, that answers each
 * question from the log of what happened before it.
 */
module World {
  import opened Ints
  import opened GameData

  /** A yes/no question about the game or a helper plugin. */
  datatype Cond =
    | PlayerInRange(dest: Vec3, tolerance: real)   // the player is within `tolerance` of `dest`
    | NavBuildInProgress                           // the navmesh build progress is >= 0
    | NavIsReady                                   // the navmesh plugin is ready
    | PlayerIsBusy                                 // the player is occupied (casting, between zones)
    | TurnInSupplyInProgress(npcId: UInt32)        // the supply dialog of the NPC is open
    | TurnInSelectInProgress                       // the turn-in selection dialog is open
    | TurnInRequestInProgress(itemId: UInt32)      // the hand-in window for the item is open
    | TalkInProgress                               // a talk dialog is waiting
    | OccupiedInCutSceneEvent                      // the player is in a cutscene event
    | ShopOpen(shopId: UInt32)                     // the given shop window is open
    | AnyShopOpen                                  // some shop window is open
    | OccupiedInEvent                              // the player is occupied in an event
    | ShopTransactionInProgress(shopId: UInt32)    // a purchase at the shop is pending
    | ArtisanInProgress                            // the crafting plugin is crafting
    | PreparingToCraft                             // the crafting log is open, no craft running
    | Crafting                                     // the player is in crafting mode
    | QuestionableRunning                          // the gathering plugin is running

  /** A waiting condition: `cond` evaluates to `holdsWhen` exactly when the test passes. */
  datatype Test = Test(cond: Cond, holdsWhen: bool)

  function Is(c: Cond): Test { Test(c, true) }
  function IsNot(c: Cond): Test { Test(c, false) }

  /** A number the game reports. */
  datatype Quantity =
    | CurrentTerritory
    | RemainingTurnins(slot: int)                      // deliveries of a request slot left this week
    | ItemsInInventory(itemId: UInt32, minCollectability: int)

  /** Where a teleport goes: a given aetheryte, or the aetheryte closest to a position. */
  datatype TeleportTarget = Aetheryte(id: UInt32) | ClosestTo(position: Vec3)

  /** A request to the game or a helper plugin. */
  datatype Action =
    | ExecuteTeleport(target: TeleportTarget)
    | NavPathfindAndMoveTo(dest: Vec3, fly: bool)
    | NavStop
    | InteractWith(instanceId: bv64)
    | SelectTurnIn
    | TurnInSupply(slot: int)
    | TurnInRequestCommit
    | ProgressTalk
    | OpenShop(vendorInstanceId: bv64, shopId: UInt32)
    | BuyItemFromShop(shopId: UInt32, itemId: UInt32, count: int)
    | CloseShop
    | ArtisanCraft(recipe: int, count: int)
    | ExitCrafting
    | StartGathering(npcId: UInt32, itemId: UInt32, classJob: Byte, quantity: int)

  /** The user-facing status line of a task. */
  datatype Status =
    | Idle
    | TeleportingToZone
    | Buying(count: int, itemId: UInt32)
    | CraftingItems(count: int, itemId: UInt32)
    | TurningIn(count: int, itemId: UInt32)
    | GatheringWithQuestionable
    | TeleportingBackToNpc
    | MovingToNpc
    | TeleportingToFishZone
    | Spearfishing(spotId: UInt32)
    | Fishing(spotId: UInt32)
    | TeleportingToTurnInZone

  /** One exchange between a task and the game. */
  datatype Event =
    | Probe(cond: Cond, value: bool)
    | Measure(quantity: Quantity, amount: int)
    | Call(action: Action, ok: bool)
    | Tick
    | Report(status: Status)

  /**
   * The game as an oracle: the answer to each question, the result of each
   * request and whether the host cancels the task, given the log so far.
   */
  datatype Env = Env(
    holds: (seq<Event>, Cond) -> bool,
    count: (seq<Event>, Quantity) -> Int32,
    territory: seq<Event> -> UInt32,
    succeeds: (seq<Event>, Action) -> bool,
    cancelRequested: seq<Event> -> bool)

  /** The answer the game gives to `q` after `log`. */
  function MeasureOf(env: Env, log: seq<Event>, q: Quantity): int
  {
    if q == CurrentTerritory then env.territory(log) else env.count(log, q)
  }

  /** Event `e`, happening after `log`, records what the game answered. */
  ghost predicate Agrees(env: Env, log: seq<Event>, e: Event)
  {
    match e
    case Probe(c, v) => v == env.holds(log, c)
    case Measure(q, n) => n == MeasureOf(env, log, q)
    case Call(a, ok) => ok == env.succeeds(log, a)
    case Tick => true
    case Report(_) => true
  }

  /** Every event of the log records what the game answered at that point. */
  ghost predicate Faithful(env: Env, log: seq<Event>)
  {
    forall i {:trigger Agrees(env, log[..i], log[i])} :: 0 <= i < |log| ==> Agrees(env, log[..i], log[i])
  }

  lemma FaithfulSnoc(env: Env, log: seq<Event>, e: Event)
    requires Faithful(env, log) && Agrees(env, log, e)
    ensures Faithful(env, log + [e])
  {
    var l := log + [e];
    forall i | 0 <= i < |l|
      ensures Agrees(env, l[..i], l[i])
    {
      if i < |log| {
        assert l[..i] == log[..i] && l[i] == log[i];
        assert Agrees(env, log[..i], log[i]);
      } else {
        assert l[..i] == log;
      }
    }
  }

  /**
   * The log holds event `e` at position `from` or later, looked for from the
   * latest event back; `ShowsOccurs` relates it to the position.
   */
  ghost predicate Shows(log: seq<Event>, from: nat, e: Event)
    decreases |log|
  {
    from < |log| && (log[|log| - 1] == e || Shows(log[..|log| - 1], from, e))
  }

  /** Some position from `from` on holds event `e`. */
  ghost predicate Occurs(log: seq<Event>, from: nat, e: Event)
  {
    exists i :: from <= i < |log| && log[i] == e
  }

  lemma {:induction false} ShowsOccurs(log: seq<Event>, from: nat, e: Event)
    decreases |log|
    ensures Shows(log, from, e) <==> Occurs(log, from, e)
  {
    if from < |log| {
      var init := log[..|log| - 1];
      ShowsOccurs(init, from, e);
      if Occurs(log, from, e) && log[|log| - 1] != e {
        var i :| from <= i < |log| && log[i] == e;
        assert init[i] == log[i];
      }
      if Occurs(init, from, e) {
        var i :| from <= i < |init| && init[i] == e;
        assert log[i] == init[i];
      }
    }
  }

  /** From position `from` on, every request in the log is `a`. */
  ghost predicate OnlyCalls(log: seq<Event>, from: nat, a: Action)
  {
    forall i :: from <= i < |log| && log[i].Call? ==> log[i].action == a
  }

  /** From position `from` on, the log holds no request. */
  ghost predicate Quiet(log: seq<Event>, from: nat)
  {
    forall i :: from <= i < |log| ==> !log[i].Call?
  }

  /** A stretch without requests shows no request, so it holds requests of any one kind only. */
  lemma QuietCalls(log: seq<Event>, from: nat, a: Action, e: Event)
    requires Quiet(log, from)
    ensures OnlyCalls(log, from, a)
    ensures e.Call? ==> !Shows(log, from, e)
  {
    ShowsOccurs(log, from, e);
  }

  /** Two stretches without requests make one. */
  lemma QuietJoin(l0: seq<Event>, l1: seq<Event>, from: nat)
    requires Quiet(l0, from) && l0 <= l1 && Quiet(l1, |l0|)
    ensures Quiet(l1, from)
  {
    forall i | from <= i < |l1|
      ensures !l1[i].Call?
    {
      if i < |l0| {
        assert l1[i] == l0[i];
      }
    }
  }

  /** A stretch with requests of `a` only shows no other request. */
  lemma OnlyCallsShow(log: seq<Event>, from: nat, a: Action, e: Event)
    requires OnlyCalls(log, from, a) && e.Call? && e.action != a
    ensures !Shows(log, from, e)
  {
    ShowsOccurs(log, from, e);
  }

  /** Requests of `a` only, followed by more requests of `a` only. */
  lemma CallsJoin(l0: seq<Event>, l1: seq<Event>, from: nat, a: Action)
    requires OnlyCalls(l0, from, a) && l0 <= l1 && from <= |l0| && OnlyCalls(l1, |l0|, a)
    ensures OnlyCalls(l1, from, a)
  {
    forall i | from <= i < |l1| && l1[i].Call?
      ensures l1[i].action == a
    {
      if i < |l0| {
        assert l1[i] == l0[i];
      }
    }
  }

  /** What a log shows from `from` on is what its prefix `l0` shows, and what came after `l0`. */
  lemma ShowsSplit(l0: seq<Event>, l1: seq<Event>, from: nat, e: Event)
    requires l0 <= l1 && from <= |l0|
    ensures Shows(l1, from, e) <==> Shows(l0, from, e) || Shows(l1, |l0|, e)
  {
    ShowsOccurs(l1, from, e);
    ShowsOccurs(l0, from, e);
    ShowsOccurs(l1, |l0|, e);
    if Occurs(l1, from, e) {
      var i :| from <= i < |l1| && l1[i] == e;
      if i < |l0| {
        assert l0[i] == l1[i];
      }
    }
    if Occurs(l0, from, e) {
      var i :| from <= i < |l0| && l0[i] == e;
      assert l1[i] == l0[i];
    }
  }

  /** An event appended to the log is shown from any position up to it. */
  lemma ShowsSnoc(log: seq<Event>, from: nat, e: Event, x: Event)
    requires from <= |log|
    ensures Shows(log + [x], from, e) <==> Shows(log, from, e) || x == e
  {
    assert (log + [x])[..|log|] == log;
  }

  /** Concatenation is associative; stated once so that callers need not prove it by extensionality. */
  lemma ConcatAssoc<T>(a: seq<T>, b: seq<T>, c: seq<T>)
    ensures a + (b + c) == (a + b) + c
  {
  }
}
