/**
 * The crafting delivery: teleport to the NPC's zone, buy the missing
 * ingredients at the vendor, craft the missing items with the crafting
 * plugin, then walk to the turn-in NPC and hand the items in.
 *
 * Every step returns the requests it sent as a ghost result. The workflow
 * as a whole is specified by `CraftRequests`, the requests of a complete
 * run; a run that stops early has sent a prefix of them. The lemmas at the
 * end state what that sequence does and does not contain.
 */
module AutoCraft {
  import opened Ints
  import opened Wrappers
  import opened GameData
  import opened World
  import opened Tasks
  import opened Text
  import opened AutoCommon
  import opened Delivery
  import opened CraftTurnin
  import opened NpcInfo

  const CRAFT_DATA_MISSING := "Craft data is not initialized"

  /** A shop as the error messages name it: the vendor's instance id and the shop id in hexadecimal. */
  function ShopRef(vendorInstanceId: bv64, shopId: UInt32): string
  {
    Hex(vendorInstanceId as int) + "." + Hex(shopId)
  }

  function OpenShopFailed(vendorInstanceId: bv64, shopId: UInt32): string
  {
    "Failed to open shop " + ShopRef(vendorInstanceId, shopId)
  }

  function BuyFailed(vendorInstanceId: bv64, shopId: UInt32, itemId: UInt32, count: int): string
  {
    "Failed to buy " + Decimal(count) + "x " + Decimal(itemId) + " from shop " + ShopRef(vendorInstanceId, shopId)
  }

  function CloseShopFailed(vendorInstanceId: bv64, shopId: UInt32): string
  {
    "Failed to close shop " + ShopRef(vendorInstanceId, shopId)
  }

  function RecipeMissing(itemId: UInt32): string
  {
    "Failed to find recipe for " + Decimal(itemId)
  }

  function CraftFailed(sheets: Sheets, count: int, itemId: UInt32): string
  {
    "Failed to craft " + Decimal(count) + "x " + ItemName(sheets, itemId)
  }

  /** Hexadecimal digits never contain the '.' that separates the two ids. */
  lemma HexHasNoDot(n: nat)
    ensures '.' !in Hex(n)
  {
    assert !IsDigit('.');
  }

  /** In two joinings of the same string, the left part of the first is not the shorter. */
  lemma SeparatorNotEarlier(a1: string, b1: string, a2: string, b2: string, sep: char)
    requires sep !in a2
    requires a1 + [sep] + b1 == a2 + [sep] + b2
    ensures |a1| >= |a2|
  {
    var r := a1 + [sep] + b1;
    assert r[|a1|] == sep;
  }

  /** Two strings joined by a separator that occurs in neither left part split back into the same parts. */
  lemma SplitAtSeparator(a1: string, b1: string, a2: string, b2: string, sep: char)
    requires sep !in a1 && sep !in a2
    requires a1 + [sep] + b1 == a2 + [sep] + b2
    ensures a1 == a2 && b1 == b2
  {
    SeparatorNotEarlier(a1, b1, a2, b2, sep);
    SeparatorNotEarlier(a2, b2, a1, b1, sep);
    var r := a1 + [sep] + b1;
    assert a1 == r[..|a1|];
    assert a2 == r[..|a2|];
    assert b1 == r[|a1| + 1..];
    assert b2 == r[|a2| + 1..];
  }

  /** Different numbers have different hexadecimal forms. */
  lemma HexInjective(m: nat, n: nat)
    requires Hex(m) == Hex(n)
    ensures m == n
  {
    assert m == Value(Hex(m), 16) == Value(Hex(n), 16) == n;
  }

  /** Two ids written in hexadecimal and joined by '.' can be read back. */
  lemma HexPairNames(m1: nat, n1: nat, m2: nat, n2: nat)
    requires Hex(m1) + "." + Hex(n1) == Hex(m2) + "." + Hex(n2)
    ensures m1 == m2 && n1 == n2
  {
    HexHasNoDot(m1);
    HexHasNoDot(m2);
    SplitAtSeparator(Hex(m1), Hex(n1), Hex(m2), Hex(n2), '.');
    HexInjective(m1, m2);
    HexInjective(n1, n2);
  }

  /** The shop reference names the vendor and the shop unambiguously. */
  lemma ShopRefNames(v1: bv64, s1: UInt32, v2: bv64, s2: UInt32)
    requires ShopRef(v1, s1) == ShopRef(v2, s2)
    ensures v1 as int == v2 as int && s1 == s2
  {
    HexPairNames(v1 as int, s1, v2 as int, s2);
  }

  /**
   * The requests of a purchase: open the shop if it was not open, buy,
   * close the shop.
   */
  function Purchase(opening: bool, vendorInstanceId: bv64, shopId: UInt32, itemId: UInt32, count: int): seq<Action>
  {
    (if opening then [OpenShop(vendorInstanceId, shopId)] else []) + [BuyItemFromShop(shopId, itemId, count), CloseShop]
  }

  /**
   * Open the shop unless it is open already, then wait for its window and
   * for the event condition that comes with it.
   */
  method EnsureShopOpen(t: AutoTask, vendorInstanceId: bv64, shopId: UInt32)
    returns (o: Outcome, ghost made: seq<Action>, ghost opening: bool)
    requires t.Valid()
    modifies t`scopes, t`log, t`cancelled, t`framesLeft, t`requests
    ensures Kept(t, old(t.log), old(t.scopes), old(t.cancelled), o)
    ensures o.Done? || o.Aborted? || o.Cancelled? || o.Suspended?
    ensures t.requests == old(t.requests) + made
    ensures opening == !t.env.holds(old(t.log), ShopOpen(shopId))
    ensures made == (if opening then [OpenShop(vendorInstanceId, shopId)] else [])
    ensures o.Aborted? ==>
      opening && o.message == ErrorMessage(t.kind, old(t.scopes), OpenShopFailed(vendorInstanceId, shopId)) &&
      |t.log| > 0 && t.log[|t.log| - 1] == Call(OpenShop(vendorInstanceId, shopId), false)
    ensures Shows(t.log, |old(t.log)|, Call(OpenShop(vendorInstanceId, shopId), false)) ==>
      o == Aborted(ErrorMessage(t.kind, old(t.scopes), OpenShopFailed(vendorInstanceId, shopId)))
    ensures OnlyCalls(t.log, |old(t.log)|, OpenShop(vendorInstanceId, shopId))
  {
    var open := t.Ask(ShopOpen(shopId));
    ghost var lost := Call(OpenShop(vendorInstanceId, shopId), false);
    ShowsSnoc(old(t.log), |old(t.log)|, lost, Probe(ShopOpen(shopId), open));
    opening := !open;
    made := [];
    if open {
      return Done, made, opening;
    }
    ghost var asked := t.log;
    var ok := t.Invoke(OpenShop(vendorInstanceId, shopId));
    ShowsSnoc(asked, |old(t.log)|, lost, Call(OpenShop(vendorInstanceId, shopId), ok));
    made := [OpenShop(vendorInstanceId, shopId)];
    o := t.ErrorIf(!ok, OpenShopFailed(vendorInstanceId, shopId));
    if o.Aborted? {
      return;
    }
    ghost var mid := t.log;
    o := AwaitShop(t, shopId);
    QuietCalls(t.log, |mid|, OpenShop(vendorInstanceId, shopId), Call(OpenShop(vendorInstanceId, shopId), false));
    CallsJoin(mid, t.log, |old(t.log)|, OpenShop(vendorInstanceId, shopId));
    ShowsSplit(mid, t.log, |old(t.log)|, Call(OpenShop(vendorInstanceId, shopId), false));
  }

  /** Wait for the shop window to open and for the event condition that comes with it. */
  method AwaitShop(t: AutoTask, shopId: UInt32) returns (o: Outcome)
    requires t.Valid()
    modifies t`scopes, t`log, t`cancelled, t`framesLeft
    ensures Kept(t, old(t.log), old(t.scopes), old(t.cancelled), o)
    ensures o.Done? || o.Cancelled? || o.Suspended?
    ensures Quiet(t.log, |old(t.log)|)
  {
    o := Await(t, IsNot(ShopOpen(shopId)), "WaitForOpen");
    ChecksAreQuiet(t.log, |old(t.log)|, ShopOpen(shopId));
    if !o.Done? {
      return;
    }
    ghost var mid := t.log;
    o := Await(t, IsNot(OccupiedInEvent), "WaitForCondition");
    ChecksAreQuiet(t.log, |mid|, OccupiedInEvent);
    QuietJoin(mid, t.log, |old(t.log)|);
  }

  /** Wait for the shop window and the event condition to go, and one more frame. */
  method LeaveShop(t: AutoTask) returns (o: Outcome)
    requires t.Valid()
    modifies t`scopes, t`log, t`cancelled, t`framesLeft
    ensures Kept(t, old(t.log), old(t.scopes), old(t.cancelled), o)
    ensures o.Done? || o.Cancelled? || o.Suspended?
    ensures Quiet(t.log, |old(t.log)|)
  {
    o := Await(t, Is(AnyShopOpen), "WaitForClose");
    ChecksAreQuiet(t.log, |old(t.log)|, AnyShopOpen);
    if !o.Done? {
      return;
    }
    ghost var mid := t.log;
    o := Await(t, Is(OccupiedInEvent), "WaitForCondition");
    ChecksAreQuiet(t.log, |mid|, OccupiedInEvent);
    QuietJoin(mid, t.log, |old(t.log)|);
    if !o.Done? {
      return;
    }
    o := t.NextFrame();
  }

  /**
   * Close the shop, wait for its window and the event condition to go, and
   * wait one more frame.
   */
  method CloseAndLeave(t: AutoTask, vendorInstanceId: bv64, shopId: UInt32) returns (o: Outcome)
    requires t.Valid()
    modifies t`scopes, t`log, t`cancelled, t`framesLeft, t`requests
    ensures Kept(t, old(t.log), old(t.scopes), old(t.cancelled), o)
    ensures o.Done? || o.Aborted? || o.Cancelled? || o.Suspended?
    ensures t.requests == old(t.requests) + [CloseShop]
    ensures o.Aborted? ==>
      o.message == ErrorMessage(t.kind, old(t.scopes), CloseShopFailed(vendorInstanceId, shopId)) &&
      |t.log| > 0 && t.log[|t.log| - 1] == Call(CloseShop, false)
    ensures Shows(t.log, |old(t.log)|, Call(CloseShop, false)) ==>
      o == Aborted(ErrorMessage(t.kind, old(t.scopes), CloseShopFailed(vendorInstanceId, shopId)))
    ensures OnlyCalls(t.log, |old(t.log)|, CloseShop)
    ensures !Shows(t.log, |old(t.log)|, Call(OpenShop(vendorInstanceId, shopId), false))
  {
    var closed := t.Invoke(CloseShop);
    ShowsSnoc(old(t.log), |old(t.log)|, Call(CloseShop, false), Call(CloseShop, closed));
    ShowsSnoc(old(t.log), |old(t.log)|, Call(OpenShop(vendorInstanceId, shopId), false), Call(CloseShop, closed));
    o := t.ErrorIf(!closed, CloseShopFailed(vendorInstanceId, shopId));
    if o.Aborted? {
      return;
    }
    ghost var mid := t.log;
    o := LeaveShop(t);
    QuietCalls(t.log, |mid|, CloseShop, Call(CloseShop, false));
    QuietCalls(t.log, |mid|, CloseShop, Call(OpenShop(vendorInstanceId, shopId), false));
    ShowsSplit(mid, t.log, |old(t.log)|, Call(OpenShop(vendorInstanceId, shopId), false));
    CallsJoin(mid, t.log, |old(t.log)|, CloseShop);
    ShowsSplit(mid, t.log, |old(t.log)|, Call(CloseShop, false));
  }

  /** Buy from the open shop and wait for the transaction to finish. */
  method PlaceOrder(t: AutoTask, vendorInstanceId: bv64, shopId: UInt32, itemId: UInt32, count: int) returns (o: Outcome)
    requires t.Valid()
    modifies t`scopes, t`log, t`cancelled, t`framesLeft, t`requests
    ensures Kept(t, old(t.log), old(t.scopes), old(t.cancelled), o)
    ensures o.Done? || o.Aborted? || o.Cancelled? || o.Suspended?
    ensures t.requests == old(t.requests) + [BuyItemFromShop(shopId, itemId, count)]
    ensures o.Aborted? ==>
      o.message == ErrorMessage(t.kind, old(t.scopes), BuyFailed(vendorInstanceId, shopId, itemId, count)) &&
      |t.log| > 0 && t.log[|t.log| - 1] == Call(BuyItemFromShop(shopId, itemId, count), false)
    ensures Shows(t.log, |old(t.log)|, Call(BuyItemFromShop(shopId, itemId, count), false)) ==>
      o == Aborted(ErrorMessage(t.kind, old(t.scopes), BuyFailed(vendorInstanceId, shopId, itemId, count)))
    ensures OnlyCalls(t.log, |old(t.log)|, BuyItemFromShop(shopId, itemId, count))
    ensures !Shows(t.log, |old(t.log)|, Call(OpenShop(vendorInstanceId, shopId), false))
  {
    var bought := t.Invoke(BuyItemFromShop(shopId, itemId, count));
    ShowsSnoc(old(t.log), |old(t.log)|, Call(BuyItemFromShop(shopId, itemId, count), false), Call(BuyItemFromShop(shopId, itemId, count), bought));
    ShowsSnoc(old(t.log), |old(t.log)|, Call(OpenShop(vendorInstanceId, shopId), false), Call(BuyItemFromShop(shopId, itemId, count), bought));
    o := t.ErrorIf(!bought, BuyFailed(vendorInstanceId, shopId, itemId, count));
    if o.Aborted? {
      return;
    }
    ghost var mid := t.log;
    o := AwaitTransaction(t, shopId);
    QuietCalls(t.log, |mid|, BuyItemFromShop(shopId, itemId, count), Call(BuyItemFromShop(shopId, itemId, count), false));
    QuietCalls(t.log, |mid|, BuyItemFromShop(shopId, itemId, count), Call(OpenShop(vendorInstanceId, shopId), false));
    CallsJoin(mid, t.log, |old(t.log)|, BuyItemFromShop(shopId, itemId, count));
    ShowsSplit(mid, t.log, |old(t.log)|, Call(BuyItemFromShop(shopId, itemId, count), false));
    ShowsSplit(mid, t.log, |old(t.log)|, Call(OpenShop(vendorInstanceId, shopId), false));
  }

  /** Wait for the shop transaction to finish. */
  method AwaitTransaction(t: AutoTask, shopId: UInt32) returns (o: Outcome)
    requires t.Valid()
    modifies t`scopes, t`log, t`cancelled, t`framesLeft
    ensures Kept(t, old(t.log), old(t.scopes), old(t.cancelled), o)
    ensures o.Done? || o.Cancelled? || o.Suspended?
    ensures Quiet(t.log, |old(t.log)|)
  {
    o := Await(t, Is(ShopTransactionInProgress(shopId)), "Transaction");
    ChecksAreQuiet(t.log, |old(t.log)|, ShopTransactionInProgress(shopId));
  }

  /**
   * With the shop open: buy, wait for the transaction, then close the shop
   * and leave it.
   */
  method Trade(t: AutoTask, vendorInstanceId: bv64, shopId: UInt32, itemId: UInt32, count: int)
    returns (o: Outcome, ghost made: seq<Action>)
    requires t.Valid()
    modifies t`scopes, t`log, t`cancelled, t`framesLeft, t`requests
    ensures Kept(t, old(t.log), old(t.scopes), old(t.cancelled), o)
    ensures o.Done? || o.Aborted? || o.Cancelled? || o.Suspended?
    ensures t.requests == old(t.requests) + made
    ensures made == [BuyItemFromShop(shopId, itemId, count)] || made == [BuyItemFromShop(shopId, itemId, count), CloseShop]
    ensures o.Done? ==> made == [BuyItemFromShop(shopId, itemId, count), CloseShop]
    ensures o.Aborted? ==>
      |t.log| > 0 &&
      (if |made| == 1 then
         o.message == ErrorMessage(t.kind, old(t.scopes), BuyFailed(vendorInstanceId, shopId, itemId, count)) &&
         t.log[|t.log| - 1] == Call(BuyItemFromShop(shopId, itemId, count), false)
       else
         o.message == ErrorMessage(t.kind, old(t.scopes), CloseShopFailed(vendorInstanceId, shopId)) &&
         t.log[|t.log| - 1] == Call(CloseShop, false))
    ensures Shows(t.log, |old(t.log)|, Call(BuyItemFromShop(shopId, itemId, count), false)) ==>
      o == Aborted(ErrorMessage(t.kind, old(t.scopes), BuyFailed(vendorInstanceId, shopId, itemId, count)))
    ensures Shows(t.log, |old(t.log)|, Call(CloseShop, false)) ==>
      o == Aborted(ErrorMessage(t.kind, old(t.scopes), CloseShopFailed(vendorInstanceId, shopId)))
    ensures !Shows(t.log, |old(t.log)|, Call(OpenShop(vendorInstanceId, shopId), false))
  {
    o := PlaceOrder(t, vendorInstanceId, shopId, itemId, count);
    OnlyCallsShow(t.log, |old(t.log)|, BuyItemFromShop(shopId, itemId, count), Call(CloseShop, false));
    made := [BuyItemFromShop(shopId, itemId, count)];
    if !o.Done? {
      return;
    }
    ConcatAssoc(old(t.requests), made, [CloseShop]);
    ghost var mid := t.log;
    o := CloseAndLeave(t, vendorInstanceId, shopId);
    made := made + [CloseShop];
    TradeEvidence(mid, t.log, |old(t.log)|, BuyItemFromShop(shopId, itemId, count), OpenShop(vendorInstanceId, shopId));
  }

  /**
   * After buying (only purchase calls) and closing (only closing calls), a
   * failed purchase can only have come from the buying part, a failed
   * closing only from the closing part, and a failed opening from neither.
   */
  lemma TradeEvidence(mid: seq<Event>, log: seq<Event>, from: nat, buy: Action, open: Action)
    requires from <= |mid| && mid <= log
    requires buy != CloseShop && open != CloseShop
    requires OnlyCalls(mid, from, buy) && OnlyCalls(log, |mid|, CloseShop)
    requires !Shows(mid, from, Call(open, false))
    ensures Shows(log, from, Call(buy, false)) <==> Shows(mid, from, Call(buy, false))
    ensures Shows(log, from, Call(CloseShop, false)) <==> Shows(log, |mid|, Call(CloseShop, false))
    ensures !Shows(log, from, Call(open, false))
  {
    OnlyCallsShow(log, |mid|, CloseShop, Call(buy, false));
    OnlyCallsShow(log, |mid|, CloseShop, Call(open, false));
    OnlyCallsShow(mid, from, buy, Call(CloseShop, false));
    ShowsSplit(mid, log, from, Call(buy, false));
    ShowsSplit(mid, log, from, Call(CloseShop, false));
    ShowsSplit(mid, log, from, Call(open, false));
  }

  /** Opening the shop shows no failed purchase and no failed closing. */
  lemma QuietOpening(log: seq<Event>, from: nat, vendorInstanceId: bv64, shopId: UInt32, itemId: UInt32, count: int)
    requires OnlyCalls(log, from, OpenShop(vendorInstanceId, shopId))
    ensures !Shows(log, from, Call(BuyItemFromShop(shopId, itemId, count), false))
    ensures !Shows(log, from, Call(CloseShop, false))
  {
    OnlyCallsShow(log, from, OpenShop(vendorInstanceId, shopId), Call(BuyItemFromShop(shopId, itemId, count), false));
    OnlyCallsShow(log, from, OpenShop(vendorInstanceId, shopId), Call(CloseShop, false));
  }

  /**
   * Buy `count` of `itemId` at the vendor's shop, in a scope "Buy": open the
   * shop if needed, buy, close it. The requests sent are those of
   * `Purchase`, all of them when the purchase completes.
   */
  method BuyFromShop(t: AutoTask, vendorInstanceId: bv64, shopId: UInt32, itemId: UInt32, count: int)
    returns (o: Outcome, ghost made: seq<Action>, ghost opening: bool)
    requires t.Valid()
    modifies t`scopes, t`log, t`cancelled, t`framesLeft, t`requests
    ensures Kept(t, old(t.log), old(t.scopes), old(t.cancelled), o)
    ensures o.Done? || o.Aborted? || o.Cancelled? || o.Suspended?
    ensures t.requests == old(t.requests) + made
    ensures opening == !t.env.holds(old(t.log), ShopOpen(shopId))
    ensures made <= Purchase(opening, vendorInstanceId, shopId, itemId, count)
    ensures o.Done? ==> made == Purchase(opening, vendorInstanceId, shopId, itemId, count)
    ensures o.Aborted? ==>
      var path := old(t.scopes) + ["Buy"];
      o.message == ErrorMessage(t.kind, path, OpenShopFailed(vendorInstanceId, shopId)) ||
      o.message == ErrorMessage(t.kind, path, BuyFailed(vendorInstanceId, shopId, itemId, count)) ||
      o.message == ErrorMessage(t.kind, path, CloseShopFailed(vendorInstanceId, shopId))
    ensures Shows(t.log, |old(t.log)|, Call(OpenShop(vendorInstanceId, shopId), false)) ==>
      o == Aborted(ErrorMessage(t.kind, old(t.scopes) + ["Buy"], OpenShopFailed(vendorInstanceId, shopId)))
    ensures Shows(t.log, |old(t.log)|, Call(BuyItemFromShop(shopId, itemId, count), false)) ==>
      o == Aborted(ErrorMessage(t.kind, old(t.scopes) + ["Buy"], BuyFailed(vendorInstanceId, shopId, itemId, count)))
    ensures Shows(t.log, |old(t.log)|, Call(CloseShop, false)) ==>
      o == Aborted(ErrorMessage(t.kind, old(t.scopes) + ["Buy"], CloseShopFailed(vendorInstanceId, shopId)))
  {
    var sc := t.BeginScope("Buy");
    o, made, opening := EnsureShopOpen(t, vendorInstanceId, shopId);
    QuietOpening(t.log, |old(t.log)|, vendorInstanceId, shopId, itemId, count);
    ghost var rest := [BuyItemFromShop(shopId, itemId, count), CloseShop];
    if !o.Done? {
      PrefixExtend(made, made, rest);
      if !o.Suspended? {
        t.EndScope(sc);
      }
      return;
    }
    ghost var traded;
    ghost var mid := t.log;
    o, traded := Trade(t, vendorInstanceId, shopId, itemId, count);
    ShowsSplit(mid, t.log, |old(t.log)|, Call(OpenShop(vendorInstanceId, shopId), false));
    ShowsSplit(mid, t.log, |old(t.log)|, Call(BuyItemFromShop(shopId, itemId, count), false));
    ShowsSplit(mid, t.log, |old(t.log)|, Call(CloseShop, false));
    PrefixAfterOpening(made, rest, traded);
    ConcatAssoc(old(t.requests), made, traded);
    made := made + traded;
    if !o.Suspended? {
      t.EndScope(sc);
    }
  }

  /** The recipe id of the item, 0 where the lookup throws. */
  function RecipeOf(sheets: Sheets, player: Option<Player>, itemId: UInt32): UInt32
  {
    match GetRecipeId(sheets, player, itemId)
    case Ok(id) => id
    case Err(_) => 0
  }

  /** The requests of a craft: start the crafting plugin on the recipe (its id cast to `ushort`), then leave crafting mode. */
  function Crafted(recipe: UInt32, count: int): seq<Action>
  {
    [ArtisanCraft(recipe % 0x1_0000, count), ExitCrafting]
  }

  /**
   * Start the crafting plugin on `recipe` and wait for it to start, to
   * finish, and for the crafting log to come back.
   */
  method StartCraft(t: AutoTask, recipe: UInt32, count: int) returns (o: Outcome, ghost made: seq<Action>)
    requires t.Valid()
    modifies t`scopes, t`log, t`cancelled, t`framesLeft, t`requests
    ensures Kept(t, old(t.log), old(t.scopes), old(t.cancelled), o)
    ensures o.Done? || o.Cancelled? || o.Suspended?
    ensures t.requests == old(t.requests) + made
    ensures made == [ArtisanCraft(recipe % 0x1_0000, count)]
  {
    var _ := t.Invoke(ArtisanCraft(recipe % 0x1_0000, count));
    made := [ArtisanCraft(recipe % 0x1_0000, count)];
    o := Await(t, IsNot(ArtisanInProgress), "WaitStart");
    if !o.Done? {
      return;
    }
    o := Await(t, Is(ArtisanInProgress), "WaitProgress");
    if !o.Done? {
      return;
    }
    o := Await(t, IsNot(PreparingToCraft), "WaitFinish");
  }

  /**
   * After a craft: check that the inventory holds `finalCount` items, wait a
   * frame, leave crafting mode and wait for it to close. `stock` is the
   * count the game reported.
   */
  method FinishCraft(t: AutoTask, sheets: Sheets, itemId: UInt32, count: int, finalCount: int)
    returns (o: Outcome, stock: int, ghost made: seq<Action>)
    requires t.Valid()
    modifies t`scopes, t`log, t`cancelled, t`framesLeft, t`requests
    ensures Kept(t, old(t.log), old(t.scopes), old(t.cancelled), o)
    ensures o.Done? || o.Aborted? || o.Cancelled? || o.Suspended?
    ensures t.requests == old(t.requests) + made
    ensures stock == MeasureOf(t.env, old(t.log), ItemsInInventory(itemId, 1))
    ensures o.Aborted? <==> stock < finalCount
    ensures o.Aborted? ==> made == [] && o.message == ErrorMessage(t.kind, old(t.scopes), CraftFailed(sheets, count, itemId))
    ensures made <= [ExitCrafting]
    ensures o.Done? ==> made == [ExitCrafting]
  {
    made := [];
    stock := t.Read(ItemsInInventory(itemId, 1));
    o := t.ErrorIf(stock < finalCount, CraftFailed(sheets, count, itemId));
    if o.Aborted? {
      return;
    }
    o := t.NextFrame();
    if !o.Done? {
      return;
    }
    var _ := t.Invoke(ExitCrafting);
    made := [ExitCrafting];
    o := Await(t, Is(Crafting), "WaitCraftClose");
  }

  /**
   * Craft `count` of `itemId` with the crafting plugin, in a scope "Craft",
   * and check that the inventory then holds `finalCount` of them. Without a
   * local player the recipe lookup throws; without a recipe the step aborts
   * before sending anything.
   */
  method CraftItem(t: AutoTask, sheets: Sheets, player: Option<Player>, itemId: UInt32, count: int, finalCount: int)
    returns (o: Outcome, stock: int, ghost made: seq<Action>)
    requires t.Valid()
    modifies t`scopes, t`log, t`cancelled, t`framesLeft, t`requests
    ensures Kept(t, old(t.log), old(t.scopes), old(t.cancelled), o)
    ensures o.Done? || o.Aborted? || o.Failed? || o.Cancelled? || o.Suspended?
    ensures t.requests == old(t.requests) + made
    ensures player.None? ==> o == Failed(NoLocalPlayer) && made == []
    ensures player.Some? && RecipeOf(sheets, player, itemId) == 0 ==>
      o == Aborted(ErrorMessage(t.kind, old(t.scopes) + ["Craft"], RecipeMissing(itemId))) && made == []
    ensures made <= Crafted(RecipeOf(sheets, player, itemId), count)
    ensures made != [] ==> player.Some? && RecipeOf(sheets, player, itemId) != 0
    ensures o.Done? ==> made == Crafted(RecipeOf(sheets, player, itemId), count) && stock >= finalCount
    ensures o.Aborted? && made != [] ==>
      o.message == ErrorMessage(t.kind, old(t.scopes) + ["Craft"], CraftFailed(sheets, count, itemId)) && stock < finalCount
  {
    var sc := t.BeginScope("Craft");
    made := [];
    stock := 0;
    var recipe := GetRecipeId(sheets, player, itemId);
    if recipe.Err? {
      t.EndScope(sc);
      return Failed(recipe.fault), stock, made;
    }
    o := t.ErrorIf(recipe.value == 0, RecipeMissing(itemId));
    if o.Aborted? {
      t.EndScope(sc);
      return;
    }
    o, made := StartCraft(t, recipe.value, count);
    if !o.Done? {
      if !o.Suspended? {
        t.EndScope(sc);
      }
      return;
    }
    ghost var exited;
    o, stock, exited := FinishCraft(t, sheets, itemId, count, finalCount);
    ConcatAssoc(old(t.requests), made, exited);
    made := made + exited;
    if !o.Suspended? {
      t.EndScope(sc);
    }
  }

  /** `remainingTurnins - NumItemsInInventory(...)`, in `int` arithmetic. */
  function CraftsNeeded(remaining: int, inStock: int): (r: Int32)
    ensures MIN_INT32 <= remaining - inStock <= MAX_INT32 ==> r == remaining - inStock
    ensures 0 < remaining <= MAX_INT32 && 0 <= inStock <= MAX_INT32 ==> r == remaining - inStock
  {
    WrapInt32(remaining - inStock)
  }

  /** `ingredient.count * remainingCrafts - NumItemsInInventory(...)`, in `int` arithmetic. */
  function IngredientsMissing(perCraft: int, crafts: int, have: int): (r: Int32)
    ensures 0 <= perCraft * crafts <= MAX_INT32 && 0 <= have <= MAX_INT32 ==> r == perCraft * crafts - have
  {
    WrapInt32(WrapInt32(perCraft * crafts) - have)
  }

  /**
   * When nothing overflows, the ingredients in stock and the ones bought
   * cover what the crafts use: buying `missing` when it is positive, and
   * nothing otherwise, leaves at least `perCraft * crafts` of them.
   */
  lemma PlanCovers(perCraft: int, crafts: int, have: int)
    requires 0 <= perCraft * crafts <= MAX_INT32 && 0 <= have <= MAX_INT32
    ensures var missing := IngredientsMissing(perCraft, crafts, have);
      have + (if missing > 0 then missing else 0) >= perCraft * crafts &&
      (missing > 0 ==> have + missing == perCraft * crafts)
  {
  }

  /** What the inventory held, and what the workflow decided from it. */
  datatype Plan = Plan(inStock: int, crafts: Int32, ingredient: Ingredient, ingredientStock: int, missing: Int32)

  /**
   * `p` is the plan the game's answers lead to: the items in stock were
   * read after `log0`, the ingredient count right after that when crafts
   * are needed and the ingredient lookup succeeds.
   */
  ghost predicate Planned(p: Plan, env: Env, log0: seq<Event>, sheets: Sheets, player: Option<Player>, itemId: UInt32, remaining: int)
  {
    p.inStock == MeasureOf(env, log0, ItemsInInventory(itemId, 1)) &&
    p.crafts == CraftsNeeded(remaining, p.inStock) &&
    (p.crafts > 0 && GetCraftIngredient(sheets, player, itemId).Ok? ==>
      p.ingredient == GetCraftIngredient(sheets, player, itemId).value &&
      p.ingredientStock ==
        MeasureOf(env, log0 + [Measure(ItemsInInventory(itemId, 1), p.inStock)], ItemsInInventory(p.ingredient.id, 0)) &&
      p.missing == IngredientsMissing(p.ingredient.count, p.crafts, p.ingredientStock))
  }

  /** Read the inventory and work out how many items to craft and ingredients to buy. */
  method ReadPlan(t: AutoTask, sheets: Sheets, player: Option<Player>, itemId: UInt32, remaining: int)
    returns (p: Plan, ingredient: Result<Ingredient>)
    requires t.Valid()
    modifies t`log
    ensures t.Valid() && old(t.log) <= t.log
    ensures Planned(p, t.env, old(t.log), sheets, player, itemId, remaining)
    ensures p.crafts > 0 ==> ingredient == GetCraftIngredient(sheets, player, itemId)
  {
    var inStock := t.Read(ItemsInInventory(itemId, 1));
    var crafts := CraftsNeeded(remaining, inStock);
    p := Plan(inStock, crafts, Ingredient(0, 0), 0, 0);
    ingredient := Ok(Ingredient(0, 0));
    if crafts <= 0 {
      return;
    }
    ingredient := GetCraftIngredient(sheets, player, itemId);
    if ingredient.Err? {
      return;
    }
    var have := t.Read(ItemsInInventory(ingredient.value.id, 0));
    p := Plan(inStock, crafts, ingredient.value, have, IngredientsMissing(ingredient.value.count, crafts, have));
  }

  /** Where the crafting delivery takes place, as found in the zone's layout. */
  datatype Sites = Sites(vendorInstanceId: bv64, vendorLocation: Vec3, vendorShopId: UInt32,
                         turnInInstanceId: bv64, turnInLocation: Vec3)

  function SitesOf(cd: CraftData): Sites
    reads cd
  {
    Sites(cd.vendorInstanceId, cd.vendorLocation, cd.vendorShopId, cd.turnInInstanceId, cd.turnInLocation)
  }

  /** The requests of stocking up on the ingredient: walk to the vendor if needed, then buy. */
  function StockRequests(p: Plan, walked: bool, opening: bool, sites: Sites): seq<Action>
  {
    WalkRequests(walked, sites.vendorLocation) +
    Purchase(opening, sites.vendorInstanceId, sites.vendorShopId, p.ingredient.id, p.missing)
  }

  /** The requests of the preparation: stock up when ingredients are missing, then craft; nothing when no craft is needed. */
  function PrepRequests(p: Plan, walked: bool, opening: bool, sites: Sites, recipe: UInt32): seq<Action>
  {
    if p.crafts <= 0 then []
    else (if p.missing > 0 then StockRequests(p, walked, opening, sites) else []) + Crafted(recipe, p.crafts)
  }

  /** The status lines of the preparation. */
  function PrepStatuses(p: Plan, itemId: UInt32): seq<Status>
  {
    if p.crafts <= 0 then []
    else (if p.missing > 0 then [Buying(p.missing, p.ingredient.id)] else []) + [CraftingItems(p.crafts, itemId)]
  }

  /** Show that ingredients are being bought, walk to the vendor and buy the missing ingredients. */
  method StockUp(t: AutoTask, p: Plan, sites: Sites)
    returns (o: Outcome, ghost made: seq<Action>, ghost walked: bool, ghost opening: bool)
    requires t.Valid()
    modifies t`status, t`scopes, t`log, t`cancelled, t`framesLeft, t`requests, t`reports
    ensures Kept(t, old(t.log), old(t.scopes), old(t.cancelled), o)
    ensures o.Done? || o.Aborted? || o.Cancelled? || o.Suspended?
    ensures t.requests == old(t.requests) + made
    ensures t.reports == old(t.reports) + [Buying(p.missing, p.ingredient.id)]
    ensures walked ==> !t.env.holds(old(t.log) + [Report(Buying(p.missing, p.ingredient.id))], PlayerInRange(sites.vendorLocation, 3.0))
    ensures o.Done? ==>
      (walked <==> !t.env.holds(old(t.log) + [Report(Buying(p.missing, p.ingredient.id))], PlayerInRange(sites.vendorLocation, 3.0)))
    ensures made <= StockRequests(p, walked, opening, sites)
    ensures o.Done? ==> made == StockRequests(p, walked, opening, sites)
  {
    t.SetStatus(Buying(p.missing, p.ingredient.id));
    ghost var at, bought;
    o, made, at := MoveTo(t, sites.vendorLocation, 3.0);
    walked := made != [];
    opening := false;
    WalkPrefixes(sites.vendorLocation);
    if !o.Done? {
      PrefixExtend(made, WalkRequests(walked, sites.vendorLocation),
        Purchase(opening, sites.vendorInstanceId, sites.vendorShopId, p.ingredient.id, p.missing));
      return;
    }
    o, bought, opening := BuyFromShop(t, sites.vendorInstanceId, sites.vendorShopId, p.ingredient.id, p.missing);
    PrefixAfterOpening(made, Purchase(opening, sites.vendorInstanceId, sites.vendorShopId, p.ingredient.id, p.missing), bought);
    ConcatAssoc(old(t.requests), made, bought);
    made := made + bought;
  }

  /** Show that the items are being crafted, then craft them. */
  method CraftPhase(t: AutoTask, sheets: Sheets, player: Option<Player>, itemId: UInt32, crafts: Int32, remaining: int)
    returns (o: Outcome, ghost made: seq<Action>)
    requires t.Valid()
    modifies t`status, t`scopes, t`log, t`cancelled, t`framesLeft, t`requests, t`reports
    ensures Kept(t, old(t.log), old(t.scopes), old(t.cancelled), o)
    ensures o.Done? || o.Aborted? || o.Failed? || o.Cancelled? || o.Suspended?
    ensures t.requests == old(t.requests) + made
    ensures t.reports == old(t.reports) + [CraftingItems(crafts, itemId)]
    ensures made <= Crafted(RecipeOf(sheets, player, itemId), crafts)
    ensures o.Done? ==> made == Crafted(RecipeOf(sheets, player, itemId), crafts)
  {
    t.SetStatus(CraftingItems(crafts, itemId));
    var stock;
    o, stock, made := CraftItem(t, sheets, player, itemId, crafts, remaining);
  }

  /** Buy the missing ingredients when any are missing, then craft. */
  method Produce(t: AutoTask, sheets: Sheets, player: Option<Player>, itemId: UInt32, remaining: int, p: Plan, sites: Sites)
    returns (o: Outcome, ghost made: seq<Action>, ghost shown: seq<Status>, ghost walked: bool, ghost opening: bool)
    requires t.Valid() && p.crafts > 0
    modifies t`status, t`scopes, t`log, t`cancelled, t`framesLeft, t`requests, t`reports
    ensures Kept(t, old(t.log), old(t.scopes), old(t.cancelled), o)
    ensures o.Done? || o.Aborted? || o.Failed? || o.Cancelled? || o.Suspended?
    ensures t.requests == old(t.requests) + made
    ensures t.reports == old(t.reports) + shown
    ensures made <= PrepRequests(p, walked, opening, sites, RecipeOf(sheets, player, itemId))
    ensures shown <= PrepStatuses(p, itemId)
    ensures o.Done? ==> made == PrepRequests(p, walked, opening, sites, RecipeOf(sheets, player, itemId))
    ensures o.Done? ==> shown == PrepStatuses(p, itemId)
  {
    ghost var craft := Crafted(RecipeOf(sheets, player, itemId), p.crafts);
    ghost var status := [CraftingItems(p.crafts, itemId)];
    made, shown, walked, opening := [], [], false, false;
    if p.missing > 0 {
      o, made, walked, opening := StockUp(t, p, sites);
      shown := [Buying(p.missing, p.ingredient.id)];
      if !o.Done? {
        PrefixExtend(made, StockRequests(p, walked, opening, sites), craft);
        PrefixExtend(shown, shown, status);
        return;
      }
    }
    ghost var crafted;
    ConcatAssoc(old(t.reports), shown, status);
    o, crafted := CraftPhase(t, sheets, player, itemId, p.crafts, remaining);
    shown := shown + status;
    PrefixAfterOpening(made, craft, crafted);
    ConcatAssoc(old(t.requests), made, crafted);
    made := made + crafted;
  }

  /**
   * The preparation of a crafting delivery, once in the zone: read the
   * inventory, and when items are missing buy the missing ingredients
   * (when any are) and craft the missing items.
   */
  method Prepare(t: AutoTask, sheets: Sheets, player: Option<Player>, itemId: UInt32, remaining: int, sites: Sites)
    returns (o: Outcome, p: Plan, ghost made: seq<Action>, ghost shown: seq<Status>, ghost walked: bool, ghost opening: bool)
    requires t.Valid()
    modifies t`status, t`scopes, t`log, t`cancelled, t`framesLeft, t`requests, t`reports
    ensures Kept(t, old(t.log), old(t.scopes), old(t.cancelled), o)
    ensures o.Done? || o.Aborted? || o.Failed? || o.Cancelled? || o.Suspended?
    ensures t.requests == old(t.requests) + made
    ensures t.reports == old(t.reports) + shown
    ensures Planned(p, t.env, old(t.log), sheets, player, itemId, remaining)
    ensures p.crafts > 0 && GetCraftIngredient(sheets, player, itemId).Err? ==>
      o == Failed(MissingRow) && made == [] && shown == []
    ensures made <= PrepRequests(p, walked, opening, sites, RecipeOf(sheets, player, itemId))
    ensures shown <= PrepStatuses(p, itemId)
    ensures o.Done? ==> made == PrepRequests(p, walked, opening, sites, RecipeOf(sheets, player, itemId))
    ensures o.Done? ==> shown == PrepStatuses(p, itemId)
  {
    var ingredient;
    p, ingredient := ReadPlan(t, sheets, player, itemId, remaining);
    made, shown, walked, opening := [], [], false, false;
    if p.crafts <= 0 {
      return Done, p, made, shown, walked, opening;
    }
    if ingredient.Err? {
      return Failed(ingredient.fault), p, made, shown, walked, opening;
    }
    o, made, shown, walked, opening := Produce(t, sheets, player, itemId, remaining, p, sites);
  }

  /** The first turn-in item, where `TurnInItems[0]` does not throw. */
  function FirstItem(items: seq<UInt32>): UInt32
  {
    if |items| > 0 then items[0] else 0
  }

  /** The deliveries of slot 0 still open this week, as the game reports them after `log`. */
  function RemainingOf(env: Env, log: seq<Event>): Int32
  {
    env.count(log, RemainingTurnins(0))
  }

  /**
   * What the game's answers decided along a run: whether a teleport was
   * needed, whether each walk was needed, whether the shop had to be
   * opened and the NPC interacted with.
   */
  datatype Route = Route(teleported: bool, walkedToVendor: bool, openedShop: bool, walkedToNpc: bool, interacted: bool)

  /** The requests of a run once in the zone: the preparation, then the closing phase from slot 0. */
  function VisitRequests(p: Plan, route: Route, sites: Sites, recipe: UInt32, remaining: Int32): seq<Action>
  {
    PrepRequests(p, route.walkedToVendor, route.openedShop, sites, recipe) +
    DeliveryRequests(route.walkedToNpc, route.interacted, sites.turnInLocation, sites.turnInInstanceId, 0, remaining)
  }

  /** The requests of a whole crafting delivery. */
  function CraftRequests(p: Plan, route: Route, sites: Sites, recipe: UInt32, remaining: Int32): seq<Action>
  {
    TeleportRequests(route.teleported, ClosestTo(sites.vendorLocation)) + VisitRequests(p, route, sites, recipe, remaining)
  }

  /** The status lines of a whole crafting delivery. */
  function CraftStatuses(p: Plan, itemId: UInt32, remaining: Int32): seq<Status>
  {
    [TeleportingToZone] + (PrepStatuses(p, itemId) + [TurningIn(remaining, itemId)])
  }

  /** The plan follows from the inventory counts it holds, the sheets and the remaining deliveries. */
  ghost predicate PlanFollows(p: Plan, sheets: Sheets, player: Option<Player>, itemId: UInt32, remaining: int)
  {
    p.crafts == CraftsNeeded(remaining, p.inStock) &&
    (p.crafts > 0 && GetCraftIngredient(sheets, player, itemId).Ok? ==>
      p.ingredient == GetCraftIngredient(sheets, player, itemId).value &&
      p.missing == IngredientsMissing(p.ingredient.count, p.crafts, p.ingredientStock))
  }

  /** Once in the zone: prepare, then turn the items in from slot 0. */
  method Visit(t: AutoTask, sheets: Sheets, player: Option<Player>, npcIndex: Int32, itemId: UInt32, remaining: Int32, sites: Sites)
    returns (o: Outcome, p: Plan, ghost made: seq<Action>, ghost shown: seq<Status>, ghost route: Route)
    requires t.Valid()
    modifies t`status, t`scopes, t`log, t`cancelled, t`framesLeft, t`requests, t`talksAdvanced, t`reports
    ensures Kept(t, old(t.log), old(t.scopes), old(t.cancelled), o)
    ensures o.Done? || o.Aborted? || o.Failed? || o.Cancelled? || o.Suspended?
    ensures t.requests == old(t.requests) + made
    ensures t.reports == old(t.reports) + shown
    ensures Planned(p, t.env, old(t.log), sheets, player, itemId, remaining)
    ensures !route.teleported
    ensures made <= VisitRequests(p, route, sites, RecipeOf(sheets, player, itemId), remaining)
    ensures shown <= PrepStatuses(p, itemId) + [TurningIn(remaining, itemId)]
    ensures o.Done? ==> made == VisitRequests(p, route, sites, RecipeOf(sheets, player, itemId), remaining)
    ensures o.Done? ==> shown == PrepStatuses(p, itemId) + [TurningIn(remaining, itemId)]
  {
    ghost var walked, opening, delivered, walkedToNpc, interacted;
    o, p, made, shown, walked, opening := Prepare(t, sheets, player, itemId, remaining, sites);
    route := Route(false, walked, opening, false, false);
    ghost var prep := PrepRequests(p, walked, opening, sites, RecipeOf(sheets, player, itemId));
    ghost var closing := [TurningIn(remaining, itemId)];
    if !o.Done? {
      PrefixExtend(made, prep, DeliveryRequests(false, false, sites.turnInLocation, sites.turnInInstanceId, 0, remaining));
      PrefixExtend(shown, PrepStatuses(p, itemId), closing);
      return;
    }
    ConcatAssoc(old(t.reports), shown, closing);
    o, delivered, walkedToNpc, interacted := Deliver(t, npcIndex, sites.turnInInstanceId, sites.turnInLocation, itemId, 0, remaining);
    route := route.(walkedToNpc := walkedToNpc, interacted := interacted);
    shown := shown + closing;
    PrefixAfterOpening(made, DeliveryRequests(walkedToNpc, interacted, sites.turnInLocation, sites.turnInInstanceId, 0, remaining), delivered);
    ConcatAssoc(old(t.requests), made, delivered);
    made := made + delivered;
  }

  /**
   * In the NPC's zone: teleport there (to the aetheryte closest to the
   * vendor), then look up the item to turn in and visit the vendor and the
   * turn-in NPC.
   */
  method Run(t: AutoTask, sheets: Sheets, player: Option<Player>, npcIndex: Int32, territoryId: UInt32,
             turnInItems: seq<UInt32>, remaining: Int32, sites: Sites)
    returns (o: Outcome, p: Plan, ghost made: seq<Action>, ghost shown: seq<Status>, ghost route: Route, ghost planned: bool,
             ghost at: nat)
    requires t.Valid()
    modifies t`status, t`scopes, t`log, t`cancelled, t`framesLeft, t`requests, t`talksAdvanced, t`reports
    ensures Kept(t, old(t.log), old(t.scopes), old(t.cancelled), o)
    ensures o.Done? || o.Aborted? || o.Failed? || o.Cancelled? || o.Suspended?
    ensures t.requests == old(t.requests) + made
    ensures t.reports == old(t.reports) + shown
    ensures |old(t.log)| <= at <= |t.log|
    ensures planned ==> Planned(p, t.env, t.log[..at], sheets, player, FirstItem(turnInItems), remaining)
    ensures route.teleported == (MeasureOf(t.env, old(t.log) + [Report(TeleportingToZone)], CurrentTerritory) != territoryId)
    ensures made <= CraftRequests(p, route, sites, RecipeOf(sheets, player, FirstItem(turnInItems)), remaining)
    ensures shown <= CraftStatuses(p, FirstItem(turnInItems), remaining)
    ensures o.Done? ==> made == CraftRequests(p, route, sites, RecipeOf(sheets, player, FirstItem(turnInItems)), remaining)
    ensures o.Done? ==> shown == CraftStatuses(p, FirstItem(turnInItems), remaining)
    ensures o.Done? ==> planned && |turnInItems| > 0
    ensures planned ==> PlanFollows(p, sheets, player, FirstItem(turnInItems), remaining)
    ensures !planned ==> made == TeleportRequests(route.teleported, ClosestTo(sites.vendorLocation)) && shown == [TeleportingToZone]
    ensures o.Done? || o.Aborted? || o.Cancelled? || o.Suspended? || planned || o == Failed(IndexOutOfRange)
  {
    var target := ClosestTo(sites.vendorLocation);
    t.SetStatus(TeleportingToZone);
    shown := [TeleportingToZone];
    p := Plan(0, 0, Ingredient(0, 0), 0, 0);
    planned, at := false, |t.log|;
    o, made := TeleportTo(t, territoryId, target);
    route := Route(made != [], false, false, false, false);
    ghost var recipe := RecipeOf(sheets, player, FirstItem(turnInItems));
    if !o.Done? || |turnInItems| == 0 {
      StoppedBeforeVisit(made, p, route, sites, recipe, remaining, FirstItem(turnInItems));
      if o.Done? {
        o := Failed(IndexOutOfRange);
      }
      return;
    }
    var itemId := turnInItems[0];
    ghost var visited, seen, r;
    ConcatAssoc(old(t.reports), shown, PrepStatuses(p, itemId) + [TurningIn(remaining, itemId)]);
    ghost var before := t.log;
    o, p, visited, seen, r := Visit(t, sheets, player, npcIndex, itemId, remaining, sites);
    planned, at := true, |before|;
    assert t.log[..at] == before;
    route := r.(teleported := route.teleported);
    VisitAfterTeleport(made, visited, seen, p, route, sites, recipe, remaining, itemId);
    ConcatAssoc(old(t.requests), made, visited);
    ConcatAssoc(old(t.reports), shown, seen);
    made := made + visited;
    shown := shown + seen;
  }

  /** A run stopped at or right after the teleport has sent a prefix of a whole run. */
  lemma StoppedBeforeVisit(made: seq<Action>, p: Plan, route: Route, sites: Sites, recipe: UInt32, remaining: Int32, itemId: UInt32)
    requires made == TeleportRequests(route.teleported, ClosestTo(sites.vendorLocation))
    ensures made <= CraftRequests(p, route, sites, recipe, remaining)
    ensures [TeleportingToZone] <= CraftStatuses(p, itemId, remaining)
  {
    PrefixExtend(made, made, VisitRequests(p, route, sites, recipe, remaining));
  }

  /** The teleport followed by a visit, whole or cut short, is a prefix of a whole run. */
  lemma VisitAfterTeleport(made: seq<Action>, visited: seq<Action>, seen: seq<Status>, p: Plan, route: Route, sites: Sites,
                           recipe: UInt32, remaining: Int32, itemId: UInt32)
    requires made == TeleportRequests(route.teleported, ClosestTo(sites.vendorLocation))
    requires visited <= VisitRequests(p, route, sites, recipe, remaining)
    requires seen <= PrepStatuses(p, itemId) + [TurningIn(remaining, itemId)]
    ensures made + visited <= CraftRequests(p, route, sites, recipe, remaining)
    ensures [TeleportingToZone] + seen <= CraftStatuses(p, itemId, remaining)
    ensures visited == VisitRequests(p, route, sites, recipe, remaining) ==>
      made + visited == CraftRequests(p, route, sites, recipe, remaining)
  {
    PrefixAfterOpening(made, VisitRequests(p, route, sites, recipe, remaining), visited);
    PrefixAfterOpening([TeleportingToZone], PrepStatuses(p, itemId) + [TurningIn(remaining, itemId)], seen);
  }

  /**
   * The crafting delivery for an NPC: nothing when no delivery is left this
   * week; an error when the NPC has no crafting data; otherwise teleport to
   * its zone, buy the missing ingredients, craft the missing items and
   * turn them in. The requests sent are those of `CraftRequests`, all of
   * them when the delivery completes, and the status lines those of
   * `CraftStatuses`.
   */
  method Execute(t: AutoTask, sheets: Sheets, player: Option<Player>, npc: Npc)
    returns (o: Outcome, ghost made: seq<Action>, ghost shown: seq<Status>, ghost p: Plan, ghost route: Route, ghost planned: bool,
             ghost at: nat)
    requires t.Valid()
    modifies t`status, t`scopes, t`log, t`cancelled, t`framesLeft, t`requests, t`talksAdvanced, t`reports
    ensures Kept(t, old(t.log), old(t.scopes), old(t.cancelled), o)
    ensures o.Done? || o.Aborted? || o.Failed? || o.Cancelled? || o.Suspended?
    ensures t.requests == old(t.requests) + made
    ensures t.reports == old(t.reports) + shown
    ensures RemainingOf(t.env, old(t.log)) <= 0 ==> o == Done && made == [] && shown == []
    ensures RemainingOf(t.env, old(t.log)) > 0 && npc.craftData == null ==>
      o == Aborted(CRAFT_DATA_MISSING) && made == [] && shown == []
    ensures RemainingOf(t.env, old(t.log)) > 0 && npc.craftData != null ==>
      var remaining := RemainingOf(t.env, old(t.log));
      var itemId := FirstItem(npc.turnInItems);
      made <= CraftRequests(p, route, SitesOf(npc.craftData), RecipeOf(sheets, player, itemId), remaining) &&
      shown <= CraftStatuses(p, itemId, remaining) &&
      (o.Done? ==>
        made == CraftRequests(p, route, SitesOf(npc.craftData), RecipeOf(sheets, player, itemId), remaining) &&
        shown == CraftStatuses(p, itemId, remaining)) &&
      (planned ==> PlanFollows(p, sheets, player, itemId, remaining)) &&
      (planned ==> |old(t.log)| < at <= |t.log| && Planned(p, t.env, t.log[..at], sheets, player, itemId, remaining)) &&
      (o.Done? ==> planned && |npc.turnInItems| > 0)
  {
    made, shown, route, planned, at := [], [], Route(false, false, false, false, false), false, 0;
    p := Plan(0, 0, Ingredient(0, 0), 0, 0);
    var remaining := t.Read(RemainingTurnins(0));
    if remaining <= 0 {
      return Done, made, shown, p, route, planned, at;
    }
    var cd := npc.craftData;
    if cd == null {
      return Aborted(CRAFT_DATA_MISSING), made, shown, p, route, planned, at;
    }
    var plan;
    o, plan, made, shown, route, planned, at := Run(t, sheets, player, npc.index, npc.territoryId, npc.turnInItems, remaining, SitesOf(cd));
    p := plan;
  }

  /** How many requests of the preparation come before the craft: those of stocking up, when ingredients are missing. */
  function StockLength(p: Plan, walked: bool, opening: bool, sites: Sites): nat
  {
    if p.crafts > 0 && p.missing > 0 then |StockRequests(p, walked, opening, sites)| else 0
  }

  /** What each request of the preparation can be. */
  lemma PrepRequestAt(p: Plan, walked: bool, opening: bool, sites: Sites, recipe: UInt32, k: nat)
    requires k < |PrepRequests(p, walked, opening, sites, recipe)|
    ensures var a := PrepRequests(p, walked, opening, sites, recipe)[k];
      !a.TurnInSupply? &&
      (a.BuyItemFromShop? ==>
        a == BuyItemFromShop(sites.vendorShopId, p.ingredient.id, p.missing) &&
        p.crafts > 0 && p.missing > 0 && k < StockLength(p, walked, opening, sites)) &&
      (a.ArtisanCraft? ==>
        a == ArtisanCraft(recipe % 0x1_0000, p.crafts) && p.crafts > 0 && k >= StockLength(p, walked, opening, sites))
  {
    var stock := if p.missing > 0 then StockRequests(p, walked, opening, sites) else [];
    var craft := Crafted(recipe, p.crafts);
    var prep := PrepRequests(p, walked, opening, sites, recipe);
    assert prep == stock + craft;
    if k < |stock| {
      var walk := WalkRequests(walked, sites.vendorLocation);
      var buy := Purchase(opening, sites.vendorInstanceId, sites.vendorShopId, p.ingredient.id, p.missing);
      assert prep[k] == stock[k] && stock == walk + buy;
      if k >= |walk| {
        assert prep[k] == buy[k - |walk|];
      }
    } else {
      assert prep[k] == craft[k - |stock|];
    }
  }

  /** What each request of a whole crafting delivery can be, and in which part of it it lies. */
  lemma CraftRequestAt(p: Plan, route: Route, sites: Sites, recipe: UInt32, remaining: Int32, k: nat)
    requires k < |CraftRequests(p, route, sites, recipe, remaining)|
    ensures var a := CraftRequests(p, route, sites, recipe, remaining)[k];
      var start := |TeleportRequests(route.teleported, ClosestTo(sites.vendorLocation))|;
      var stocked := start + StockLength(p, route.walkedToVendor, route.openedShop, sites);
      var prepared := start + |PrepRequests(p, route.walkedToVendor, route.openedShop, sites, recipe)|;
      (a.BuyItemFromShop? ==>
        a == BuyItemFromShop(sites.vendorShopId, p.ingredient.id, p.missing) &&
        p.crafts > 0 && p.missing > 0 && k < stocked) &&
      (a.ArtisanCraft? ==> a == ArtisanCraft(recipe % 0x1_0000, p.crafts) && p.crafts > 0 && stocked <= k < prepared) &&
      (a.TurnInSupply? ==> a == TurnInSupply(0) && k >= prepared)
  {
    var tp := TeleportRequests(route.teleported, ClosestTo(sites.vendorLocation));
    var prep := PrepRequests(p, route.walkedToVendor, route.openedShop, sites, recipe);
    var closing := DeliveryRequests(route.walkedToNpc, route.interacted, sites.turnInLocation, sites.turnInInstanceId, 0, remaining);
    var all := CraftRequests(p, route, sites, recipe, remaining);
    assert all == tp + (prep + closing);
    if k < |tp| {
      assert all[k] == tp[k];
    } else if k < |tp| + |prep| {
      assert all[k] == prep[k - |tp|];
      PrepRequestAt(p, route.walkedToVendor, route.openedShop, sites, recipe, k - |tp|);
    } else {
      assert all[k] == closing[k - |tp| - |prep|];
      ClosingRequestAt(route, sites, remaining, k - |tp| - |prep|);
    }
  }

  /** The closing phase neither buys nor crafts, and hands in from slot 0 only. */
  lemma ClosingRequestAt(route: Route, sites: Sites, remaining: Int32, k: nat)
    requires k < |DeliveryRequests(route.walkedToNpc, route.interacted, sites.turnInLocation, sites.turnInInstanceId, 0, remaining)|
    ensures var a := DeliveryRequests(route.walkedToNpc, route.interacted, sites.turnInLocation, sites.turnInInstanceId, 0, remaining)[k];
      !a.BuyItemFromShop? && !a.ArtisanCraft? && (a.TurnInSupply? ==> a == TurnInSupply(0))
  {
    var closing := DeliveryRequests(route.walkedToNpc, route.interacted, sites.turnInLocation, sites.turnInInstanceId, 0, remaining);
    DeliveryRequestsAreDeliveries(closing, route.walkedToNpc, route.interacted, sites.turnInLocation, sites.turnInInstanceId, 0, remaining);
    assert DeliveryRequest(closing[k], sites.turnInLocation, sites.turnInInstanceId, 0);
  }

  /**
   * A crafting delivery, whole or cut short, buys only the ingredient of
   * the item's recipe, only in the amount found missing, and only when
   * items had to be crafted and ingredients were missing.
   */
  lemma BuysOnlyMissing(made: seq<Action>, p: Plan, route: Route, sites: Sites, recipe: UInt32, remaining: Int32)
    requires made <= CraftRequests(p, route, sites, recipe, remaining)
    ensures forall i :: 0 <= i < |made| && made[i].BuyItemFromShop? ==>
      made[i] == BuyItemFromShop(sites.vendorShopId, p.ingredient.id, p.missing) && p.crafts > 0 && p.missing > 0
  {
    forall i | 0 <= i < |made| && made[i].BuyItemFromShop?
      ensures made[i] == BuyItemFromShop(sites.vendorShopId, p.ingredient.id, p.missing) && p.crafts > 0 && p.missing > 0
    {
      CraftRequestAt(p, route, sites, recipe, remaining, i);
    }
  }

  /**
   * A crafting delivery, whole or cut short, crafts only when items are
   * missing, and then exactly the missing number of them, with the
   * recipe found for the item.
   */
  lemma CraftsOnlyMissing(made: seq<Action>, p: Plan, route: Route, sites: Sites, recipe: UInt32, remaining: Int32)
    requires made <= CraftRequests(p, route, sites, recipe, remaining)
    ensures forall i :: 0 <= i < |made| && made[i].ArtisanCraft? ==>
      made[i] == ArtisanCraft(recipe % 0x1_0000, p.crafts) && p.crafts > 0
  {
    forall i | 0 <= i < |made| && made[i].ArtisanCraft?
      ensures made[i] == ArtisanCraft(recipe % 0x1_0000, p.crafts) && p.crafts > 0
    {
      CraftRequestAt(p, route, sites, recipe, remaining, i);
    }
  }

  /**
   * In a crafting delivery, whole or cut short, every purchase comes before
   * every craft, and every purchase and craft before any hand-in.
   */
  lemma PreparedBeforeTurnIn(made: seq<Action>, p: Plan, route: Route, sites: Sites, recipe: UInt32, remaining: Int32)
    requires made <= CraftRequests(p, route, sites, recipe, remaining)
    ensures forall i, j :: 0 <= i < j < |made| && made[i].ArtisanCraft? ==> !made[j].BuyItemFromShop?
    ensures forall i, j :: 0 <= i < j < |made| && made[i].TurnInSupply? ==>
      !made[j].BuyItemFromShop? && !made[j].ArtisanCraft?
  {
    forall i, j | 0 <= i < j < |made|
      ensures made[i].ArtisanCraft? ==> !made[j].BuyItemFromShop?
      ensures made[i].TurnInSupply? ==> !made[j].BuyItemFromShop? && !made[j].ArtisanCraft?
    {
      CraftRequestAt(p, route, sites, recipe, remaining, i);
      CraftRequestAt(p, route, sites, recipe, remaining, j);
    }
  }

  /** A crafting delivery, whole or cut short, hands in from slot 0 only. */
  lemma TurnsInFromSlotZero(made: seq<Action>, p: Plan, route: Route, sites: Sites, recipe: UInt32, remaining: Int32)
    requires made <= CraftRequests(p, route, sites, recipe, remaining)
    ensures forall i :: 0 <= i < |made| && made[i].TurnInSupply? ==> made[i] == TurnInSupply(0)
  {
    forall i | 0 <= i < |made| && made[i].TurnInSupply?
      ensures made[i] == TurnInSupply(0)
    {
      CraftRequestAt(p, route, sites, recipe, remaining, i);
    }
  }

  /** The teleport and the preparation hand nothing in. */
  lemma NoHandInBeforeClosing(p: Plan, route: Route, sites: Sites, recipe: UInt32)
    ensures TurnInSupply(0) !in TeleportRequests(route.teleported, ClosestTo(sites.vendorLocation)) +
      PrepRequests(p, route.walkedToVendor, route.openedShop, sites, recipe)
  {
    var a := TurnInSupply(0);
    assert a !in WalkRequests(route.walkedToVendor, sites.vendorLocation);
    assert a !in Purchase(route.openedShop, sites.vendorInstanceId, sites.vendorShopId, p.ingredient.id, p.missing);
    assert a !in StockRequests(p, route.walkedToVendor, route.openedShop, sites);
    assert a !in Crafted(recipe, p.crafts);
    assert a !in PrepRequests(p, route.walkedToVendor, route.openedShop, sites, recipe);
  }

  /** A completed crafting delivery hands in from slot 0 exactly once per remaining delivery. */
  lemma TurnsInRemaining(p: Plan, route: Route, sites: Sites, recipe: UInt32, remaining: Int32)
    ensures multiset(CraftRequests(p, route, sites, recipe, remaining))[TurnInSupply(0)] == Iterations(remaining)
  {
    var tp := TeleportRequests(route.teleported, ClosestTo(sites.vendorLocation));
    var prep := PrepRequests(p, route.walkedToVendor, route.openedShop, sites, recipe);
    var closing := DeliveryRequests(route.walkedToNpc, route.interacted, sites.turnInLocation, sites.turnInInstanceId, 0, remaining);
    NoHandInBeforeClosing(p, route, sites, recipe);
    DeliveredCount(route.walkedToNpc, route.interacted, sites.turnInLocation, sites.turnInInstanceId, 0, remaining);
    ConcatAssoc(tp, prep, closing);
    assert multiset((tp + prep) + closing) == multiset(tp + prep) + multiset(closing);
  }
}
