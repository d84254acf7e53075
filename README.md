# Satisfy: a Dafny model of the delivery automation core

This project models the core of *Satisfy*, a plugin that automates weekly
custom deliveries ("satisfaction supply") for the game Final Fantasy XIV.
The modelled parts are these:

- **The task core** (`automation.dfy`, module `Tasks`). An `AutoTask` has:
  - a status line;
  - a debug-context stack of scope names. Entering a scope records its depth. Leaving a scope truncates the stack back to that depth. Renaming a scope overwrites its entry in place.
  - abort messages of the form `[Kind] [a > b > c] message`;
  - cooperative frame waits (`NextFrame`, `WaitWhile`);
  - a cancellation flag that only goes from false to true.

  The `Automation` runner keeps at most one current task. `Start` cancels the previous task. `Stop` clears the slot. A completion callback clears the slot only while its task is still the current one.
- **The calculations** (`calculations.dfy`). These are the bonus-guarantee week index, and the bit-exact reproduction of the game's choice of the three requested items: the seeding, the xorshift step, and the weighted roll and walk.
- **The game-data rules**:
  - `craft_turnin.dfy`: the event-layer path of a zone, the recipe of a crafting job, the first ingredient of a recipe, the first shop that sells an item, and the last-match-wins scan of layer instances for the turn-in NPC and the vendor;
  - `gather_data.dfy`: which gatherer job a gathering delivery uses;
  - `npc_info.dfy`: the supply NPC record, its computed supply index and achievement progress, and `InitHardcodedData`.
- **The delivery workflows**:
  - `auto_common.dfy`: the common steps `MoveTo`, `TeleportTo`, `TurnIn` and `WaitUntilSkipTalk`;
  - `delivery.dfy`: the closing phase shared by the workflows;
  - `auto_craft.dfy`: the crafting delivery;
  - `auto_gather.dfy`: the gathering delivery;
  - `auto_fish.dfy`: the fishing delivery.

The game, its UI and the helper plugins are one oracle, `World.Env`. The
navmesh, crafting and gathering plugins are among those helpers. The oracle
answers every question from the log of exchanges made before it. That log
is the task's `log` field, and `Valid()` says every logged answer is the
oracle's.

A workflow step is a method on an `AutoTask`. It returns how it ended:

- `Done`;
- `Aborted(message)`: an `Error`/`ErrorIf`;
- `Failed(fault)`: a throwing lookup;
- `Cancelled`;
- `Suspended`: the frame budget ran out while waiting, so the coroutine has not been resumed yet.

Failure evidence is stated with `Shows(log, from, e)`: the event `e`, such as a refused request `Call(a, false)`, was logged at or after position `from`. A step that aborts on a failed request states both directions: an abort leaves its failure last in the log, and a failure in the log means that abort.

Each step also returns two ghost values: the requests it sent (`made`) and
the status lines it showed (`shown`). Each workflow is specified by a
function that gives the requests of a complete run, such as
`CraftRequests`, `GatherRequests` or `FishingRequests`. A run that stops
early has sent a prefix of them, and a `Done` run has sent all of them. The
properties of a workflow are lemmas about that function.

Integers follow C#. `Int32` and `UInt32` are subset types. Wrap-around is
written out with `WrapInt32` and `WrapUInt32`. `/` and `%` on signed values
truncate toward zero (`TruncDiv`, `TruncRem`). Hash registers are `bv32`.

## Model

| member | source | states |
|---|---|---|
| Ints.WrapInt32 | vsatisfy/Calculations.cs:25 | the result is congruent to the input mod 2^32 and equals it when it fits in `int` |
| Ints.WrapUInt32 | vsatisfy/NPCInfo.cs:23 | the result is congruent to the input mod 2^32 and equals it when it fits in `uint` |
| Ints.TruncDiv | vsatisfy/Calculations.cs:26 | C# `/`: the quotient rounds toward zero, bounded on both sides for each sign of the dividend |
| Ints.TruncRem | vsatisfy/Calculations.cs:27 | C# `%`: `a == q*b + r`, and the remainder has the sign of the dividend with magnitude below `b` |
| Text.Decimal | vsatisfy/AutoCommon.cs:79 | `ToString()` of an integer: reading its digits back gives the number, with a leading '-' for a negative one |
| Text.Hex | vsatisfy/AutoCraft.cs:54 | `:X` formatting: only hexadecimal digit characters, and reading them back gives the number |
| Text.DigitsValue | vsatisfy/AutoCommon.cs:79 | digits then value is the identity on naturals (the round trip behind both formats) |
| Calculations.BonusGuarantee | vsatisfy/Calculations.cs:23-28 | the week index lies in [-9, 9]; in [0, 9] from the epoch on; in [-9, 0] before it while the subtraction does not wrap |
| Calculations.BonusGuaranteeOfWeek | vsatisfy/Calculations.cs:25-27 | a timestamp in week `k` after the epoch gives `k mod 10` |
| Calculations.BonusGuaranteeSameWeek | vsatisfy/Calculations.cs:25-27 | two timestamps in the same week after the epoch give the same value |
| Calculations.BonusGuaranteeNextWeek | vsatisfy/Calculations.cs:25-27 | one week later the value advances by one mod 10 |
| Calculations.BonusGuaranteeWraps | vsatisfy/Calculations.cs:25 | more than 2^31 seconds before the epoch the 32-bit subtraction wraps and the value is not negative |
| Calculations.SlotWeight | vsatisfy/Calculations.cs:52-58 | the weight of a slot is bounded by 255 per subrow |
| Calculations.Walk | vsatisfy/Calculations.cs:68-79 | the walk returns `0xFFFFFFFF` or the index of a later subrow of the rolled slot |
| Calculations.FirstExceedingUnique | vsatisfy/Calculations.cs:67-78 | at most one subrow is the first whose cumulative slot weight exceeds the roll |
| Calculations.WalkLandsInRange | vsatisfy/Calculations.cs:68-79 | when the roll is below the remaining weight, the walk stops at a subrow of the slot whose cumulative weight brackets the roll; rows of other slots do not consume it |
| Calculations.WalkChoosesFirstExceeding | vsatisfy/Calculations.cs:67-78 | for a roll below the slot's weight the chosen subrow is the first in order whose cumulative weight exceeds the roll, so never `0xFFFFFFFF` |
| Calculations.RequestedItemsChoices | vsatisfy/Calculations.cs:39-82 | a missing supply row is an error; a slot of weight 0 is a division-by-zero error; otherwise exactly 3 results, each the first-exceeding subrow of its slot under the roll of the registers after k+1 steps |
| Calculations.SumProbabilities | vsatisfy/Calculations.cs:52-58 | the loop sums exactly the weights of the subrows in the slot |
| Calculations.PickSubrow | vsatisfy/Calculations.cs:68-79 | the loop that decrements the roll computes the walk |
| Calculations.SelectSubrows | vsatisfy/Calculations.cs:48-80 | the slot loop with its in-place register updates and array writes computes the choice of all three slots, or the division-by-zero error |
| Calculations.CalculateRequestedItems | vsatisfy/Calculations.cs:39-82 | the method's result is the pure function of (rows, supply index, seed) |
| Calculations.ChosenInEverySlot | vsatisfy/Calculations.cs:48-80 | when every slot has positive weight, the result is the three slot choices |
| CraftTurnin.LastIndexOf | vsatisfy/CraftTurnin.cs:30 | the position of the last occurrence, with no occurrence after it, or -1 |
| CraftTurnin.LayerPath | vsatisfy/CraftTurnin.cs:29-31 | `"bg/" + directory of the scene + "planevent.lgb"`; the directory is a prefix of the scene ending in '/', with no '/' after it; a scene without '/' gives `"bg/planevent.lgb"` |
| CraftTurnin.EncodeInstanceId | vsatisfy/CraftTurnin.cs:46 | the high 32 bits are 1 and the low 32 bits are the instance id |
| CraftTurnin.IndexOfItem | vsatisfy/CraftTurnin.cs:154-161 | the first position of the item, or -1 exactly when it is absent |
| CraftTurnin.FirstSeller | vsatisfy/CraftTurnin.cs:145-162 | the first handler that is a gil shop of type 4 and lists the item; none before it does |
| CraftTurnin.FindVendorItem | vsatisfy/CraftTurnin.cs:139-164 | found exactly when the NPC exists and some shop handler sells the item; then the first such handler and the first position in it; otherwise (0, -1) |
| CraftTurnin.RecipeFor | vsatisfy/CraftTurnin.cs:72-92 | jobs 8 to 15 pick the CRP, BSM, ARM, GSM, LTW, WVR, ALC or CUL column; any other job picks CRP |
| CraftTurnin.GetRecipeId | vsatisfy/CraftTurnin.cs:66-95 | throws exactly when there is no local player; 0 for an item without a RecipeLookup row; otherwise the current job's column |
| CraftTurnin.GetCraftIngredient | vsatisfy/CraftTurnin.cs:97-137 | (0, 0) without a RecipeLookup row; the CUL recipe without a player, the job's recipe with one; its first ingredient and amount; a missing recipe row throws |
| CraftTurnin.IngredientOfCraftedRecipe | vsatisfy/CraftTurnin.cs:66-137 | with a player, the ingredient bought is the first ingredient of the very recipe that is crafted |
| CraftTurnin.LastTurnIn | vsatisfy/CraftTurnin.cs:40-49 | the last event-NPC instance of the turn-in NPC; none after it |
| CraftTurnin.LastVendor | vsatisfy/CraftTurnin.cs:40-58 | the last event-NPC instance whose NPC sells the ingredient; none after it |
| CraftTurnin.FoundSnoc | vsatisfy/CraftTurnin.cs:38-58 | seeing one more instance overwrites the turn-in fields and the vendor fields independently; one instance may set both |
| CraftTurnin.ScanLayer | vsatisfy/CraftTurnin.cs:38-59 | the inner loop leaves the fields of the last matches among the instances seen so far |
| CraftTurnin.ScanLayers | vsatisfy/CraftTurnin.cs:34-61 | the nested loops leave the fields of the last turn-in and the last vendor instance over all layers |
| CraftTurnin.CraftDataFault | vsatisfy/CraftTurnin.cs:27-29 | no fault means the supply subrow 0, a successful ingredient lookup and the zone row all exist |
| CraftTurnin.CraftData.constructor | vsatisfy/CraftTurnin.cs:23-62 | the fields are those of the last matches in the event layer of the zone, and all defaults when the layer file is missing |
| GatherData.CurrentGatheringJob | vsatisfy/GatherData.cs:44-53 | the player's job if it is miner or botanist (16 or 17), otherwise the configured job |
| GatherData.Candidates | vsatisfy/GatherData.cs:22-27 | exactly the rows with id 16 or 17, a level index inside the level array and level at least 1 |
| GatherData.CandidatesSplit | vsatisfy/GatherData.cs:22-27 | the filter keeps the sheet order: the candidates of two consecutive stretches of the sheet are those of the first, then those of the second |
| GatherData.CandidatesOfRow | vsatisfy/GatherData.cs:22-27 | a single row is kept exactly when it qualifies |
| GatherData.EarlierRowFirst | vsatisfy/GatherData.cs:22-39 | of two qualifying rows, the one earlier in the sheet comes earlier among the candidates, so a level tie goes to the earlier row |
| GatherData.FirstMin | vsatisfy/GatherData.cs:28-30 | a minimum whose earlier keys are all larger (stable ascending order) |
| GatherData.FirstMax | vsatisfy/GatherData.cs:37-39 | a maximum whose earlier keys are all smaller (stable descending order) |
| GatherData.Pick | vsatisfy/GatherData.cs:28-39 | the first best candidate for the chosen direction |
| GatherData.ByLevel | vsatisfy/GatherData.cs:22-39 | the configured job without a sheet; 0 (the default row) when nothing qualifies; otherwise a gatherer, the first with the lowest or highest level |
| GatherData.ClassJobId | vsatisfy/GatherData.cs:9-41 | `Specific` and any unlisted choice give the configured job; `Current`, `LowestXP` and `HighestXP` each give their rule; it is recomputed on each read |
| GatherData.ClassJobIdRange | vsatisfy/GatherData.cs:16-53 | the job chosen is the configured one, a gatherer, or 0 |
| NpcInfo.UIntCastRoundTrip | vsatisfy/NPCInfo.cs:22 | the `uint` cast of a supply index keeps its bit pattern |
| NpcInfo.Npc.constructor | vsatisfy/NPCInfo.cs:3-20 | supply indices are copied; the per-slot arrays have three false or zero entries; there are no requests and no craft, fish or gather data |
| NpcInfo.Npc.SupplyIndex | vsatisfy/NPCInfo.cs:22 | defined exactly when 0 <= rank < length, else an index error; it is the `uint` cast of the entry |
| NpcInfo.Npc.AchievementCur | vsatisfy/NPCInfo.cs:23 | never above the maximum; it is the maximum or the wrapped sum, and the plain sum when that is within the maximum |
| NpcInfo.Npc.InitHardcodedData | vsatisfy/NPCInfo.cs:25-31 | stores the achievement and aetheryte ids; a nonzero territory is used verbatim, otherwise the aetheryte's, and a missing aetheryte row is a fault; once the zone is known, the fault is exactly an index error for fewer than two supply rows, else exactly `CraftDataFault` of subrow 1's supply id, so it succeeds whenever every row exists; on success the craft data is built from the scans; the other fields are unchanged |
| NpcInfo.SupplyIndicesAreCopied | vsatisfy/NPCInfo.cs:5 | a later write to the caller's array does not reach the NPC's supply indices |
| Tasks.Join | vsatisfy/Automation.cs:77 | `string.Join`: empty for no parts, the part itself for one |
| Tasks.JoinShowsEveryScope | vsatisfy/Automation.cs:86 | every scope name occurs in the joined scope path |
| Tasks.ErrorMessageParts | vsatisfy/Automation.cs:86 | the message ends with the given text, contains `[Kind] `, and contains the scope path followed by `] ` and the text |
| Tasks.ErrorMessageNamesScopes | vsatisfy/Automation.cs:86 | every open scope name appears in an abort message |
| Tasks.AutoTask.constructor | vsatisfy/Automation.cs:41-43 | a new task has an empty status, no scopes, an empty log and is not cancelled |
| Tasks.AutoTask.Cancel | vsatisfy/Automation.cs:45 | the task is cancelled |
| Tasks.AutoTask.BeginScope | vsatisfy/Automation.cs:18-23 | pushes exactly the name and records the depth before the push |
| Tasks.AutoTask.EndScope | vsatisfy/Automation.cs:26-31 | truncates to the recorded depth even when inner scopes are still open; no change when the stack is already that short |
| Tasks.AutoTask.Rename | vsatisfy/Automation.cs:33-38 | overwrites only the entry at the recorded depth, only if it exists, and keeps the length |
| Tasks.AutoTask.Error | vsatisfy/Automation.cs:83-87 | aborts with the message built from the task kind and the current scope path |
| Tasks.AutoTask.ErrorIf | vsatisfy/Automation.cs:90-94 | aborts exactly when the condition holds, with the message of `Error`; otherwise continues |
| Tasks.AutoTask.Ask | vsatisfy/AutoCommon.cs:20 | a yes/no question to the game returns the oracle's answer and is logged |
| Tasks.AutoTask.Read | vsatisfy/AutoCraft.cs:27 | a count read from the game returns the oracle's answer and is logged |
| Tasks.AutoTask.Invoke | vsatisfy/AutoCommon.cs:37 | a request is sent once and recorded; its success is the oracle's |
| Tasks.AutoTask.AdvanceTalk | vsatisfy/AutoCommon.cs:72 | advances a talk dialog once and counts it |
| Tasks.AutoTask.SetStatus | vsatisfy/Automation.cs:41 | the status line becomes the new value and is recorded |
| Tasks.AutoTask.NextFrame | vsatisfy/Automation.cs:64 | a cancelled task does not resume; otherwise one frame passes, and the task is cancelled exactly when the host asked for it |
| Tasks.AutoTask.WaitWhile | vsatisfy/Automation.cs:67-75 | returns `Done` only after the condition evaluated false, with one frame per true evaluation; the stack depth on return equals the depth on entry; cancellation is never undone |
| Tasks.Automation.constructor | vsatisfy/Automation.cs:100 | a new runner has no current task |
| Tasks.Automation.Running | vsatisfy/Automation.cs:102 | running exactly when there is a current task |
| Tasks.Automation.Stop | vsatisfy/Automation.cs:108-112 | the previous task, if any, is cancelled and the slot is empty; of the previous task only its cancellation flag may change |
| Tasks.Automation.Start | vsatisfy/Automation.cs:115-125 | the previous task, if any, is cancelled; the new task is current and the runner is running; of the previous task only its cancellation flag may change |
| Tasks.Automation.Completed | vsatisfy/Automation.cs:119-124 | the callback clears the slot only if its task is still current |
| Tasks.SupersededCompletion | vsatisfy/Automation.cs:115-124 | starting a second task cancels the first, and the first task's late callback leaves the second running |
| AutoCommon.Walk | vsatisfy/AutoCommon.cs:24-28 | a navmesh that is not ready aborts with the navmesh message, sending nothing; a failed pathfinding start aborts with the pathfinding message; any other ending leaves neither failure in the log; once pathfinding started, `NavStop` follows on completion and on cancellation; `Done` sends both requests and the player was seen in range |
| AutoCommon.StartWalk | vsatisfy/AutoCommon.cs:24-26 | waits for the mesh build, then aborts exactly on a not-ready mesh or a refused pathfinding start, each with its own message; `Done` means pathfinding started |
| AutoCommon.MoveTo | vsatisfy/AutoCommon.cs:17-29 | sends nothing when the player is already in range; out of range, `Done` sends the pathfinding request and `NavStop`; a not-ready mesh or a failed start aborts with its message under the scope "MoveTo", and no other ending logs either failure |
| AutoCommon.TeleportTo | vsatisfy/AutoCommon.cs:31-41 | sends nothing in the target zone; otherwise exactly one teleport; a refused teleport aborts with the teleport message; the zone read afterwards gives `Done` when it is the target and the wrong-zone abort otherwise |
| AutoCommon.Jump | vsatisfy/AutoCommon.cs:37-40 | the teleport request, the two busy waits and the zone check: a refused teleport aborts, and the zone read decides between `Done` and the wrong-zone abort |
| AutoCommon.SkipTalkRound | vsatisfy/AutoCommon.cs:67-76 | one round of the loop: passes only on the condition being true; a false condition followed by an open talk is always followed by a talk advance, and a talk is advanced only then |
| AutoCommon.CheckTalk | vsatisfy/AutoCommon.cs:69-73 | after a false condition, an open talk is advanced at once and a closed one is not |
| AutoCommon.WaitUntilSkipTalk | vsatisfy/AutoCommon.cs:64-77 | returns `Done` only once the condition is true; in the log, a talk is advanced exactly after a false condition followed by an open talk, and then every time |
| AutoCommon.NpcId | vsatisfy/AutoCommon.cs:46 | the NPC id is the index plus one |
| AutoCommon.Iterations | vsatisfy/AutoCommon.cs:52 | the loop runs `count` times, and never for `count <= 0` |
| AutoCommon.OpenTurnIn | vsatisfy/AutoCommon.cs:47-51 | interact, wait for the selection, select; a failed interaction aborts with the interaction message and sends nothing more, and only it aborts; no hand-in request is sent |
| AutoCommon.Approach | vsatisfy/AutoCommon.cs:46-51 | the dialog is opened exactly when the supply dialog is not already open |
| AutoCommon.HandInAll | vsatisfy/AutoCommon.cs:52-58 | exactly `count` rounds of `TurnInSupply(slot)` then `TurnInRequestCommit`; in the log every offer comes right after the supply dialog of the NPC was seen open, and every commit right after the hand-in window of the item was; a stopped run sent a prefix |
| AutoCommon.OfferItem | vsatisfy/AutoCommon.cs:54-55 | offers the slot's item, on `Done` only, and right after the supply dialog of the NPC was seen open |
| AutoCommon.CommitHandIn | vsatisfy/AutoCommon.cs:56-57 | commits, on `Done` only, and right after the hand-in window of the item was seen open |
| AutoCommon.HandInOne | vsatisfy/AutoCommon.cs:54-57 | one round: the offer, then the commit, each gated on its window |
| AutoCommon.WaitCutscene | vsatisfy/AutoCommon.cs:59-60 | as written: first until the player is not in a cutscene event, then until the player is in one; on `Done` the player was last seen in the cutscene event |
| AutoCommon.HandInAndWait | vsatisfy/AutoCommon.cs:52-60 | the gated hand-in rounds, then the cutscene waits; `Done` ends with the player seen in a cutscene event, as written; nothing but offers, commits and talk advances is sent |
| AutoCommon.TurnIn | vsatisfy/AutoCommon.cs:43-61 | the opening only when the dialog is closed, then `count` gated hand-in rounds; an abort is a failed interaction, and a failed interaction in the log aborts under the scope "TurnIn"; `Done` ends with the player seen in a cutscene event |
| Delivery.ItemName | vsatisfy/AutoCommon.cs:79 | the sheet's name, or the decimal digits of the id when the item has no row |
| Delivery.RepeatElements | vsatisfy/AutoCommon.cs:52-58 | repeated rounds contain only requests of a round |
| Delivery.RepeatCount | vsatisfy/AutoCommon.cs:52-58 | each request occurs `n` times as often in `n` rounds as in one |
| Delivery.HandInCount | vsatisfy/AutoCommon.cs:43-58 | a turn-in offers the slot's item exactly once per round |
| Delivery.TurnInIsDelivery | vsatisfy/AutoCommon.cs:43-58 | every request of a turn-in belongs to delivering from that slot to that NPC |
| Delivery.DeliveryRequestsAreDeliveries | vsatisfy/AutoCraft.cs:43-45 | every request of a closing phase, whole or cut short, belongs to the delivery |
| Delivery.DeliveredCount | vsatisfy/AutoCraft.cs:43-45 | a closing phase offers the slot's item once per delivery left |
| Delivery.ReturnCount | vsatisfy/AutoGather.cs:27-33 | a return trip and closing phase offer the slot's item once per delivery left |
| Delivery.ReturnSlot | vsatisfy/AutoGather.cs:27-33 | a return trip and closing phase never offer an item from another slot |
| Delivery.Deliver | vsatisfy/AutoCraft.cs:43-45 | status "turning in"; walks only when the player is out of range of the NPC, and on `Done` walked exactly then; turns in from the slot; a stopped run sent a prefix |
| AutoCraft.ShopRefNames | vsatisfy/AutoCraft.cs:54 | the `{vendor:X}.{shop:X}` name of a shop identifies the vendor and the shop |
| AutoCraft.HexInjective | vsatisfy/AutoCraft.cs:54 | distinct numbers have distinct `:X` texts |
| AutoCraft.HexPairNames | vsatisfy/AutoCraft.cs:54 | a dotted pair of hex numbers determines both numbers |
| AutoCraft.EnsureShopOpen | vsatisfy/AutoCraft.cs:51-57 | opens the shop exactly when it is not open; a failed open aborts with the open-shop message, and only it aborts |
| AutoCraft.AwaitShop | vsatisfy/AutoCraft.cs:55-56 | the two waits for the shop to open send nothing |
| AutoCraft.PlaceOrder | vsatisfy/AutoCraft.cs:60-61 | exactly one purchase request; a failed purchase aborts with the buy message, and only it aborts |
| AutoCraft.AwaitTransaction | vsatisfy/AutoCraft.cs:61 | the wait for the transaction sends nothing |
| AutoCraft.CloseAndLeave | vsatisfy/AutoCraft.cs:63-66 | exactly one close request; a failed close aborts with the close message, and only it aborts |
| AutoCraft.LeaveShop | vsatisfy/AutoCraft.cs:64-66 | the waits after closing send nothing |
| AutoCraft.Trade | vsatisfy/AutoCraft.cs:59-66 | buy then close; a failed buy aborts with the buy message, a failed close with the close message, and each abort is one of these two |
| AutoCraft.BuyFromShop | vsatisfy/AutoCraft.cs:48-67 | opens only when needed, then buys exactly the count and closes; a failed open, buy or close aborts with its own message under "Buy", and every abort is one of the three |
| AutoCraft.StartCraft | vsatisfy/AutoCraft.cs:76-78 | one craft request with the recipe truncated to 16 bits |
| AutoCraft.FinishCraft | vsatisfy/AutoCraft.cs:79-84 | aborts exactly when the inventory is below the final count; otherwise exits crafting |
| AutoCraft.CraftItem | vsatisfy/AutoCraft.cs:70-85 | no player throws; recipe 0 aborts before any craft; a finished run crafted with the job's recipe and reached the final count |
| AutoCraft.CraftsNeeded | vsatisfy/AutoCraft.cs:27 | remaining minus stock, in 32-bit arithmetic, exact when nothing wraps |
| AutoCraft.IngredientsMissing | vsatisfy/AutoCraft.cs:31-32 | per-craft amount times crafts, minus stock, exact when nothing wraps |
| AutoCraft.PlanCovers | vsatisfy/AutoCraft.cs:31-37 | buying the missing amount brings the stock to exactly what the crafts need |
| AutoCraft.ReadPlan | vsatisfy/AutoCraft.cs:26-32 | the plan follows from the inventory answers and the recipe data |
| AutoCraft.StockUp | vsatisfy/AutoCraft.cs:35-37 | status "buying"; walks only when out of range of the vendor, and on `Done` walked exactly then; buys the missing ingredients |
| AutoCraft.CraftPhase | vsatisfy/AutoCraft.cs:39-40 | status "crafting", then craft the missing items with the final count |
| AutoCraft.Produce | vsatisfy/AutoCraft.cs:28-41 | stock up only when ingredients are missing, then craft |
| AutoCraft.Prepare | vsatisfy/AutoCraft.cs:26-41 | no preparation when nothing is to be crafted; a failed ingredient lookup throws before any request |
| AutoCraft.Visit | vsatisfy/AutoCraft.cs:26-45 | the preparation, then the closing phase from slot 0 for the remaining count |
| AutoCraft.Run | vsatisfy/AutoCraft.cs:23-45 | teleports only when out of the zone, then the visit; the plan is the one the inventory answers gave at the logged position where it was read; `TurnInItems[0]` throws when the list is empty |
| AutoCraft.Execute | vsatisfy/AutoCraft.cs:14-46 | nothing when no delivery is left; aborts when there is no craft data; otherwise a prefix of the crafting-delivery requests and statuses, all of them on `Done`, for the plan that the inventory answers at a logged position gave |
| AutoCraft.BuysOnlyMissing | vsatisfy/AutoCraft.cs:30-37 | every purchase is of the recipe's ingredient, for exactly the missing amount, and only when items and ingredients are missing |
| AutoCraft.CraftsOnlyMissing | vsatisfy/AutoCraft.cs:28-40 | every craft request is for the missing count and only when crafts are needed |
| AutoCraft.PreparedBeforeTurnIn | vsatisfy/AutoCraft.cs:28-45 | no purchase after a craft, and no purchase or craft after a hand-in |
| AutoCraft.TurnsInFromSlotZero | vsatisfy/AutoCraft.cs:45 | every hand-in uses slot 0 |
| AutoCraft.NoHandInBeforeClosing | vsatisfy/AutoCraft.cs:23-41 | the teleport and the preparation hand nothing in |
| AutoCraft.TurnsInRemaining | vsatisfy/AutoCraft.cs:45 | a whole run hands in slot 0 exactly once per delivery left |
| AutoGather.JobByte | vsatisfy/AutoGather.cs:21 | the `(byte)` cast keeps a job id below 256 and is congruent mod 256 |
| AutoGather.WaitForGathering | vsatisfy/AutoGather.cs:24-25 | on `Done` the log shows the wait for the start, then the wait for the end |
| AutoGather.Gather | vsatisfy/AutoGather.cs:21-25 | sends the start once; aborts with the Questionable message and shows nothing when it is refused; otherwise shows "gathering" and waits |
| AutoGather.WalkAndHandIn | vsatisfy/AutoGather.cs:30-33 | status "moving"; walks only when out of range, and on `Done` walked exactly then; status "turning in", turn in from slot 1; `TurnInItems[1]` throws for a short list |
| AutoGather.Return | vsatisfy/AutoGather.cs:27-33 | status "teleporting back", teleport only when out of the zone, then walk and hand in |
| AutoGather.Execute | vsatisfy/AutoGather.cs:12-34 | nothing when no delivery is left; aborts without gather or craft data; a refused start aborts after only the start; travel begins only after both waits; statuses and requests are a prefix of the gathering delivery's |
| AutoGather.GatherHandsInRemaining | vsatisfy/AutoGather.cs:33 | a whole run hands in slot 1 once per delivery left and nothing from another slot |
| AutoGather.StartsGatheringOnce | vsatisfy/AutoGather.cs:21-33 | the start request comes first and is never sent again |
| AutoFish.FishNeeded | vsatisfy/AutoFish.cs:21-22 | without wrap-around, fish are missing exactly when the stock is below the remaining count |
| AutoFish.SpotStatus | vsatisfy/AutoFish.cs:28-31 | spearfishing exactly for a spearfishing spot, fishing otherwise, naming the spot |
| AutoFish.GoFishing | vsatisfy/AutoFish.cs:24-32 | status "teleporting", teleport only when out of the zone, the spot status, walk to the spot |
| AutoFish.HandInCatch | vsatisfy/AutoFish.cs:36-41 | status "teleporting", teleport only when out of the zone, then the closing phase from slot 2 |
| AutoFish.Execute | vsatisfy/AutoFish.cs:11-43 | nothing when no delivery is left; aborts without fish or craft data; goes fishing exactly when fish are missing, otherwise hands in |
| AutoFish.FishingNeverHandsIn | vsatisfy/AutoFish.cs:22-33 | a fishing trip, whole or cut short, never interacts with an NPC and never hands in |
| AutoFish.CatchHandedIn | vsatisfy/AutoFish.cs:34-41 | a whole hand-in offers slot 2 once per delivery left and nothing from another slot |

## Left out

Left out entirely:
- Logging (`Log`, `Service.Log`) and debug output.
- The framework scheduling of `AutoTask.Run` (vsatisfy/Automation.cs:47-58): `Framework.Run`, `DelayTicks`, token disposal and continuations. A frame is an explicit step, and cancellation is a flag checked at each frame wait. The completion callback is `Automation.Completed`.
- The exception that `Run` logs for a faulted task: the model has no log of it.
- Floating point. Positions are opaque `Vec3` values, and "player in range" is an oracle question. Map.cs, Fish.cs and FishData.cs are not part of this model.
- The cross-thread `RunOnFrameworkThread(...).Wait(5000)` in `GetCurrentGatheringJob`. Only its final filter to jobs 16 and 17 is kept.
- Game memory, the UI and the helper plugins (navmesh, Artisan, Questionable). They are answers of the oracle `World.Env`. Each request is one `Action` whose success is the oracle's.
- The game-data sheets and layer files. They are given as maps and sequences in `GameData.Sheets`.

Modelled differently from the source:
- Status lines are values such as `TurningIn(count, itemId)`, not formatted text. They carry the item id instead of the item name (`Delivery.ItemName` models that lookup separately). The fishing status carries the spot id instead of the place name.
- `TeleportTo` is called with a position at vsatisfy/AutoCraft.cs:24, vsatisfy/AutoGather.cs:28 and vsatisfy/AutoFish.cs:25, 37. The signature at vsatisfy/AutoCommon.cs:31 takes an aetheryte id instead. The teleport target is therefore `ClosestTo(position)` or `Aetheryte(id)`.
- The fishing workflow calls `MoveTo` with three more flags (vsatisfy/AutoFish.cs:32). It is modelled as `MoveTo(center, 10)`.
- `TurnIn(npc, 2)` (vsatisfy/AutoFish.cs:41) is an overload the source does not show. It is modelled as the turn-in of the fish item from slot 2 for the remaining count.
- `RemainingTurnins` and `GatherData` are not among the fields of vsatisfy/NPCInfo.cs. Remaining deliveries are an oracle count, `RemainingTurnins(slot)`. The gathering data is an `Option<GatherItem>` field.
- `Config.SelectedGatherJob` is not in vsatisfy/Config.cs. The job choice and the configured job are inputs (`GatherData.Context`).
- `GetGatherer` switches on the crafting job choice, `Config.CraftJobType`. The model calls that input `choice`.
- The gathering workflow walks to `VendorLocation` but hands in at `TurnInInstanceId` (vsatisfy/AutoGather.cs:31-33). This is modelled as written.
- The shop is not closed when a purchase aborts, because the source registers no release for it (vsatisfy/AutoCraft.cs:48-67): an abort after the shop opened leaves it open. The model follows the code. Only `NavStop` is released on every exit, and the model states that.
- A lookup of a missing row, the local-player dereference and an out-of-range index throw in the source. They are `Failed(fault)` outcomes, or a `fault` result in `InitHardcodedData`. The constructor of `CraftData` requires the rows it dereferences; `InitHardcodedData` checks them first.
- `Suspended` stands for a coroutine whose next frame has not come within the frame budget. A suspended step has not closed its scopes or run its releases yet, as in the source.

Contracts stated weaker than the source:
- AutoCraft.ShopRefNames: identifies the vendor id as a number (`v1 as int == v2 as int`) rather than as a `bv64` equality. The two are the same value.
- AutoCraft.CraftItem: on `Done` it states `stock >= finalCount` for the count it returns, but does not tie that count to the position in the log where it was read (`FinishCraft` does).
- AutoFish.GoFishing: does not state the arrival distance 10 in its contract. The constant `SPOT_TOLERANCE` is passed to `MoveTo`, whose contract states it.
- AutoCraft.Execute, AutoGather.Execute, AutoFish.Execute: whether a walk was needed, whether the dialog was opened and whether a teleport was needed are ghost results of the workflow. They are tied to the oracle's answers one step down: the teleport by the `teleported`/`trip` ensures of each workflow, the dialog by `AutoCommon.Approach` and `AutoCommon.TurnIn`, and the walk by `Delivery.Deliver`, `AutoCraft.StockUp` and `AutoGather.WalkAndHandIn` (a walk exactly when the player was out of range, on `Done`). The workflow contracts do not repeat these ties.
- AutoFish.GoFishing: its `walked` result is not tied to the range answer, because the position in the log where `MoveTo` starts follows a teleport of unknown length. `MoveTo` itself states the tie.
- CraftTurnin.IngredientOfCraftedRecipe, AutoCraft.Execute, AutoCraft.CraftItem: the local player is one value passed through the whole crafting delivery. The source reads `LocalPlayer` afresh when it looks up the ingredient (vsatisfy/AutoCraft.cs:30) and again when it looks up the recipe to craft (vsatisfy/AutoCraft.cs:73), after a walk and a purchase. So "the ingredient bought is the one the crafted recipe uses" holds in the model because the job cannot change in between; in the game a job change between the two reads would buy for one recipe and craft another.
- Calculations.BonusGuarantee: the value lies in [-9, 0] before the epoch only while `timestamp - 1657008000` does not wrap. More than 2^31 seconds before the epoch, the subtraction wraps and the value is not negative (`BonusGuaranteeWraps`).
