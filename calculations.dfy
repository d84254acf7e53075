/**
 * The two calculations that reproduce choices the game makes internally:
 * the week index that decides the bonus-guaranteed request, and the
 * hash-driven weighted choice of the three requested items of a supply row.
 */
module Calculations {
  import opened Ints
  import opened Wrappers
  import opened GameData

  /** Start of the first bonus-guarantee week, in seconds since the Unix epoch. */
  const BONUS_EPOCH: int := 1657008000
  const SECONDS_PER_WEEK: int := 604800
  /** The value a request slot keeps when no subrow was chosen for it (`0xFFFFFFFF`). */
  const NO_CHOICE: UInt32 := 0xFFFF_FFFF
  /** A subrow is addressed by a 16-bit id, so a supply row has at most this many subrows. */
  const MAX_SUBROWS: int := 0x1_0000

  // ---------------------------------------------------------------------------
  // Bonus guarantee

  /**
   * The bonus-guarantee index of a 32-bit timestamp: whole weeks since the
   * epoch, modulo 10, with C#'s wrapping subtraction and truncating `/` and `%`.
   */
  function BonusGuarantee(timestamp: Int32): (r: Int32)
    ensures -9 <= r <= 9
    ensures timestamp >= BONUS_EPOCH ==> 0 <= r <= 9
    ensures BONUS_EPOCH + MIN_INT32 <= timestamp < BONUS_EPOCH ==> -9 <= r <= 0
  {
    var secondsSinceStart := WrapInt32(timestamp - BONUS_EPOCH);
    var weeksSinceStart := TruncDiv(secondsSinceStart, SECONDS_PER_WEEK);
    TruncRem(weeksSinceStart, 10)
  }

  /** Every timestamp of week `k` after the epoch gives the index `k % 10`. */
  lemma BonusGuaranteeOfWeek(timestamp: Int32, k: nat)
    requires BONUS_EPOCH + k * SECONDS_PER_WEEK <= timestamp < BONUS_EPOCH + (k + 1) * SECONDS_PER_WEEK
    ensures BonusGuarantee(timestamp) == k % 10
  {
    var s := timestamp - BONUS_EPOCH;
    assert WrapInt32(s) == s;
    assert s / SECONDS_PER_WEEK == k;
    assert TruncDiv(s, SECONDS_PER_WEEK) == k;
  }

  /** Two timestamps of the same week after the epoch give the same index. */
  lemma BonusGuaranteeSameWeek(t1: Int32, t2: Int32)
    requires t1 >= BONUS_EPOCH && t2 >= BONUS_EPOCH
    requires (t1 - BONUS_EPOCH) / SECONDS_PER_WEEK == (t2 - BONUS_EPOCH) / SECONDS_PER_WEEK
    ensures BonusGuarantee(t1) == BonusGuarantee(t2)
  {
    var k := (t1 - BONUS_EPOCH) / SECONDS_PER_WEEK;
    BonusGuaranteeOfWeek(t1, k);
    BonusGuaranteeOfWeek(t2, k);
  }

  /** One week later the index has advanced by one, modulo 10. */
  lemma BonusGuaranteeNextWeek(timestamp: Int32)
    requires timestamp >= BONUS_EPOCH
    requires timestamp + SECONDS_PER_WEEK <= MAX_INT32
    ensures BonusGuarantee(timestamp + SECONDS_PER_WEEK) == (BonusGuarantee(timestamp) + 1) % 10
  {
    var k := (timestamp - BONUS_EPOCH) / SECONDS_PER_WEEK;
    BonusGuaranteeOfWeek(timestamp, k);
    BonusGuaranteeOfWeek(timestamp + SECONDS_PER_WEEK, k + 1);
  }

  /**
   * Before `BONUS_EPOCH - 2^31` the subtraction wraps around to a positive
   * number of seconds, so the index is not negative there.
   */
  lemma BonusGuaranteeWraps(timestamp: Int32)
    requires timestamp < BONUS_EPOCH + MIN_INT32
    ensures 0 <= BonusGuarantee(timestamp)
  {
    var s := timestamp - BONUS_EPOCH;
    assert s + TWO_32 <= MAX_INT32;
    assert s % TWO_32 == s + TWO_32;
    assert WrapInt32(s) >= 0;
  }

  // ---------------------------------------------------------------------------
  // Requested items

  /** The hash registers `h1`..`h5` of the selection. */
  datatype Registers = Registers(h1: bv32, h2: bv32, h3: bv32, h4: bv32, h5: bv32)

  /** The registers seeded from the supply index and the weekly seed by wrapping products. */
  function Seed(supplyIndex: bv32, seed: bv32): Registers
  {
    var h1 := (0x03CE_A65C * supplyIndex) ^ (0x1A0D_D20E * seed);
    var h2 := (0xDF58_5D5D * supplyIndex) ^ (0x3057_656E * seed);
    var h3 := (0xED69_E442 * supplyIndex) ^ (0x2202_EA5A * seed);
    var h4 := (0xAEFC_3901 * supplyIndex) ^ (0xE707_23F6 * seed);
    Registers(h1, h2, h3, h4, h1)
  }

  /** The xorshift-style step taken before each slot's roll. */
  function Advance(r: Registers): Registers
  {
    var t := r.h5 ^ (r.h5 << 11);
    Registers(r.h3, r.h3, r.h4, r.h4 ^ t ^ ((t ^ (r.h4 >> 11)) >> 8), r.h2)
  }

  /** The registers after `k` steps. */
  function RegistersAt(r: Registers, k: nat): Registers
  {
    if k == 0 then r else Advance(RegistersAt(r, k - 1))
  }

  predicate SubrowCountsFit(supply: map<nat, seq<SupplyRow>>)
  {
    forall k | k in supply :: |supply[k]| <= MAX_SUBROWS
  }

  /** The sum of the weights of the subrows of `rows` that belong to `slot`. */
  function SlotWeight(rows: seq<SupplyRow>, slot: int): (w: nat)
    ensures w <= 255 * |rows|
  {
    if rows == [] then 0
    else
      var last := rows[|rows| - 1];
      SlotWeight(rows[..|rows| - 1], slot) + (if last.slot == slot then last.probabilityPct else 0)
  }

  /**
   * The walk over the subrows from index `i`: subrows of other slots are
   * skipped without touching the roll; a subrow of `slot` is chosen when the
   * roll is below its weight, otherwise its weight is taken off the roll.
   */
  function Walk(rows: seq<SupplyRow>, slot: int, roll: int, i: nat): (k: UInt32)
    requires i <= |rows| <= MAX_SUBROWS
    ensures k == NO_CHOICE || (i <= k < |rows| && rows[k].slot == slot)
    decreases |rows| - i
  {
    if i == |rows| then NO_CHOICE
    else if rows[i].slot != slot then Walk(rows, slot, roll, i + 1)
    else if roll < rows[i].probabilityPct then i
    else Walk(rows, slot, roll - rows[i].probabilityPct, i + 1)
  }

  /** The roll of `slot`: the fourth register modulo the slot's weight. */
  function Roll(rows: seq<SupplyRow>, slot: int, regs: Registers): nat
    requires SlotWeight(rows, slot) > 0
  {
    (regs.h4 as int) % SlotWeight(rows, slot)
  }

  predicate HasEmptySlot(rows: seq<SupplyRow>)
  {
    exists slot | 1 <= slot <= 3 :: SlotWeight(rows, slot) == 0
  }

  /** The subrow chosen for `slot`, rolling with the registers after `slot` steps from `init`. */
  function SlotChoice(rows: seq<SupplyRow>, slot: int, init: Registers): UInt32
    requires |rows| <= MAX_SUBROWS && 1 <= slot && SlotWeight(rows, slot) > 0
  {
    Walk(rows, slot, Roll(rows, slot, RegistersAt(init, slot)), 0)
  }

  /**
   * The three subrow indices chosen from the subrows of one supply row,
   * slot `k + 1` rolling with the registers after `k + 1` steps from
   * `init`; a slot of weight zero is a division by zero.
   */
  function ChooseSubrows(rows: seq<SupplyRow>, init: Registers): Result<seq<UInt32>>
    requires |rows| <= MAX_SUBROWS
  {
    if HasEmptySlot(rows) then Err(DivideByZero)
    else
      assert SlotWeight(rows, 1) > 0 && SlotWeight(rows, 2) > 0 && SlotWeight(rows, 3) > 0;
      Ok([SlotChoice(rows, 1, init), SlotChoice(rows, 2, init), SlotChoice(rows, 3, init)])
  }

  /**
   * The three subrow indices the game chooses for a supply row and seed.
   * A missing supply row is an exception.
   */
  function RequestedItems(supply: map<nat, seq<SupplyRow>>, supplyIndex: bv32, seed: bv32): Result<seq<UInt32>>
    requires SubrowCountsFit(supply)
  {
    if supplyIndex as nat !in supply then Err(MissingRow)
    else ChooseSubrows(supply[supplyIndex as nat], Seed(supplyIndex, seed))
  }

  lemma SlotWeightStep(rows: seq<SupplyRow>, slot: int, i: nat)
    requires i < |rows|
    ensures SlotWeight(rows[..i + 1], slot)
         == SlotWeight(rows[..i], slot) + (if rows[i].slot == slot then rows[i].probabilityPct else 0)
  {
    assert rows[..i + 1][..i] == rows[..i];
  }

  /** Cumulative weights never decrease along the subrows. */
  lemma {:induction false} SlotWeightMonotone(rows: seq<SupplyRow>, slot: int, a: nat, b: nat)
    requires a <= b <= |rows|
    ensures SlotWeight(rows[..a], slot) <= SlotWeight(rows[..b], slot)
  {
    if a < b {
      SlotWeightMonotone(rows, slot, a, b - 1);
      SlotWeightStep(rows, slot, b - 1);
    }
  }

  /** `j` is the first subrow whose cumulative weight for `slot` exceeds `roll`. */
  ghost predicate FirstExceeding(rows: seq<SupplyRow>, slot: int, roll: int, j: int)
  {
    0 <= j < |rows| && roll < SlotWeight(rows[..j + 1], slot) &&
    forall i :: 0 < i <= j ==> SlotWeight(rows[..i], slot) <= roll
  }

  /** At most one subrow is the first whose cumulative weight exceeds the roll. */
  lemma FirstExceedingUnique(rows: seq<SupplyRow>, slot: int, roll: int, j1: int, j2: int)
    requires FirstExceeding(rows, slot, roll, j1) && FirstExceeding(rows, slot, roll, j2)
    ensures j1 == j2
  {
  }

  /**
   * From subrow `i` on, with `base` the weight already passed, the walk
   * lands on the subrow whose cumulative range contains `roll + base`.
   */
  lemma {:induction false} WalkLandsInRange(rows: seq<SupplyRow>, slot: int, roll: int, i: nat)
    requires i <= |rows| <= MAX_SUBROWS
    requires 0 <= roll && roll + SlotWeight(rows[..i], slot) < SlotWeight(rows[..|rows|], slot)
    ensures var k := Walk(rows, slot, roll, i);
      i <= k < |rows| && rows[k].slot == slot &&
      SlotWeight(rows[..k], slot) <= roll + SlotWeight(rows[..i], slot) < SlotWeight(rows[..k + 1], slot)
    decreases |rows| - i
  {
    if i == |rows| {
      assert false;
    } else {
      SlotWeightStep(rows, slot, i);
      var w := rows[i].probabilityPct;
      if rows[i].slot != slot {
        assert Walk(rows, slot, roll, i) == Walk(rows, slot, roll, i + 1);
        WalkLandsInRange(rows, slot, roll, i + 1);
      } else if roll >= w {
        assert Walk(rows, slot, roll, i) == Walk(rows, slot, roll - w, i + 1);
        WalkLandsInRange(rows, slot, roll - w, i + 1);
      } else {
        assert Walk(rows, slot, roll, i) == i;
      }
    }
  }

  /**
   * When the roll is below the slot's total weight, the walk chooses the
   * first subrow whose cumulative weight exceeds the roll, and that subrow
   * belongs to the slot.
   */
  lemma WalkChoosesFirstExceeding(rows: seq<SupplyRow>, slot: int, roll: int)
    requires |rows| <= MAX_SUBROWS
    requires 0 <= roll < SlotWeight(rows, slot)
    ensures var k := Walk(rows, slot, roll, 0);
      k != NO_CHOICE && rows[k].slot == slot && FirstExceeding(rows, slot, roll, k)
  {
    assert rows[..0] == [];
    assert rows[..|rows|] == rows;
    WalkLandsInRange(rows, slot, roll, 0);
    var k := Walk(rows, slot, roll, 0);
    forall i | 0 < i <= k
      ensures SlotWeight(rows[..i], slot) <= roll
    {
      SlotWeightMonotone(rows, slot, i, k);
    }
  }

  /**
   * The selection fails exactly when the supply row is missing or one of
   * its three slots has no weight; otherwise each slot `k + 1` gets the
   * first of its subrows whose cumulative weight exceeds that slot's roll,
   * and never the `0xFFFFFFFF` placeholder.
   */
  lemma RequestedItemsChoices(supply: map<nat, seq<SupplyRow>>, supplyIndex: bv32, seed: bv32)
    requires SubrowCountsFit(supply)
    ensures var r := RequestedItems(supply, supplyIndex, seed);
      (r == Err(MissingRow) <==> supplyIndex as nat !in supply) &&
      (r == Err(DivideByZero) <==> supplyIndex as nat in supply && HasEmptySlot(supply[supplyIndex as nat])) &&
      (r.Ok? ==> |r.value| == 3)
    ensures var r := RequestedItems(supply, supplyIndex, seed);
      r.Ok? ==>
        var rows := supply[supplyIndex as nat];
        forall k | 0 <= k < 3 ::
          SlotWeight(rows, k + 1) > 0 &&
          FirstExceeding(rows, k + 1, Roll(rows, k + 1, RegistersAt(Seed(supplyIndex, seed), k + 1)), r.value[k]) &&
          r.value[k] != NO_CHOICE && rows[r.value[k]].slot == k + 1
  {
    var r := RequestedItems(supply, supplyIndex, seed);
    if r.Ok? {
      var rows := supply[supplyIndex as nat];
      forall k | 0 <= k < 3
        ensures SlotWeight(rows, k + 1) > 0
        ensures FirstExceeding(rows, k + 1, Roll(rows, k + 1, RegistersAt(Seed(supplyIndex, seed), k + 1)), r.value[k])
        ensures r.value[k] != NO_CHOICE && rows[r.value[k]].slot == k + 1
      {
        assert SlotWeight(rows, k + 1) > 0;
        WalkChoosesFirstExceeding(rows, k + 1, Roll(rows, k + 1, RegistersAt(Seed(supplyIndex, seed), k + 1)));
      }
    }
  }

  /** The first inner loop: sum the weights of the subrows of `slot`. */
  method SumProbabilities(rows: seq<SupplyRow>, slot: int) returns (sum: nat)
    ensures sum == SlotWeight(rows, slot)
  {
    sum := 0;
    var iSub := 0;
    while iSub < |rows|
      invariant 0 <= iSub <= |rows|
      invariant sum == SlotWeight(rows[..iSub], slot)
    {
      var row := rows[iSub];
      assert rows[..iSub + 1][..iSub] == rows[..iSub];
      if row.slot == slot {
        sum := sum + row.probabilityPct;
      }
      iSub := iSub + 1;
    }
    assert rows[..|rows|] == rows;
  }

  /**
   * The second inner loop: walk the subrows in order, skipping other slots
   * and taking each passed weight off the roll, until the roll falls inside one.
   */
  method PickSubrow(rows: seq<SupplyRow>, slot: int, roll0: int) returns (chosen: UInt32)
    requires |rows| <= MAX_SUBROWS
    ensures chosen == Walk(rows, slot, roll0, 0)
  {
    chosen := NO_CHOICE;
    var roll := roll0;
    var iSub := 0;
    while iSub < |rows|
      invariant 0 <= iSub <= |rows|
      invariant Walk(rows, slot, roll, iSub) == Walk(rows, slot, roll0, 0)
    {
      var row := rows[iSub];
      if row.slot == slot {
        if roll < row.probabilityPct {
          chosen := iSub;
          break;
        }
        roll := roll - row.probabilityPct;
      }
      iSub := iSub + 1;
    }
  }

  /**
   * The selection as the game runs it: look the supply row up, seed the
   * registers, and choose a subrow per slot.
   */
  method CalculateRequestedItems(supply: map<nat, seq<SupplyRow>>, supplyIndex: bv32, seed: bv32)
    returns (res: Result<seq<UInt32>>)
    requires SubrowCountsFit(supply)
    ensures res == RequestedItems(supply, supplyIndex, seed)
  {
    if supplyIndex as nat !in supply {
      return Err(MissingRow);
    }
    res := SelectSubrows(supply[supplyIndex as nat], Seed(supplyIndex, seed));
  }

  /**
   * The slot loop: for each slot, sum the slot's weights, step the
   * registers, roll, and walk the subrows.
   */
  method SelectSubrows(rows: seq<SupplyRow>, init: Registers) returns (res: Result<seq<UInt32>>)
    requires |rows| <= MAX_SUBROWS
    ensures res == ChooseSubrows(rows, init)
  {
    var regs := init;
    var chosen := new UInt32[] [NO_CHOICE, NO_CHOICE, NO_CHOICE];
    var iSlot := 1;
    while iSlot < 4
      invariant 1 <= iSlot <= 4
      invariant regs == RegistersAt(init, iSlot - 1)
      invariant forall slot :: 1 <= slot < iSlot ==> SlotWeight(rows, slot) > 0
      invariant forall k :: 0 <= k < iSlot - 1 ==> chosen[k] == SlotChoice(rows, k + 1, init)
      invariant forall k :: iSlot - 1 <= k < 3 ==> chosen[k] == NO_CHOICE
    {
      var sumProbabilities := SumProbabilities(rows, iSlot);
      regs := Advance(regs);
      if sumProbabilities == 0 {
        assert HasEmptySlot(rows) by { assert SlotWeight(rows, iSlot) == 0; }
        return Err(DivideByZero);
      }
      assert regs == RegistersAt(init, iSlot);
      var roll := (regs.h4 as int) % sumProbabilities;
      var pick := PickSubrow(rows, iSlot, roll);
      assert pick == SlotChoice(rows, iSlot, init);
      chosen[iSlot - 1] := pick;
      iSlot := iSlot + 1;
    }
    assert chosen[..] == [chosen[0], chosen[1], chosen[2]];
    ChosenInEverySlot(rows, init);
    res := Ok(chosen[..]);
  }

  /** Three subrows chosen slot by slot, every slot weighted, are the selection. */
  lemma ChosenInEverySlot(rows: seq<SupplyRow>, init: Registers)
    requires |rows| <= MAX_SUBROWS
    requires SlotWeight(rows, 1) > 0 && SlotWeight(rows, 2) > 0 && SlotWeight(rows, 3) > 0
    ensures ChooseSubrows(rows, init) == Ok([SlotChoice(rows, 1, init), SlotChoice(rows, 2, init), SlotChoice(rows, 3, init)])
  {
    NoEmptySlot(rows);
  }

  lemma NoEmptySlot(rows: seq<SupplyRow>)
    requires SlotWeight(rows, 1) > 0 && SlotWeight(rows, 2) > 0 && SlotWeight(rows, 3) > 0
    ensures !HasEmptySlot(rows)
  {
  }
}
