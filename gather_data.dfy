/**
 * Which gatherer job a gathering delivery is done with: the configured job,
 * the player's current gatherer job, or the gatherer job with the lowest or
 * highest level. The choice is a function of the configuration and the
 * game state at the moment it is read; nothing is remembered between reads.
 */
module GatherData {
  import opened Ints
  import opened Wrappers
  import opened GameData

  /** The class/job ids of the gatherers considered: miner and botanist. */
  const MINER: int := 16
  const BOTANIST: int := 17

  /** How the gatherer job is chosen (`Config.JobChoice`); an unlisted enum value is `Other`. */
  datatype JobChoice = Specific | Current | LowestXP | HighestXP | Other(value: int)

  /** The configuration and game state the choice reads. */
  datatype Context = Context(
    choice: JobChoice,
    selectedGatherJob: UInt32,                // the configured job
    classJobs: Option<seq<ClassJobRow>>,      // the ClassJob sheet, if it loaded
    levels: Option<seq<int>>,                 // the player's job levels, if the player state exists
    player: Option<Player>)                   // the local player, if logged in

  /** A gathering delivery: the item to gather. */
  datatype GatherItem = GatherItem(gatherItemId: UInt32)

  function IsGatherer(job: int): bool
  {
    job == MINER || job == BOTANIST
  }

  /** The player's current job if it is a gatherer, the configured job otherwise. */
  function CurrentGatheringJob(ctx: Context): (r: UInt32)
    ensures r == ctx.selectedGatherJob || (ctx.player.Some? && r == ctx.player.value.classJob && IsGatherer(r))
    ensures ctx.player.Some? && IsGatherer(ctx.player.value.classJob) ==> r == ctx.player.value.classJob
    ensures ctx.player.None? ==> r == ctx.selectedGatherJob
  {
    var job := if ctx.player.Some? then ctx.player.value.classJob else ctx.selectedGatherJob;
    if IsGatherer(job) then job else ctx.selectedGatherJob
  }

  /** A row qualifies: a gatherer whose level slot exists and holds a level of at least 1. */
  predicate Qualifies(c: ClassJobRow, levels: Option<seq<int>>)
  {
    IsGatherer(c.rowId) && levels.Some? && 0 <= c.expArrayIndex < |levels.value| && levels.value[c.expArrayIndex] >= 1
  }

  /** The qualifying rows, in sheet order. */
  function Candidates(rows: seq<ClassJobRow>, levels: Option<seq<int>>): (r: seq<ClassJobRow>)
    ensures forall k :: 0 <= k < |r| ==> Qualifies(r[k], levels)
    ensures forall c :: c in rows && Qualifies(c, levels) ==> c in r
    ensures |r| <= |rows|
  {
    if |rows| == 0 then []
    else
      var init := Candidates(rows[..|rows| - 1], levels);
      assert forall c :: c in rows ==> c in rows[..|rows| - 1] || c == rows[|rows| - 1];
      if Qualifies(rows[|rows| - 1], levels) then init + [rows[|rows| - 1]] else init
  }

  /**
   * Candidates keeps the sheet's order: the candidates of two consecutive
   * stretches of the sheet are those of the first stretch, then those of
   * the second.
   */
  lemma {:induction false} CandidatesSplit(rows1: seq<ClassJobRow>, rows2: seq<ClassJobRow>, levels: Option<seq<int>>)
    decreases |rows2|
    ensures Candidates(rows1 + rows2, levels) == Candidates(rows1, levels) + Candidates(rows2, levels)
  {
    if |rows2| > 0 {
      var last := rows2[|rows2| - 1];
      var init := rows2[..|rows2| - 1];
      assert (rows1 + rows2)[..|rows1 + rows2| - 1] == rows1 + init;
      CandidatesSplit(rows1, init, levels);
    } else {
      assert rows1 + rows2 == rows1;
    }
  }

  /** A single sheet row is a candidate exactly when it qualifies. */
  lemma CandidatesOfRow(c: ClassJobRow, levels: Option<seq<int>>)
    ensures Candidates([c], levels) == if Qualifies(c, levels) then [c] else []
  {
    assert [c][..0] == [];
  }

  /**
   * Of two qualifying rows, the earlier in the sheet comes first among the
   * candidates: ties in level therefore go to the earlier sheet row.
   */
  lemma EarlierRowFirst(rows: seq<ClassJobRow>, levels: Option<seq<int>>, i: nat, j: nat)
    requires i < j < |rows| && Qualifies(rows[i], levels) && Qualifies(rows[j], levels)
    ensures exists a, b ::
              0 <= a < b < |Candidates(rows, levels)| &&
              Candidates(rows, levels)[a] == rows[i] && Candidates(rows, levels)[b] == rows[j]
  {
    var front, back := rows[..j], rows[j..];
    assert rows == front + back;
    CandidatesSplit(front, back, levels);
    assert rows[i] in front;
    var cf := Candidates(front, levels);
    assert rows[i] in cf;
    var a :| 0 <= a < |cf| && cf[a] == rows[i];
    assert back == [rows[j]] + back[1..];
    CandidatesSplit([rows[j]], back[1..], levels);
    CandidatesOfRow(rows[j], levels);
    var r := Candidates(rows, levels);
    assert r[a] == rows[i] && r[|cf|] == rows[j];
  }

  /** The level of each candidate. */
  function LevelsOf(cands: seq<ClassJobRow>, levels: seq<int>): (r: seq<int>)
    requires forall k :: 0 <= k < |cands| ==> 0 <= cands[k].expArrayIndex < |levels|
    ensures |r| == |cands|
    ensures forall k :: 0 <= k < |cands| ==> r[k] == levels[cands[k].expArrayIndex]
  {
    if |cands| == 0 then []
    else LevelsOf(cands[..|cands| - 1], levels) + [levels[cands[|cands| - 1].expArrayIndex]]
  }

  /** The position of the first least key: what a stable ascending sort puts first. */
  function FirstMin(keys: seq<int>): (i: nat)
    requires |keys| > 0
    ensures i < |keys|
    ensures forall k :: 0 <= k < |keys| ==> keys[i] <= keys[k]
    ensures forall k :: 0 <= k < i ==> keys[k] > keys[i]
  {
    if |keys| == 1 then 0
    else
      var j := FirstMin(keys[..|keys| - 1]);
      assert forall k :: 0 <= k < |keys| - 1 ==> keys[..|keys| - 1][k] == keys[k];
      if keys[|keys| - 1] < keys[j] then |keys| - 1 else j
  }

  /** The position of the first greatest key: what a stable descending sort puts first. */
  function FirstMax(keys: seq<int>): (i: nat)
    requires |keys| > 0
    ensures i < |keys|
    ensures forall k :: 0 <= k < |keys| ==> keys[i] >= keys[k]
    ensures forall k :: 0 <= k < i ==> keys[k] < keys[i]
  {
    if |keys| == 1 then 0
    else
      var j := FirstMax(keys[..|keys| - 1]);
      assert forall k :: 0 <= k < |keys| - 1 ==> keys[..|keys| - 1][k] == keys[k];
      if keys[|keys| - 1] > keys[j] then |keys| - 1 else j
  }

  /**
   * Position `i` holds the least key (the greatest when not `lowest`) and no
   * earlier position holds an equally good one.
   */
  ghost predicate FirstBest(keys: seq<int>, i: int, lowest: bool)
  {
    0 <= i < |keys| &&
    (forall k :: 0 <= k < |keys| ==> if lowest then keys[i] <= keys[k] else keys[i] >= keys[k]) &&
    (forall k :: 0 <= k < i ==> if lowest then keys[k] > keys[i] else keys[k] < keys[i])
  }

  /** The position a stable sort by level, ascending when `lowest`, descending otherwise, puts first. */
  function Pick(keys: seq<int>, lowest: bool): (i: nat)
    requires |keys| > 0
    ensures FirstBest(keys, i, lowest)
  {
    if lowest then FirstMin(keys) else FirstMax(keys)
  }

  /**
   * The lowest- or highest-level candidate's id: with no sheet, the
   * configured job; with no candidate, the id of a default row, 0.
   */
  function ByLevel(ctx: Context, lowest: bool): (r: UInt32)
    ensures ctx.classJobs.None? ==> r == ctx.selectedGatherJob
    ensures ctx.classJobs.Some? && Candidates(ctx.classJobs.value, ctx.levels) == [] ==> r == 0
    ensures ctx.classJobs.Some? && Candidates(ctx.classJobs.value, ctx.levels) != [] ==>
      var cands := Candidates(ctx.classJobs.value, ctx.levels);
      ctx.levels.Some? && IsGatherer(r) &&
      r == cands[Pick(LevelsOf(cands, ctx.levels.value), lowest)].rowId
  {
    if ctx.classJobs.None? then ctx.selectedGatherJob
    else
      var cands := Candidates(ctx.classJobs.value, ctx.levels);
      if |cands| == 0 then 0
      else
        assert Qualifies(cands[0], ctx.levels);
        var i := Pick(LevelsOf(cands, ctx.levels.value), lowest);
        assert Qualifies(cands[i], ctx.levels);
        cands[i].rowId
  }

  /** The gatherer job a gathering delivery uses (`GatherData.ClassJobId`). */
  function ClassJobId(ctx: Context): (r: UInt32)
    ensures ctx.choice.Specific? || ctx.choice.Other? ==> r == ctx.selectedGatherJob
    ensures ctx.choice.Current? ==> r == CurrentGatheringJob(ctx)
    ensures ctx.choice.LowestXP? ==> r == ByLevel(ctx, true)
    ensures ctx.choice.HighestXP? ==> r == ByLevel(ctx, false)
  {
    match ctx.choice
    case Specific => ctx.selectedGatherJob
    case Current => CurrentGatheringJob(ctx)
    case LowestXP => ByLevel(ctx, true)
    case HighestXP => ByLevel(ctx, false)
    case Other(_) => ctx.selectedGatherJob
  }

  /** Whatever the choice, the job is the configured one, a gatherer, or the default row's 0. */
  lemma ClassJobIdRange(ctx: Context)
    ensures var r := ClassJobId(ctx); r == ctx.selectedGatherJob || IsGatherer(r) || r == 0
  {
  }
}
