/**
 * The steps every delivery workflow is built from: walking to a point,
 * teleporting to a zone, handing items in at a supply NPC, and waiting for
 * a condition while clicking through talk dialogs.
 *
 * Each step runs in a scope of its own and returns how it ended. It also
 * returns, as a ghost result `made`, the requests it sent, so that the
 * workflows can state which requests they send and in which order.
 */
module AutoCommon {
  import opened Ints
  import opened GameData
  import opened World
  import opened Tasks

  const NAVMESH_NOT_READY := "Failed to build navmesh for the zone"
  const PATHFIND_FAILED := "Failed to start pathfinding to destination"
  const TELEPORT_FAILED := "Failed to teleport"
  const WRONG_ZONE := "Failed to teleport to expected zone"
  const INTERACT_FAILED := "Failed to interact with turn-in NPC"

  /**
   * What every step keeps: the log stays faithful and only grows,
   * cancellation is never undone and is set when the step reports it, and
   * unless the step is suspended mid-way its scopes are closed again.
   */
  ghost predicate Kept(t: AutoTask, log0: seq<Event>, scopes0: seq<string>, cancelled0: bool, o: Outcome)
    reads t
  {
    t.Valid()
    && log0 <= t.log
    && (cancelled0 ==> t.cancelled)
    && (o.Cancelled? ==> t.cancelled)
    && (!o.Suspended? ==> t.scopes == scopes0)
  }

  /**
   * `WaitWhile` as the workflows use it: the wait keeps what every step
   * keeps, adds only checks of the test's condition and passing frames, and
   * when it completes its last event is the check that let it through.
   */
  method Await(t: AutoTask, test: Test, name: string) returns (o: Outcome)
    requires t.Valid()
    modifies t`scopes, t`log, t`cancelled, t`framesLeft
    ensures Kept(t, old(t.log), old(t.scopes), old(t.cancelled), o)
    ensures o.Done? || o.Cancelled? || o.Suspended?
    ensures o.Done? ==> t.cancelled == old(t.cancelled)
    ensures |t.log| > |old(t.log)| && OnlyChecks(t.log, |old(t.log)|, test.cond)
    ensures o.Done? ==> t.log[|t.log| - 1] == Probe(test.cond, !test.holdsWhen)
  {
    ghost var rounds;
    o, rounds := t.WaitWhile(test, name);
  }

  /** The requests a walk may have sent at each of its exits are prefixes of the full walk. */
  lemma WalkPrefixes(dest: Vec3)
    ensures [] <= [NavPathfindAndMoveTo(dest, false), NavStop]
    ensures [NavPathfindAndMoveTo(dest, false)] <= [NavPathfindAndMoveTo(dest, false), NavStop]
    ensures [NavPathfindAndMoveTo(dest, false)] + [NavStop] == [NavPathfindAndMoveTo(dest, false), NavStop]
  {
  }

  /**
   * The start of a walk: wait for the navmesh, check that it is ready and
   * start pathfinding, aborting when either fails.
   */
  method StartWalk(t: AutoTask, dest: Vec3) returns (o: Outcome, ghost made: seq<Action>)
    requires t.Valid()
    modifies t`scopes, t`log, t`cancelled, t`framesLeft, t`requests
    ensures Kept(t, old(t.log), old(t.scopes), old(t.cancelled), o)
    ensures o.Done? || o.Aborted? || o.Cancelled? || o.Suspended?
    ensures t.requests == old(t.requests) + made
    ensures made == [] || made == [NavPathfindAndMoveTo(dest, false)]
    ensures o.Cancelled? || o.Suspended? ==> made == []
    ensures o.Done? ==> made == [NavPathfindAndMoveTo(dest, false)] && t.cancelled == old(t.cancelled)
    ensures o.Done? ==> |t.log| > 0 && t.log[|t.log| - 1] == Call(NavPathfindAndMoveTo(dest, false), true)
    ensures o.Aborted? ==>
      |t.log| > 0 &&
      ((o.message == ErrorMessage(t.kind, old(t.scopes), NAVMESH_NOT_READY) &&
        made == [] && t.log[|t.log| - 1] == Probe(NavIsReady, false)) ||
       (o.message == ErrorMessage(t.kind, old(t.scopes), PATHFIND_FAILED) &&
        made == [NavPathfindAndMoveTo(dest, false)] &&
        t.log[|t.log| - 1] == Call(NavPathfindAndMoveTo(dest, false), false)))
    ensures Shows(t.log, |old(t.log)|, Probe(NavIsReady, false)) ==>
      o == Aborted(ErrorMessage(t.kind, old(t.scopes), NAVMESH_NOT_READY))
    ensures Shows(t.log, |old(t.log)|, Call(NavPathfindAndMoveTo(dest, false), false)) ==>
      o == Aborted(ErrorMessage(t.kind, old(t.scopes), PATHFIND_FAILED))
  {
    made := [];
    o := Await(t, Is(NavBuildInProgress), "BuildMesh");
    ghost var failed, lost := Probe(NavIsReady, false), Call(NavPathfindAndMoveTo(dest, false), false);
    OnlyChecksShowNothingElse(t.log, |old(t.log)|, NavBuildInProgress, failed);
    OnlyChecksShowNothingElse(t.log, |old(t.log)|, NavBuildInProgress, lost);
    if !o.Done? {
      return;
    }
    ghost var mid := t.log;
    var ready := t.Ask(NavIsReady);
    ShowsSnoc(mid, |old(t.log)|, failed, Probe(NavIsReady, ready));
    ShowsSnoc(mid, |old(t.log)|, lost, Probe(NavIsReady, ready));
    o := t.ErrorIf(!ready, NAVMESH_NOT_READY);
    if o.Aborted? {
      return;
    }
    mid := t.log;
    var started := t.Invoke(NavPathfindAndMoveTo(dest, false));
    ShowsSnoc(mid, |old(t.log)|, failed, Call(NavPathfindAndMoveTo(dest, false), started));
    ShowsSnoc(mid, |old(t.log)|, lost, Call(NavPathfindAndMoveTo(dest, false), started));
    made := [NavPathfindAndMoveTo(dest, false)];
    o := t.ErrorIf(!started, PATHFIND_FAILED);
  }

  /**
   * The walk proper, once the player is found out of range: start the walk,
   * wait for arrival, and once pathfinding has started stop the navigation
   * on every way out.
   */
  method Walk(t: AutoTask, dest: Vec3, tolerance: real) returns (o: Outcome, ghost made: seq<Action>, ghost at: nat)
    requires t.Valid()
    modifies t`scopes, t`log, t`cancelled, t`framesLeft, t`requests
    ensures Kept(t, old(t.log), old(t.scopes), old(t.cancelled), o)
    ensures o.Done? || o.Aborted? || o.Cancelled? || o.Suspended?
    ensures t.requests == old(t.requests) + made
    ensures made <= [NavPathfindAndMoveTo(dest, false), NavStop]
    ensures o.Aborted? ==>
      |t.log| > 0 &&
      ((o.message == ErrorMessage(t.kind, old(t.scopes), NAVMESH_NOT_READY) &&
        made == [] && t.log[|t.log| - 1] == Probe(NavIsReady, false)) ||
       (o.message == ErrorMessage(t.kind, old(t.scopes), PATHFIND_FAILED) &&
        made == [NavPathfindAndMoveTo(dest, false)] &&
        t.log[|t.log| - 1] == Call(NavPathfindAndMoveTo(dest, false), false)))
    ensures made != [] && (o.Done? || o.Cancelled?) ==> made == [NavPathfindAndMoveTo(dest, false), NavStop]
    ensures o.Done? ==> made == [NavPathfindAndMoveTo(dest, false), NavStop]
    ensures o.Done? ==>
      |old(t.log)| <= at < |t.log| && |t.log| - 2 <= at && t.log[at] == Probe(PlayerInRange(dest, tolerance), true)
    ensures Shows(t.log, |old(t.log)|, Probe(NavIsReady, false)) ==>
      o == Aborted(ErrorMessage(t.kind, old(t.scopes), NAVMESH_NOT_READY))
    ensures Shows(t.log, |old(t.log)|, Call(NavPathfindAndMoveTo(dest, false), false)) ==>
      o == Aborted(ErrorMessage(t.kind, old(t.scopes), PATHFIND_FAILED))
  {
    WalkPrefixes(dest);
    at := 0;
    o, made := StartWalk(t, dest);
    if !o.Done? {
      return;
    }
    ghost var mid := t.log;
    o := Await(t, IsNot(PlayerInRange(dest, tolerance)), "Navigate");
    ghost var failed, lost := Probe(NavIsReady, false), Call(NavPathfindAndMoveTo(dest, false), false);
    OnlyChecksShowNothingElse(t.log, |mid|, PlayerInRange(dest, tolerance), failed);
    OnlyChecksShowNothingElse(t.log, |mid|, PlayerInRange(dest, tolerance), lost);
    ShowsSplit(mid, t.log, |old(t.log)|, failed);
    ShowsSplit(mid, t.log, |old(t.log)|, lost);
    if o.Suspended? {
      return;
    }
    at := |t.log| - 1;
    mid := t.log;
    var stopped := t.Invoke(NavStop);
    ShowsSnoc(mid, |old(t.log)|, failed, Call(NavStop, stopped));
    ShowsSnoc(mid, |old(t.log)|, lost, Call(NavStop, stopped));
    ConcatAssoc(old(t.requests), made, [NavStop]);
    made := made + [NavStop];
  }

  /**
   * Walk to `dest` until within `tolerance` of it. Nothing is sent when the
   * player is already there; otherwise the step waits for the navmesh,
   * starts pathfinding and waits for arrival, and once pathfinding has
   * started it stops the navigation on every way out.
   */
  method MoveTo(t: AutoTask, dest: Vec3, tolerance: real) returns (o: Outcome, ghost made: seq<Action>, ghost at: nat)
    requires t.Valid()
    modifies t`scopes, t`log, t`cancelled, t`framesLeft, t`requests
    ensures Kept(t, old(t.log), old(t.scopes), old(t.cancelled), o)
    ensures o.Done? || o.Aborted? || o.Cancelled? || o.Suspended?
    ensures t.requests == old(t.requests) + made
    ensures made <= [NavPathfindAndMoveTo(dest, false), NavStop]
    ensures t.env.holds(old(t.log), PlayerInRange(dest, tolerance)) ==> o == Done && made == []
    ensures o.Aborted? ==>
      |t.log| > 0 &&
      ((o.message == ErrorMessage(t.kind, old(t.scopes) + ["MoveTo"], NAVMESH_NOT_READY) &&
        made == [] && t.log[|t.log| - 1] == Probe(NavIsReady, false)) ||
       (o.message == ErrorMessage(t.kind, old(t.scopes) + ["MoveTo"], PATHFIND_FAILED) &&
        made == [NavPathfindAndMoveTo(dest, false)] &&
        t.log[|t.log| - 1] == Call(NavPathfindAndMoveTo(dest, false), false)))
    ensures made != [] && (o.Done? || o.Cancelled?) ==> made == [NavPathfindAndMoveTo(dest, false), NavStop]
    ensures !t.env.holds(old(t.log), PlayerInRange(dest, tolerance)) && o.Done? ==>
      made == [NavPathfindAndMoveTo(dest, false), NavStop]
    ensures o.Done? ==>
      |old(t.log)| <= at < |t.log| && |t.log| - 2 <= at && t.log[at] == Probe(PlayerInRange(dest, tolerance), true)
    ensures Shows(t.log, |old(t.log)|, Probe(NavIsReady, false)) ==>
      o == Aborted(ErrorMessage(t.kind, old(t.scopes) + ["MoveTo"], NAVMESH_NOT_READY))
    ensures Shows(t.log, |old(t.log)|, Call(NavPathfindAndMoveTo(dest, false), false)) ==>
      o == Aborted(ErrorMessage(t.kind, old(t.scopes) + ["MoveTo"], PATHFIND_FAILED))
  {
    var sc := t.BeginScope("MoveTo");
    ShowsSnoc(t.log, |t.log|, Probe(NavIsReady, false), Probe(PlayerInRange(dest, tolerance), t.env.holds(t.log, PlayerInRange(dest, tolerance))));
    ShowsSnoc(t.log, |t.log|, Call(NavPathfindAndMoveTo(dest, false), false), Probe(PlayerInRange(dest, tolerance), t.env.holds(t.log, PlayerInRange(dest, tolerance))));
    var near := t.Ask(PlayerInRange(dest, tolerance));
    ghost var mid := t.log;
    if near {
      at := |t.log| - 1;
      t.EndScope(sc);
      return Done, [], at;
    }
    o, made, at := Walk(t, dest, tolerance);
    ShowsSplit(mid, t.log, |old(t.log)|, Probe(NavIsReady, false));
    ShowsSplit(mid, t.log, |old(t.log)|, Call(NavPathfindAndMoveTo(dest, false), false));
    if !o.Suspended? {
      t.EndScope(sc);
    }
  }

  /**
   * The teleport proper: request it, wait for it to start and to finish,
   * and check the zone it arrived in.
   */
  method Jump(t: AutoTask, territoryId: UInt32, target: TeleportTarget) returns (o: Outcome)
    requires t.Valid()
    modifies t`scopes, t`log, t`cancelled, t`framesLeft, t`requests
    ensures Kept(t, old(t.log), old(t.scopes), old(t.cancelled), o)
    ensures o.Done? || o.Aborted? || o.Cancelled? || o.Suspended?
    ensures t.requests == old(t.requests) + [ExecuteTeleport(target)]
    ensures o.Aborted? ==>
      |t.log| > 0 &&
      ((o.message == ErrorMessage(t.kind, old(t.scopes), TELEPORT_FAILED) &&
        t.log[|t.log| - 1] == Call(ExecuteTeleport(target), false)) ||
       (o.message == ErrorMessage(t.kind, old(t.scopes), WRONG_ZONE) &&
        t.log[|t.log| - 1].Measure? && t.log[|t.log| - 1].quantity == CurrentTerritory &&
        t.log[|t.log| - 1].amount != territoryId))
    ensures o.Done? ==> |t.log| > |old(t.log)| && t.log[|t.log| - 1] == Measure(CurrentTerritory, territoryId)
    ensures Shows(t.log, |old(t.log)|, Call(ExecuteTeleport(target), false)) ==>
      o == Aborted(ErrorMessage(t.kind, old(t.scopes), TELEPORT_FAILED))
    ensures forall n :: Shows(t.log, |old(t.log)|, Measure(CurrentTerritory, n)) ==>
      o == if n == territoryId then Done else Aborted(ErrorMessage(t.kind, old(t.scopes), WRONG_ZONE))
  {
    var ok := t.Invoke(ExecuteTeleport(target));
    ghost var lost := Call(ExecuteTeleport(target), false);
    ShowsSnoc(old(t.log), |old(t.log)|, lost, Call(ExecuteTeleport(target), ok));
    forall n ensures !Shows(t.log, |old(t.log)|, Measure(CurrentTerritory, n)) {
      ShowsSnoc(old(t.log), |old(t.log)|, Measure(CurrentTerritory, n), Call(ExecuteTeleport(target), ok));
    }
    o := t.ErrorIf(!ok, TELEPORT_FAILED);
    if o.Aborted? {
      return;
    }
    ghost var mid := t.log;
    o := Await(t, IsNot(PlayerIsBusy), "TeleportStart");
    TravelShowsNoMeasure(mid, t.log, |old(t.log)|, lost);
    if !o.Done? {
      return;
    }
    ghost var mid2 := t.log;
    o := Await(t, Is(PlayerIsBusy), "TeleportFinish");
    TravelShowsNoMeasure(mid2, t.log, |old(t.log)|, lost);
    if !o.Done? {
      return;
    }
    mid := t.log;
    var here := t.Read(CurrentTerritory);
    ShowsSnoc(mid, |old(t.log)|, lost, Measure(CurrentTerritory, here));
    forall n ensures Shows(t.log, |old(t.log)|, Measure(CurrentTerritory, n)) <==> n == here {
      ShowsSnoc(mid, |old(t.log)|, Measure(CurrentTerritory, n), Measure(CurrentTerritory, here));
    }
    o := t.ErrorIf(here != territoryId, WRONG_ZONE);
  }

  /**
   * A wait on whether the player is busy, after a stretch that shows no
   * zone reading, leaves the log showing no zone reading and what it showed
   * of the request `lost`.
   */
  lemma TravelShowsNoMeasure(mid: seq<Event>, log: seq<Event>, from: nat, lost: Event)
    requires from <= |mid| && mid <= log && OnlyChecks(log, |mid|, PlayerIsBusy) && lost.Call?
    requires forall n :: !Shows(mid, from, Measure(CurrentTerritory, n))
    ensures forall n :: !Shows(log, from, Measure(CurrentTerritory, n))
    ensures Shows(log, from, lost) <==> Shows(mid, from, lost)
  {
    forall n ensures !Shows(log, from, Measure(CurrentTerritory, n)) {
      OnlyChecksShowNothingElse(log, |mid|, PlayerIsBusy, Measure(CurrentTerritory, n));
      ShowsSplit(mid, log, from, Measure(CurrentTerritory, n));
    }
    OnlyChecksShowNothingElse(log, |mid|, PlayerIsBusy, lost);
    ShowsSplit(mid, log, from, lost);
  }

  /**
   * Teleport to `target` unless already in `territoryId`, wait for the
   * teleport to start and to finish, and check that it arrived there.
   */
  method TeleportTo(t: AutoTask, territoryId: UInt32, target: TeleportTarget) returns (o: Outcome, ghost made: seq<Action>)
    requires t.Valid()
    modifies t`scopes, t`log, t`cancelled, t`framesLeft, t`requests
    ensures Kept(t, old(t.log), old(t.scopes), old(t.cancelled), o)
    ensures o.Done? || o.Aborted? || o.Cancelled? || o.Suspended?
    ensures t.requests == old(t.requests) + made
    ensures MeasureOf(t.env, old(t.log), CurrentTerritory) == territoryId ==> o == Done && made == []
    ensures MeasureOf(t.env, old(t.log), CurrentTerritory) != territoryId ==> made == [ExecuteTeleport(target)]
    ensures o.Aborted? ==>
      |t.log| > 0 &&
      ((o.message == ErrorMessage(t.kind, old(t.scopes) + ["Teleport"], TELEPORT_FAILED) &&
        t.log[|t.log| - 1] == Call(ExecuteTeleport(target), false)) ||
       (o.message == ErrorMessage(t.kind, old(t.scopes) + ["Teleport"], WRONG_ZONE) &&
        t.log[|t.log| - 1].Measure? && t.log[|t.log| - 1].quantity == CurrentTerritory &&
        t.log[|t.log| - 1].amount != territoryId))
    ensures o.Done? ==> |t.log| > |old(t.log)| && t.log[|t.log| - 1] == Measure(CurrentTerritory, territoryId)
    ensures Shows(t.log, |old(t.log)|, Call(ExecuteTeleport(target), false)) ==>
      o == Aborted(ErrorMessage(t.kind, old(t.scopes) + ["Teleport"], TELEPORT_FAILED))
    ensures forall n :: Shows(t.log, |old(t.log)| + 1, Measure(CurrentTerritory, n)) ==>
      o == if n == territoryId then Done else Aborted(ErrorMessage(t.kind, old(t.scopes) + ["Teleport"], WRONG_ZONE))
  {
    made := [];
    var sc := t.BeginScope("Teleport");
    ShowsSnoc(t.log, |t.log|, Call(ExecuteTeleport(target), false), Measure(CurrentTerritory, MeasureOf(t.env, t.log, CurrentTerritory)));
    var here := t.Read(CurrentTerritory);
    if here == territoryId {
      t.EndScope(sc);
      return Done, made;
    }
    ghost var mid := t.log;
    o := Jump(t, territoryId, target);
    made := [ExecuteTeleport(target)];
    ShowsSplit(mid, t.log, |old(t.log)|, Call(ExecuteTeleport(target), false));
    if !o.Suspended? {
      t.EndScope(sc);
    }
  }

  /**
   * In the log after position `from`, a talk dialog is advanced exactly when
   * it was seen open right after the waited-for test failed: every request
   * is such an advance, and every such sighting is followed by one.
   */
  ghost predicate SkipsTalks(log: seq<Event>, from: nat, test: Test)
  {
    from <= |log| &&
    (forall i :: from <= i < |log| && log[i].Call? ==>
       log[i].action == ProgressTalk && from + 2 <= i &&
       log[i - 1] == Probe(TalkInProgress, true) && log[i - 2] == Probe(test.cond, !test.holdsWhen)) &&
    (forall i :: from < i < |log| && log[i - 1] == Probe(test.cond, !test.holdsWhen) && log[i] == Probe(TalkInProgress, true) ==>
       i + 1 < |log| && log[i + 1].Call? && log[i + 1].action == ProgressTalk)
  }

  /** Appending an event other than a request keeps `SkipsTalks`, unless it is an open talk seen right after a failed test. */
  lemma TalksSnoc(log: seq<Event>, from: nat, test: Test, e: Event)
    requires SkipsTalks(log, from, test) && !e.Call?
    requires e == Probe(TalkInProgress, true) ==> |log| == from || log[|log| - 1] != Probe(test.cond, !test.holdsWhen)
    ensures SkipsTalks(log + [e], from, test)
  {
    var l := log + [e];
    forall i | from <= i < |l| && l[i].Call?
      ensures l[i].action == ProgressTalk && from + 2 <= i
      ensures l[i - 1] == Probe(TalkInProgress, true) && l[i - 2] == Probe(test.cond, !test.holdsWhen)
    {
      assert i < |log| && l[i] == log[i];
    }
    forall i | from < i < |l| && l[i - 1] == Probe(test.cond, !test.holdsWhen) && l[i] == Probe(TalkInProgress, true)
      ensures i + 1 < |l| && l[i + 1].Call? && l[i + 1].action == ProgressTalk
    {
      assert i < |log| && l[i] == log[i] && l[i - 1] == log[i - 1];
    }
  }

  /** Seeing an open talk right after a failed test and advancing it keeps `SkipsTalks`. */
  lemma TalksAdvance(log: seq<Event>, from: nat, test: Test, ok: bool)
    requires SkipsTalks(log, from, test)
    requires from < |log| && log[|log| - 1] == Probe(test.cond, !test.holdsWhen)
    ensures SkipsTalks(log + [Probe(TalkInProgress, true)] + [Call(ProgressTalk, ok)], from, test)
  {
    var l := log + [Probe(TalkInProgress, true)] + [Call(ProgressTalk, ok)];
    forall i | from <= i < |l| && l[i].Call?
      ensures l[i].action == ProgressTalk && from + 2 <= i
      ensures l[i - 1] == Probe(TalkInProgress, true) && l[i - 2] == Probe(test.cond, !test.holdsWhen)
    {
      if i < |log| {
        assert l[i] == log[i];
      }
    }
    forall i | from < i < |l| && l[i - 1] == Probe(test.cond, !test.holdsWhen) && l[i] == Probe(TalkInProgress, true)
      ensures i + 1 < |l| && l[i + 1].Call? && l[i + 1].action == ProgressTalk
    {
      if i < |log| {
        assert l[i] == log[i] && l[i - 1] == log[i - 1];
      }
    }
  }

  /** A wait that skips talk sends no request but advancing the talk. */
  lemma SkipsTalksShowNoOtherCall(log: seq<Event>, from: nat, test: Test, e: Event)
    requires SkipsTalks(log, from, test) && e.Call? && e.action != ProgressTalk
    ensures !Shows(log, from, e)
  {
    ShowsOccurs(log, from, e);
  }

  /** Right after the test failed: advance the talk dialog if one is open. */
  method CheckTalk(t: AutoTask, test: Test, ghost from: nat) returns (ghost talked: nat)
    requires t.Valid() && SkipsTalks(t.log, from, test)
    requires from < |t.log| && t.log[|t.log| - 1] == Probe(test.cond, !test.holdsWhen)
    modifies t`log, t`talksAdvanced
    ensures t.Valid() && SkipsTalks(t.log, from, test)
    ensures t.talksAdvanced == old(t.talksAdvanced) + talked
    ensures |t.log| > |old(t.log)| && old(t.log) <= t.log
  {
    talked := 0;
    ghost var before := t.log;
    var talking := t.Ask(TalkInProgress);
    if talking {
      TalksAdvance(before, from, test, t.env.succeeds(t.log, ProgressTalk));
      t.AdvanceTalk();
      talked := 1;
    } else {
      TalksSnoc(before, from, test, Probe(TalkInProgress, false));
    }
  }

  /**
   * One round of a wait that skips talk: check the test; if it does not pass
   * yet, advance the talk dialog when one is open and wait a frame.
   */
  method SkipTalkRound(t: AutoTask, test: Test, ghost from: nat) returns (passed: bool, o: Outcome, ghost talked: nat)
    requires t.Valid() && SkipsTalks(t.log, from, test)
    requires |t.log| == from || t.log[|t.log| - 1] == Tick
    modifies t`log, t`cancelled, t`framesLeft, t`talksAdvanced
    ensures t.Valid() && SkipsTalks(t.log, from, test)
    ensures t.talksAdvanced == old(t.talksAdvanced) + talked
    ensures |t.log| > |old(t.log)| && old(t.log) <= t.log
    ensures old(t.cancelled) ==> t.cancelled
    ensures passed ==>
      o == Done && t.cancelled == old(t.cancelled) &&
      |t.log| > 0 && t.log[|t.log| - 1] == Probe(test.cond, test.holdsWhen)
    ensures !passed ==> o.Done? || o.Cancelled? || o.Suspended?
    ensures !passed && o.Done? ==>
      t.cancelled == old(t.cancelled) && t.framesLeft < old(t.framesLeft) && t.log[|t.log| - 1] == Tick
    ensures o.Cancelled? ==> t.cancelled
  {
    talked := 0;
    TalksSnoc(t.log, from, test, Probe(test.cond, t.env.holds(t.log, test.cond)));
    var v := t.Ask(test.cond);
    if v == test.holdsWhen {
      return true, Done, talked;
    }
    passed := false;
    talked := CheckTalk(t, test, from);
    TalksSnoc(t.log, from, test, Tick);
    o := t.NextFrame();
  }

  /**
   * Wait until the test passes, checking once per frame, and advance any
   * talk dialog that is open meanwhile. It returns normally only once the
   * test has passed.
   */
  method WaitUntilSkipTalk(t: AutoTask, test: Test, name: string) returns (o: Outcome, ghost talks: nat)
    requires t.Valid()
    modifies t`scopes, t`log, t`cancelled, t`framesLeft, t`talksAdvanced
    ensures Kept(t, old(t.log), old(t.scopes), old(t.cancelled), o)
    ensures o.Done? || o.Cancelled? || o.Suspended?
    ensures t.talksAdvanced == old(t.talksAdvanced) + talks
    ensures SkipsTalks(t.log, |old(t.log)|, test)
    ensures o.Done? ==> |t.log| > |old(t.log)| && t.log[|t.log| - 1] == Probe(test.cond, test.holdsWhen)
  {
    var sc := t.BeginScope(name);
    talks := 0;
    while true
      invariant t.Valid() && old(t.log) <= t.log
      invariant t.scopes == old(t.scopes) + [name]
      invariant t.cancelled == old(t.cancelled)
      invariant t.talksAdvanced == old(t.talksAdvanced) + talks
      invariant SkipsTalks(t.log, |old(t.log)|, test)
      invariant |t.log| == |old(t.log)| || t.log[|t.log| - 1] == Tick
      decreases t.framesLeft
    {
      var passed;
      ghost var talked;
      passed, o, talked := SkipTalkRound(t, test, |old(t.log)|);
      talks := talks + talked;
      if passed {
        t.EndScope(sc);
        return Done, talks;
      }
      if !o.Done? {
        if o.Cancelled? {
          t.EndScope(sc);
        }
        return o, talks;
      }
    }
  }

  /** The id the supply dialog of the NPC with this index carries: `(uint)npcIndex + 1`. */
  function NpcId(npcIndex: Int32): (r: UInt32)
    ensures 0 <= npcIndex < MAX_INT32 ==> r == npcIndex + 1
  {
    WrapUInt32(WrapUInt32(npcIndex) + 1)
  }

  /** The requests that open the turn-in dialog, sent only when it was not open yet. */
  function Opening(interacted: bool, npcInstanceId: bv64): seq<Action>
  {
    if interacted then [InteractWith(npcInstanceId), SelectTurnIn] else []
  }

  /** The requests of one hand-in: offer the item in the slot, then commit. */
  function HandIn(slot: int): seq<Action>
  {
    [TurnInSupply(slot), TurnInRequestCommit]
  }

  /** `block` sent `n` times over. */
  function Repeat(block: seq<Action>, n: nat): seq<Action>
  {
    if n == 0 then [] else Repeat(block, n - 1) + block
  }

  /** How often `for (int i = 0; i < count; ++i)` runs. */
  function Iterations(count: Int32): (r: nat)
    ensures count > 0 ==> r == count
    ensures count <= 0 ==> r == 0
  {
    if count > 0 then count else 0
  }

  /** A run stopped part-way into round `i` of `n` has sent a prefix of all `n` rounds. */
  lemma {:induction false} PartialRun(block: seq<Action>, i: nat, n: nat, part: seq<Action>)
    requires i < n && part <= block
    ensures Repeat(block, i) + part <= Repeat(block, n)
    decreases n
  {
    if i == n - 1 {
      assert Repeat(block, n)[..|Repeat(block, i) + part|] == Repeat(block, i) + part;
    } else {
      PartialRun(block, i, n - 1, part);
      PrefixExtend(Repeat(block, i) + part, Repeat(block, n - 1), block);
    }
  }

  /** A prefix of `a` is a prefix of `a` followed by anything. */
  lemma PrefixExtend<T>(p: seq<T>, a: seq<T>, b: seq<T>)
    requires p <= a
    ensures p <= a + b
  {
    assert (a + b)[..|p|] == a[..|p|];
  }

  /** After position `from`, the log holds no offer of an item and no hand-in commit. */
  ghost predicate NoHandInCalls(log: seq<Event>, from: nat)
  {
    forall i :: from <= i < |log| && log[i].Call? ==> !log[i].action.TurnInSupply? && log[i].action != TurnInRequestCommit
  }

  /**
   * After position `from`, every offer of the item in `slot` comes right
   * after the supply dialog of `npcId` was seen open, and every commit right
   * after the hand-in window of `itemId` was.
   */
  ghost predicate HandInsGated(log: seq<Event>, from: nat, npcId: UInt32, itemId: UInt32, slot: int)
  {
    from <= |log| &&
    forall i {:trigger log[i]} :: from <= i < |log| && log[i].Call? ==>
      (log[i].action.TurnInSupply? ==>
         log[i].action == TurnInSupply(slot) && from < i && log[i - 1] == Probe(TurnInSupplyInProgress(npcId), true)) &&
      (log[i].action == TurnInRequestCommit ==>
         from < i && log[i - 1] == Probe(TurnInRequestInProgress(itemId), true))
  }

  /** The requests a hand-in round sends: an offer, a commit, or an advance of the talk dialog. */
  predicate HandInTraffic(a: Action)
  {
    a.TurnInSupply? || a == TurnInRequestCommit || a == ProgressTalk
  }

  /** After position `from`, the log holds no request other than hand-in traffic. */
  ghost predicate HandInTrafficOnly(log: seq<Event>, from: nat)
  {
    forall i :: from <= i < |log| && log[i].Call? ==> HandInTraffic(log[i].action)
  }

  /** Waits send no hand-in request, and nothing but talk advances. */
  lemma WaitsHandNothingIn(log: seq<Event>, from: nat, test: Test, c: Cond)
    ensures SkipsTalks(log, from, test) ==> NoHandInCalls(log, from) && HandInTrafficOnly(log, from)
    ensures OnlyChecks(log, from, c) ==> NoHandInCalls(log, from) && HandInTrafficOnly(log, from)
  {
  }

  /** Two stretches of hand-in traffic make one. */
  lemma TrafficJoin(l0: seq<Event>, l1: seq<Event>, from: nat)
    requires from <= |l0| && l0 <= l1
    requires HandInTrafficOnly(l0, from) && HandInTrafficOnly(l1, |l0|)
    ensures HandInTrafficOnly(l1, from)
  {
    forall i | from <= i < |l0|
      ensures l1[i] == l0[i]
    {
    }
  }

  /** A stretch of hand-in traffic shows no interaction with an NPC. */
  lemma TrafficShowsNoInteraction(log: seq<Event>, from: nat, id: bv64, ok: bool)
    requires HandInTrafficOnly(log, from)
    ensures !Shows(log, from, Call(InteractWith(id), ok))
  {
    ShowsOccurs(log, from, Call(InteractWith(id), ok));
  }

  /** A stretch without hand-in requests keeps the hand-ins gated. */
  lemma GatedJoin(l0: seq<Event>, l1: seq<Event>, from: nat, npcId: UInt32, itemId: UInt32, slot: int)
    requires HandInsGated(l0, from, npcId, itemId, slot) && l0 <= l1 && NoHandInCalls(l1, |l0|)
    ensures HandInsGated(l1, from, npcId, itemId, slot)
  {
    forall i | from <= i < |l1| && l1[i].Call?
      ensures l1[i].action.TurnInSupply? ==>
        l1[i].action == TurnInSupply(slot) && from < i && l1[i - 1] == Probe(TurnInSupplyInProgress(npcId), true)
      ensures l1[i].action == TurnInRequestCommit ==>
        from < i && l1[i - 1] == Probe(TurnInRequestInProgress(itemId), true)
    {
      if i < |l0| {
        assert l1[i] == l0[i];
        if 0 < i {
          assert l1[i - 1] == l0[i - 1];
        }
      }
    }
  }

  /** Gated hand-ins after a stretch without hand-in requests are gated from its start. */
  lemma GatedAfter(l0: seq<Event>, l1: seq<Event>, from: nat, npcId: UInt32, itemId: UInt32, slot: int)
    requires NoHandInCalls(l0, from) && from <= |l0| && l0 <= l1 && HandInsGated(l1, |l0|, npcId, itemId, slot)
    ensures HandInsGated(l1, from, npcId, itemId, slot)
  {
    forall i | from <= i < |l1| && l1[i].Call?
      ensures l1[i].action.TurnInSupply? ==>
        l1[i].action == TurnInSupply(slot) && from < i && l1[i - 1] == Probe(TurnInSupplyInProgress(npcId), true)
      ensures l1[i].action == TurnInRequestCommit ==>
        from < i && l1[i - 1] == Probe(TurnInRequestInProgress(itemId), true)
    {
      if i < |l0| {
        assert l1[i] == l0[i];
      }
    }
  }

  /** A hand-in request sent right after its dialog was seen open keeps the hand-ins gated. */
  lemma GatedCall(log: seq<Event>, from: nat, npcId: UInt32, itemId: UInt32, slot: int, a: Action, ok: bool)
    requires HandInsGated(log, from, npcId, itemId, slot) && from < |log|
    requires a.TurnInSupply? ==> a == TurnInSupply(slot) && log[|log| - 1] == Probe(TurnInSupplyInProgress(npcId), true)
    requires a == TurnInRequestCommit ==> log[|log| - 1] == Probe(TurnInRequestInProgress(itemId), true)
    ensures HandInsGated(log + [Call(a, ok)], from, npcId, itemId, slot)
  {
    var l := log + [Call(a, ok)];
    forall i | from <= i < |l| && l[i].Call?
      ensures l[i].action.TurnInSupply? ==>
        l[i].action == TurnInSupply(slot) && from < i && l[i - 1] == Probe(TurnInSupplyInProgress(npcId), true)
      ensures l[i].action == TurnInRequestCommit ==>
        from < i && l[i - 1] == Probe(TurnInRequestInProgress(itemId), true)
    {
      if i < |log| {
        assert l[i] == log[i];
        if 0 < i {
          assert l[i - 1] == log[i - 1];
        }
      }
    }
  }

  /**
   * Open the turn-in dialog of a supply NPC: interact with it, wait (skipping
   * talk) for the selection dialog, then choose to turn in.
   */
  method OpenTurnIn(t: AutoTask, npcInstanceId: bv64) returns (o: Outcome, ghost made: seq<Action>)
    requires t.Valid()
    modifies t`scopes, t`log, t`cancelled, t`framesLeft, t`requests, t`talksAdvanced
    ensures Kept(t, old(t.log), old(t.scopes), old(t.cancelled), o)
    ensures o.Done? || o.Aborted? || o.Cancelled? || o.Suspended?
    ensures t.requests == old(t.requests) + made
    ensures made <= Opening(true, npcInstanceId)
    ensures o.Done? ==> made == Opening(true, npcInstanceId)
    ensures o.Aborted? ==>
      made == [InteractWith(npcInstanceId)] && o.message == ErrorMessage(t.kind, old(t.scopes), INTERACT_FAILED)
    ensures Shows(t.log, |old(t.log)|, Call(InteractWith(npcInstanceId), false)) ==>
      o == Aborted(ErrorMessage(t.kind, old(t.scopes), INTERACT_FAILED))
    ensures NoHandInCalls(t.log, |old(t.log)|)
  {
    var ok := t.Invoke(InteractWith(npcInstanceId));
    ShowsSnoc(old(t.log), |old(t.log)|, Call(InteractWith(npcInstanceId), false), Call(InteractWith(npcInstanceId), ok));
    made := [InteractWith(npcInstanceId)];
    o := t.ErrorIf(!ok, INTERACT_FAILED);
    if o.Aborted? {
      return;
    }
    ghost var mid := t.log;
    ghost var talks;
    o, talks := WaitUntilSkipTalk(t, Is(TurnInSelectInProgress), "WaitSelect");
    SkipsTalksShowNoOtherCall(t.log, |mid|, Is(TurnInSelectInProgress), Call(InteractWith(npcInstanceId), false));
    ShowsSplit(mid, t.log, |old(t.log)|, Call(InteractWith(npcInstanceId), false));
    WaitsHandNothingIn(t.log, |mid|, Is(TurnInSelectInProgress), TalkInProgress);
    if !o.Done? {
      return;
    }
    ShowsSnoc(t.log, |old(t.log)|, Call(InteractWith(npcInstanceId), false), Call(SelectTurnIn, t.env.succeeds(t.log, SelectTurnIn)));
    var selected := t.Invoke(SelectTurnIn);
    ConcatAssoc(old(t.requests), made, [SelectTurnIn]);
    made := made + [SelectTurnIn];
  }

  /** Wait (skipping talk) for the supply dialog, then offer the item in `slot`. */
  method OfferItem(t: AutoTask, npcId: UInt32, itemId: UInt32, slot: int, ghost from: nat)
    returns (o: Outcome, ghost made: seq<Action>)
    requires t.Valid() && HandInsGated(t.log, from, npcId, itemId, slot)
    modifies t`scopes, t`log, t`cancelled, t`framesLeft, t`requests, t`talksAdvanced
    ensures Kept(t, old(t.log), old(t.scopes), old(t.cancelled), o)
    ensures o.Done? || o.Cancelled? || o.Suspended?
    ensures t.requests == old(t.requests) + made
    ensures made == (if o.Done? then [TurnInSupply(slot)] else [])
    ensures HandInsGated(t.log, from, npcId, itemId, slot)
    ensures HandInTrafficOnly(t.log, |old(t.log)|)
  {
    made := [];
    ghost var talks;
    o, talks := WaitUntilSkipTalk(t, Is(TurnInSupplyInProgress(npcId)), "WaitDialog");
    WaitsHandNothingIn(t.log, |old(t.log)|, Is(TurnInSupplyInProgress(npcId)), TalkInProgress);
    GatedJoin(old(t.log), t.log, from, npcId, itemId, slot);
    if !o.Done? {
      return;
    }
    GatedCall(t.log, from, npcId, itemId, slot, TurnInSupply(slot), t.env.succeeds(t.log, TurnInSupply(slot)));
    ghost var mid := t.log;
    var offered := t.Invoke(TurnInSupply(slot));
    TrafficJoin(mid, t.log, |old(t.log)|);
    made := [TurnInSupply(slot)];
  }

  /** Wait for the hand-in window of `itemId`, then commit the hand-in. */
  method CommitHandIn(t: AutoTask, npcId: UInt32, itemId: UInt32, slot: int, ghost from: nat)
    returns (o: Outcome, ghost made: seq<Action>)
    requires t.Valid() && HandInsGated(t.log, from, npcId, itemId, slot)
    modifies t`scopes, t`log, t`cancelled, t`framesLeft, t`requests
    ensures Kept(t, old(t.log), old(t.scopes), old(t.cancelled), o)
    ensures o.Done? || o.Cancelled? || o.Suspended?
    ensures t.requests == old(t.requests) + made
    ensures made == (if o.Done? then [TurnInRequestCommit] else [])
    ensures HandInsGated(t.log, from, npcId, itemId, slot)
    ensures HandInTrafficOnly(t.log, |old(t.log)|)
  {
    made := [];
    o := Await(t, IsNot(TurnInRequestInProgress(itemId)), "WaitHandIn");
    WaitsHandNothingIn(t.log, |old(t.log)|, Is(TalkInProgress), TurnInRequestInProgress(itemId));
    GatedJoin(old(t.log), t.log, from, npcId, itemId, slot);
    if !o.Done? {
      return;
    }
    GatedCall(t.log, from, npcId, itemId, slot, TurnInRequestCommit, t.env.succeeds(t.log, TurnInRequestCommit));
    ghost var mid := t.log;
    var committed := t.Invoke(TurnInRequestCommit);
    TrafficJoin(mid, t.log, |old(t.log)|);
    made := [TurnInRequestCommit];
  }

  /** One hand-in: offer the item, then commit it. */
  method HandInOne(t: AutoTask, npcId: UInt32, itemId: UInt32, slot: int, ghost from: nat)
    returns (o: Outcome, ghost made: seq<Action>)
    requires t.Valid() && HandInsGated(t.log, from, npcId, itemId, slot)
    modifies t`scopes, t`log, t`cancelled, t`framesLeft, t`requests, t`talksAdvanced
    ensures Kept(t, old(t.log), old(t.scopes), old(t.cancelled), o)
    ensures o.Done? || o.Cancelled? || o.Suspended?
    ensures t.requests == old(t.requests) + made
    ensures made <= HandIn(slot)
    ensures o.Done? ==> made == HandIn(slot)
    ensures HandInsGated(t.log, from, npcId, itemId, slot)
    ensures HandInTrafficOnly(t.log, |old(t.log)|)
  {
    o, made := OfferItem(t, npcId, itemId, slot, from);
    if !o.Done? {
      return;
    }
    ghost var mid := t.log;
    ghost var committed;
    o, committed := CommitHandIn(t, npcId, itemId, slot, from);
    TrafficJoin(mid, t.log, |old(t.log)|);
    ConcatAssoc(old(t.requests), made, committed);
    made := made + committed;
  }

  /**
   * Hand in `count` items one by one: wait (skipping talk) for the supply
   * dialog, offer the item in `slot`, wait for the hand-in window, commit.
   * Each offer and each commit follows a check that found its dialog open.
   */
  method HandInAll(t: AutoTask, npcId: UInt32, itemId: UInt32, slot: int, count: Int32)
    returns (o: Outcome, ghost made: seq<Action>)
    requires t.Valid()
    modifies t`scopes, t`log, t`cancelled, t`framesLeft, t`requests, t`talksAdvanced
    ensures Kept(t, old(t.log), old(t.scopes), old(t.cancelled), o)
    ensures o.Done? || o.Cancelled? || o.Suspended?
    ensures t.requests == old(t.requests) + made
    ensures made <= Repeat(HandIn(slot), Iterations(count))
    ensures o.Done? ==> made == Repeat(HandIn(slot), Iterations(count))
    ensures HandInsGated(t.log, |old(t.log)|, npcId, itemId, slot)
    ensures HandInTrafficOnly(t.log, |old(t.log)|)
  {
    ghost var n := Iterations(count);
    made := [];
    o := Done;
    var i := 0;
    while i < count
      invariant 0 <= i <= n
      invariant t.Valid() && old(t.log) <= t.log
      invariant t.scopes == old(t.scopes)
      invariant old(t.cancelled) ==> t.cancelled
      invariant made == Repeat(HandIn(slot), i)
      invariant t.requests == old(t.requests) + made
      invariant HandInsGated(t.log, |old(t.log)|, npcId, itemId, slot)
      invariant HandInTrafficOnly(t.log, |old(t.log)|)
      decreases count - i
    {
      ghost var mid := t.log;
      ghost var one;
      o, one := HandInOne(t, npcId, itemId, slot, |old(t.log)|);
      TrafficJoin(mid, t.log, |old(t.log)|);
      ConcatAssoc(old(t.requests), made, one);
      if !o.Done? {
        PartialRun(HandIn(slot), i, n, one);
        made := made + one;
        return;
      }
      made := made + one;
      i := i + 1;
    }
    o := Done;
  }

  /** A prefix of the hand-ins, after a prefix of a completed opening, is a prefix of the whole. */
  lemma PrefixAfterOpening<T>(base: seq<T>, rest: seq<T>, part: seq<T>)
    requires part <= rest
    ensures base + part <= base + rest
  {
    assert (base + rest)[..|base + part|] == base + part;
  }

  /**
   * Open the turn-in dialog of NPC `npcId` unless it is already open. It
   * reports whether it had to interact with the NPC.
   */
  method Approach(t: AutoTask, npcId: UInt32, npcInstanceId: bv64) returns (o: Outcome, ghost made: seq<Action>, ghost interacted: bool)
    requires t.Valid()
    modifies t`scopes, t`log, t`cancelled, t`framesLeft, t`requests, t`talksAdvanced
    ensures Kept(t, old(t.log), old(t.scopes), old(t.cancelled), o)
    ensures o.Done? || o.Aborted? || o.Cancelled? || o.Suspended?
    ensures t.requests == old(t.requests) + made
    ensures interacted == !t.env.holds(old(t.log), TurnInSupplyInProgress(npcId))
    ensures made <= Opening(interacted, npcInstanceId)
    ensures o.Done? ==> made == Opening(interacted, npcInstanceId)
    ensures o.Aborted? ==>
      interacted && made == [InteractWith(npcInstanceId)] && o.message == ErrorMessage(t.kind, old(t.scopes), INTERACT_FAILED)
    ensures Shows(t.log, |old(t.log)|, Call(InteractWith(npcInstanceId), false)) ==>
      o == Aborted(ErrorMessage(t.kind, old(t.scopes), INTERACT_FAILED))
    ensures NoHandInCalls(t.log, |old(t.log)|)
  {
    ShowsSnoc(t.log, |t.log|, Call(InteractWith(npcInstanceId), false), Probe(TurnInSupplyInProgress(npcId), t.env.holds(t.log, TurnInSupplyInProgress(npcId))));
    var open := t.Ask(TurnInSupplyInProgress(npcId));
    interacted := !open;
    made := [];
    o := Done;
    if !open {
      ghost var mid := t.log;
      o, made := OpenTurnIn(t, npcInstanceId);
      ShowsSplit(mid, t.log, |old(t.log)|, Call(InteractWith(npcInstanceId), false));
    }
  }

  /**
   * The closing waits of a turn-in, both skipping talk: first until the
   * player is not in a cutscene event, then until the player is in one.
   */
  method WaitCutscene(t: AutoTask) returns (o: Outcome)
    requires t.Valid()
    modifies t`scopes, t`log, t`cancelled, t`framesLeft, t`talksAdvanced
    ensures Kept(t, old(t.log), old(t.scopes), old(t.cancelled), o)
    ensures o.Done? || o.Cancelled? || o.Suspended?
    ensures o.Done? ==> |t.log| > 0 && t.log[|t.log| - 1] == Probe(OccupiedInCutSceneEvent, true)
    ensures NoHandInCalls(t.log, |old(t.log)|) && HandInTrafficOnly(t.log, |old(t.log)|)
  {
    ghost var talks;
    o, talks := WaitUntilSkipTalk(t, IsNot(OccupiedInCutSceneEvent), "WaitCutsceneStart");
    WaitsHandNothingIn(t.log, |old(t.log)|, IsNot(OccupiedInCutSceneEvent), TalkInProgress);
    if !o.Done? {
      return;
    }
    ghost var mid := t.log;
    o, talks := WaitUntilSkipTalk(t, Is(OccupiedInCutSceneEvent), "WaitCutsceneEnd");
    WaitsHandNothingIn(t.log, |mid|, Is(OccupiedInCutSceneEvent), TalkInProgress);
    TrafficJoin(mid, t.log, |old(t.log)|);
  }

  /** The hand-ins of a turn-in followed by its closing cutscene waits. */
  method HandInAndWait(t: AutoTask, npcId: UInt32, itemId: UInt32, slot: int, count: Int32)
    returns (o: Outcome, ghost made: seq<Action>)
    requires t.Valid()
    modifies t`scopes, t`log, t`cancelled, t`framesLeft, t`requests, t`talksAdvanced
    ensures Kept(t, old(t.log), old(t.scopes), old(t.cancelled), o)
    ensures o.Done? || o.Cancelled? || o.Suspended?
    ensures t.requests == old(t.requests) + made
    ensures made <= Repeat(HandIn(slot), Iterations(count))
    ensures o.Done? ==> made == Repeat(HandIn(slot), Iterations(count))
    ensures o.Done? ==> |t.log| > 0 && t.log[|t.log| - 1] == Probe(OccupiedInCutSceneEvent, true)
    ensures HandInsGated(t.log, |old(t.log)|, npcId, itemId, slot)
    ensures HandInTrafficOnly(t.log, |old(t.log)|)
  {
    o, made := HandInAll(t, npcId, itemId, slot, count);
    if o.Done? {
      ghost var mid := t.log;
      o := WaitCutscene(t);
      GatedJoin(mid, t.log, |old(t.log)|, npcId, itemId, slot);
      TrafficJoin(mid, t.log, |old(t.log)|);
    }
  }

  /**
   * Hand `count` items in at the supply NPC `npcIndex`: open its dialog if
   * it is not open, then for each item wait for the dialog, offer the item
   * in `slot`, wait for the hand-in window and commit; finally wait out the
   * cutscene event. The two last waits are modelled as written: first until
   * the player is not in a cutscene event, then until the player is in one.
   */
  method TurnIn(t: AutoTask, npcIndex: Int32, npcInstanceId: bv64, itemId: UInt32, slot: int, count: Int32)
    returns (o: Outcome, ghost made: seq<Action>, ghost interacted: bool)
    requires t.Valid()
    modifies t`scopes, t`log, t`cancelled, t`framesLeft, t`requests, t`talksAdvanced
    ensures Kept(t, old(t.log), old(t.scopes), old(t.cancelled), o)
    ensures o.Done? || o.Aborted? || o.Cancelled? || o.Suspended?
    ensures t.requests == old(t.requests) + made
    ensures interacted == !t.env.holds(old(t.log), TurnInSupplyInProgress(NpcId(npcIndex)))
    ensures made <= Opening(interacted, npcInstanceId) + Repeat(HandIn(slot), Iterations(count))
    ensures o.Done? ==> made == Opening(interacted, npcInstanceId) + Repeat(HandIn(slot), Iterations(count))
    ensures o.Aborted? ==>
      interacted && made == [InteractWith(npcInstanceId)] &&
      o.message == ErrorMessage(t.kind, old(t.scopes) + ["TurnIn"], INTERACT_FAILED)
    ensures Shows(t.log, |old(t.log)|, Call(InteractWith(npcInstanceId), false)) ==>
      o == Aborted(ErrorMessage(t.kind, old(t.scopes) + ["TurnIn"], INTERACT_FAILED))
    ensures o.Done? ==> |t.log| > 0 && t.log[|t.log| - 1] == Probe(OccupiedInCutSceneEvent, true)
    ensures HandInsGated(t.log, |old(t.log)|, NpcId(npcIndex), itemId, slot)
  {
    var sc := t.BeginScope("TurnIn");
    var npcId := NpcId(npcIndex);
    o, made, interacted := Approach(t, npcId, npcInstanceId);
    ghost var mid := t.log;
    ghost var base := Opening(interacted, npcInstanceId);
    ghost var all := Repeat(HandIn(slot), Iterations(count));
    if !o.Done? {
      PrefixExtend(made, base, all);
      if !o.Suspended? {
        t.EndScope(sc);
      }
      return;
    }
    ghost var handed;
    o, handed := HandInAndWait(t, npcId, itemId, slot, count);
    GatedAfter(mid, t.log, |old(t.log)|, npcId, itemId, slot);
    TrafficShowsNoInteraction(t.log, |mid|, npcInstanceId, false);
    ShowsSplit(mid, t.log, |old(t.log)|, Call(InteractWith(npcInstanceId), false));
    PrefixAfterOpening(base, all, handed);
    ConcatAssoc(old(t.requests), made, handed);
    made := made + handed;
    if !o.Suspended? {
      t.EndScope(sc);
    }
  }
}
