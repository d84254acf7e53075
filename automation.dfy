/**
 * The task execution core: a task's debug-context stack, its abort
 * messages, its cooperative frame waits and cancellation, and the runner
 * that lets only one task run at a time.
 *
 * A task body is a coroutine resumed once per frame. Here a frame is an
 * explicit step (`NextFrame`) that appends `Tick` to the task's log, and a
 * task has a budget of frames it may still be given; when the budget is
 * spent the body stops where it is, `Suspended`, as a coroutine does whose
 * next frame has not come yet. Cancellation is a flag that only ever goes
 * from false to true and is noticed at frame waits.
 */
module Tasks {
  import opened Wrappers
  import opened World

  /** How a step of a task body ended. */
  datatype Outcome =
    | Done                       // returned normally
    | Aborted(message: string)   // threw an exception with this message
    | Failed(fault: Fault)       // a game-data lookup or player dereference threw
    | Cancelled                  // a frame wait saw the cancellation
    | Suspended                  // waiting for a frame beyond the budget

  /** A debug-context scope: the stack depth recorded when it was entered. */
  datatype Scope = Scope(depth: nat)

  /** The parts joined with `sep` between each two of them (`string.Join`). */
  function Join(parts: seq<string>, sep: string): (r: string)
    ensures parts == [] ==> r == ""
    ensures |parts| == 1 ==> r == parts[0]
  {
    if |parts| == 0 then ""
    else if |parts| == 1 then parts[0]
    else Join(parts[..|parts| - 1], sep) + sep + parts[|parts| - 1]
  }

  /** `x` occurs in `s` at some position. */
  ghost predicate Infix(x: string, s: string)
  {
    exists k :: 0 <= k <= |s| - |x| && s[k..][..|x|] == x
  }

  lemma InfixAt(x: string, s: string, k: nat)
    requires k + |x| <= |s| && s[k..k + |x|] == x
    ensures Infix(x, s)
  {
    assert s[k..][..|x|] == x;
  }

  /** Entering one more scope appends its name to the path after the separator. */
  lemma JoinSnoc(parts: seq<string>, sep: string, name: string)
    requires parts != []
    ensures Join(parts + [name], sep) == Join(parts, sep) + sep + name
  {
    assert (parts + [name])[..|parts|] == parts;
  }

  /** Every scope name appears in the joined path. */
  lemma {:induction false} JoinShowsEveryScope(parts: seq<string>, sep: string, i: nat)
    requires i < |parts|
    ensures Infix(parts[i], Join(parts, sep))
    decreases |parts|
  {
    var r := Join(parts, sep);
    if |parts| == 1 {
      InfixAt(parts[0], r, 0);
    } else if i == |parts| - 1 {
      InfixAt(parts[i], r, |r| - |parts[i]|);
    } else {
      var init := parts[..|parts| - 1];
      JoinShowsEveryScope(init, sep, i);
      var j := Join(init, sep);
      var k :| 0 <= k <= |j| - |init[i]| && j[k..][..|init[i]|] == init[i];
      assert r[k..k + |parts[i]|] == j[k..][..|init[i]|];
      InfixAt(parts[i], r, k);
    }
  }

  /**
   * The message of the exception `Error` throws: the task's type name,
   * the scope path joined by " > ", then the message itself.
   */
  function ErrorMessage(kind: string, scopes: seq<string>, msg: string): string
  {
    "[" + kind + "] [" + Join(scopes, " > ") + "] " + msg
  }

  /** The abort message starts with the task's name, ends with the message, and shows the scope path before it. */
  lemma ErrorMessageParts(kind: string, scopes: seq<string>, msg: string)
    ensures var r := ErrorMessage(kind, scopes, msg);
      |r| >= |msg| && r[|r| - |msg|..] == msg &&
      Infix(Join(scopes, " > ") + "] " + msg, r) &&
      Infix("[" + kind + "] ", r)
  {
    var path := Join(scopes, " > ") + "] " + msg;
    var r := ErrorMessage(kind, scopes, msg);
    assert r == "[" + kind + "] [" + path;
    assert r[|r| - |path|..] == path;
    InfixAt(path, r, |r| - |path|);
    InfixAt("[" + kind + "] ", r, 0);
  }

  /** The abort message names every scope that is open when the error is raised. */
  lemma ErrorMessageNamesScopes(kind: string, scopes: seq<string>, msg: string, i: nat)
    requires i < |scopes|
    ensures Infix(scopes[i], ErrorMessage(kind, scopes, msg))
  {
    JoinShowsEveryScope(scopes, " > ", i);
    var j := Join(scopes, " > ");
    var r := ErrorMessage(kind, scopes, msg);
    var k :| 0 <= k <= |j| - |scopes[i]| && j[k..][..|scopes[i]|] == scopes[i];
    var off := |kind| + 4;
    assert r[off..off + |j|] == j;
    assert r[off + k..off + k + |scopes[i]|] == scopes[i];
    InfixAt(scopes[i], r, off + k);
  }

  /** `n` rounds of a wait: the condition still held, then a frame passed. */
  function Waited(t: Test, n: nat): (r: seq<Event>)
    ensures |r| == 2 * n
    ensures forall i :: 0 <= i < |r| ==> r[i] == Tick || r[i] == Probe(t.cond, t.holdsWhen)
  {
    if n == 0 then [] else Waited(t, n - 1) + [Probe(t.cond, t.holdsWhen), Tick]
  }

  /** From position `from` on, the log holds only checks of `c` and passing frames. */
  ghost predicate OnlyChecks(log: seq<Event>, from: nat, c: Cond)
  {
    forall i :: from <= i < |log| ==> log[i] == Tick || (log[i].Probe? && log[i].cond == c)
  }

  /** A stretch of checks of `c` does not show an event other than such a check or a frame. */
  lemma OnlyChecksShowNothingElse(log: seq<Event>, from: nat, c: Cond, e: Event)
    requires OnlyChecks(log, from, c) && e != Tick && !(e.Probe? && e.cond == c)
    ensures !Shows(log, from, e)
  {
    ShowsOccurs(log, from, e);
  }

  /** A stretch of checks sends no request. */
  lemma ChecksAreQuiet(log: seq<Event>, from: nat, c: Cond)
    requires OnlyChecks(log, from, c)
    ensures Quiet(log, from)
  {
  }

  /** An automation task: its status line, debug-context stack, log and cancellation. */
  class AutoTask {
    /** The task's type name, the first part of its messages. */
    const kind: string
    /** The game this task runs against. */
    const env: Env
    var status: Status
    /** The debug-context stack of scope names. */
    var scopes: seq<string>
    /** Every exchange with the game so far. */
    var log: seq<Event>
    var cancelled: bool
    /** Frames the host will still run this task for. */
    var framesLeft: nat
    /** Every request sent so far other than advancing a talk dialog, in order. */
    ghost var requests: seq<Action>
    /** How many times a talk dialog was advanced. */
    ghost var talksAdvanced: nat
    /** Every status line set so far, in order. */
    ghost var reports: seq<Status>

    /** The log records what the game answered. */
    ghost predicate Valid()
      reads this
    {
      Faithful(env, log)
    }

    constructor (kind: string, env: Env, frames: nat)
      ensures Valid()
      ensures this.kind == kind && this.env == env && status == Idle
      ensures scopes == [] && log == [] && !cancelled && framesLeft == frames
      ensures requests == [] && reports == [] && talksAdvanced == 0
    {
      this.kind := kind;
      this.env := env;
      status := Idle;
      scopes := [];
      log := [];
      cancelled := false;
      framesLeft := frames;
      requests := [];
      reports := [];
      talksAdvanced := 0;
    }

    /** Request cancellation; the body notices it at its next frame wait. */
    method Cancel()
      modifies this`cancelled
      ensures cancelled
    {
      cancelled := true;
    }

    /** Enter a scope: push its name and remember the depth before the push. */
    method BeginScope(name: string) returns (sc: Scope)
      modifies this`scopes
      ensures sc.depth == |old(scopes)|
      ensures scopes == old(scopes) + [name]
    {
      sc := Scope(|scopes|);
      scopes := scopes + [name];
    }

    /**
     * Leave a scope: cut the stack back to the scope's depth, dropping any
     * inner scope left open; nothing happens if the stack is already that short.
     */
    method EndScope(sc: Scope)
      modifies this`scopes
      ensures sc.depth < |old(scopes)| ==> scopes == old(scopes)[..sc.depth]
      ensures sc.depth >= |old(scopes)| ==> scopes == old(scopes)
    {
      if sc.depth < |scopes| {
        scopes := scopes[..sc.depth];
      }
    }

    /** Rename a scope in place, if its entry is still on the stack. */
    method Rename(sc: Scope, name: string)
      modifies this`scopes
      ensures |scopes| == |old(scopes)|
      ensures sc.depth < |scopes| ==> scopes[sc.depth] == name
      ensures forall i :: 0 <= i < |scopes| && i != sc.depth ==> scopes[i] == old(scopes)[i]
      ensures sc.depth >= |scopes| ==> scopes == old(scopes)
    {
      if sc.depth < |scopes| {
        scopes := scopes[sc.depth := name];
      }
    }

    /** `Error(msg)` as an outcome: abort with the scope path in the message. */
    function Error(msg: string): (o: Outcome)
      reads this
      ensures o.Aborted? && o.message == ErrorMessage(kind, scopes, msg)
    {
      Aborted(ErrorMessage(kind, scopes, msg))
    }

    /** `ErrorIf(cond, msg)`: abort as `Error` does when `cond` holds, carry on otherwise. */
    function ErrorIf(cond: bool, msg: string): (o: Outcome)
      reads this
      ensures o.Aborted? <==> cond
      ensures o.Done? <==> !cond
      ensures cond ==> o == Error(msg)
    {
      if cond then Error(msg) else Done
    }

    /** Ask the game a question. */
    method Ask(c: Cond) returns (v: bool)
      requires Valid()
      modifies this`log
      ensures Valid()
      ensures v == env.holds(old(log), c)
      ensures log == old(log) + [Probe(c, v)]
    {
      v := env.holds(log, c);
      FaithfulSnoc(env, log, Probe(c, v));
      log := log + [Probe(c, v)];
    }

    /** Read a number from the game. */
    method Read(q: Quantity) returns (n: int)
      requires Valid()
      modifies this`log
      ensures Valid()
      ensures n == MeasureOf(env, old(log), q)
      ensures log == old(log) + [Measure(q, n)]
    {
      n := MeasureOf(env, log, q);
      FaithfulSnoc(env, log, Measure(q, n));
      log := log + [Measure(q, n)];
    }

    /** Send a request to the game or a helper plugin; `ok` is its boolean result. */
    method Invoke(a: Action) returns (ok: bool)
      requires Valid()
      modifies this`log, this`requests
      ensures Valid()
      ensures ok == env.succeeds(old(log), a)
      ensures log == old(log) + [Call(a, ok)]
      ensures requests == old(requests) + [a]
    {
      ok := env.succeeds(log, a);
      FaithfulSnoc(env, log, Call(a, ok));
      log := log + [Call(a, ok)];
      requests := requests + [a];
    }

    /** Advance the open talk dialog (`ProgressTalk`). */
    method AdvanceTalk()
      requires Valid()
      modifies this`log, this`talksAdvanced
      ensures Valid()
      ensures log == old(log) + [Call(ProgressTalk, env.succeeds(old(log), ProgressTalk))]
      ensures talksAdvanced == old(talksAdvanced) + 1
    {
      var e := Call(ProgressTalk, env.succeeds(log, ProgressTalk));
      FaithfulSnoc(env, log, e);
      log := log + [e];
      talksAdvanced := talksAdvanced + 1;
    }

    /** Set the status line shown to the user. */
    method SetStatus(s: Status)
      requires Valid()
      modifies this`status, this`log, this`reports
      ensures Valid()
      ensures status == s
      ensures log == old(log) + [Report(s)]
      ensures reports == old(reports) + [s]
    {
      status := s;
      FaithfulSnoc(env, log, Report(s));
      log := log + [Report(s)];
      reports := reports + [s];
    }

    /**
     * Wait one frame. A cancelled task does not wait; a task out of budget
     * stays suspended; otherwise a frame passes and the host may cancel.
     */
    method NextFrame() returns (o: Outcome)
      requires Valid()
      modifies this`log, this`cancelled, this`framesLeft
      ensures Valid()
      ensures o.Done? || o.Cancelled? || o.Suspended?
      ensures old(cancelled) ==> o == Cancelled && log == old(log) && cancelled && framesLeft == old(framesLeft)
      ensures !old(cancelled) && old(framesLeft) == 0 ==>
        o == Suspended && log == old(log) && !cancelled && framesLeft == 0
      ensures !old(cancelled) && old(framesLeft) > 0 ==>
        log == old(log) + [Tick] && framesLeft == old(framesLeft) - 1 &&
        cancelled == env.cancelRequested(log) && (o == if cancelled then Cancelled else Done)
    {
      if cancelled {
        return Cancelled;
      }
      if framesLeft == 0 {
        return Suspended;
      }
      framesLeft := framesLeft - 1;
      FaithfulSnoc(env, log, Tick);
      log := log + [Tick];
      if env.cancelRequested(log) {
        cancelled := true;
        return Cancelled;
      }
      return Done;
    }

    /**
     * Wait while the test passes, checking once per frame, inside a scope
     * of its own. It returns normally only after the test has failed; each
     * passing check is followed by one frame.
     */
    method WaitWhile(t: Test, name: string) returns (o: Outcome, ghost rounds: nat)
      requires Valid()
      modifies this`scopes, this`log, this`cancelled, this`framesLeft
      ensures Valid() && status == old(status)
      ensures o.Done? || o.Cancelled? || o.Suspended?
      ensures o.Done? ==> log == old(log) + Waited(t, rounds) + [Probe(t.cond, !t.holdsWhen)]
      ensures |log| > |old(log)| && old(log) <= log
      ensures OnlyChecks(log, |old(log)|, t.cond)
      ensures old(cancelled) ==> cancelled
      ensures o.Cancelled? ==> cancelled
      ensures o.Done? ==> cancelled == old(cancelled)
      ensures !o.Suspended? ==> scopes == old(scopes)
      ensures o.Suspended? ==> scopes == old(scopes) + [name]
    {
      var sc := BeginScope(name);
      rounds := 0;
      while true
        invariant Valid()
        invariant scopes == old(scopes) + [name]
        invariant log == old(log) + Waited(t, rounds)
        invariant cancelled == old(cancelled)
        decreases framesLeft
      {
        var v := Ask(t.cond);
        if v != t.holdsWhen {
          EndScope(sc);
          return Done, rounds;
        }
        ghost var before := framesLeft;
        o := NextFrame();
        if !o.Done? {
          if o.Cancelled? {
            EndScope(sc);
          }
          return o, rounds;
        }
        rounds := rounds + 1;
      }
    }
  }

  /** Runs at most one task at a time; starting a task cancels the one before it. */
  class Automation {
    var currentTask: AutoTask?

    constructor ()
      ensures currentTask == null
    {
      currentTask := null;
    }

    /** A task is running. */
    function Running(): (r: bool)
      reads this
      ensures r <==> currentTask != null
    {
      currentTask != null
    }

    /** Stop the running task, if any: cancel it and forget it. */
    method Stop()
      modifies this, {currentTask}`cancelled
      ensures currentTask == null && !Running()
      ensures old(currentTask) != null ==> old(currentTask).cancelled
    {
      if currentTask != null {
        currentTask.Cancel();
      }
      currentTask := null;
    }

    /** Start a task, cancelling the one that was running. */
    method Start(task: AutoTask)
      modifies this, {currentTask}`cancelled
      ensures currentTask == task && Running()
      ensures old(currentTask) != null ==> old(currentTask).cancelled
    {
      Stop();
      currentTask := task;
    }

    /** The completion callback of `task`: forget it only if it is still the current task. */
    method Completed(task: AutoTask)
      modifies this
      ensures old(currentTask) == task ==> currentTask == null
      ensures old(currentTask) != task ==> currentTask == old(currentTask)
    {
      if currentTask == task {
        currentTask := null;
      }
    }
  }

  /**
   * A task started and then replaced by a second one finishes late: the
   * first is cancelled and its completion leaves the second running.
   */
  method SupersededCompletion(runner: Automation, first: AutoTask, second: AutoTask)
    requires first != second
    modifies runner, {runner.currentTask}`cancelled, first`cancelled
    ensures first.cancelled
    ensures runner.currentTask == second && runner.Running()
  {
    runner.Start(first);
    runner.Start(second);
    runner.Completed(first);
  }
}
