/** What the calls on a Stream and its process goroutines come to, over whole runs with their outcomes. */
module StreamCalls {
  import opened Counting
  import opened Stream

  /** A run together with the actions taken, which tell the outcome of each call that may fail. */
  ghost predicate Trace(run: seq<State>, acts: seq<Action>) {
    && |run| == |acts| + 1 && Init(run[0])
    && forall i :: 0 <= i < |acts| ==> Takes(run[i], acts[i], run[i + 1])
  }

  ghost predicate Takes(s: State, a: Action, s': State) {
    Enabled(s, a) && s' == Apply(s, a)
  }

  lemma StepAt(run: seq<State>, acts: seq<Action>, i: nat, j: nat)
    requires Trace(run, acts) && i < j == i + 1 < |run|
    ensures Takes(run[i], acts[i], run[j])
  {
    assert Takes(run[i], acts[i], run[i + 1]);
  }

  lemma TraceIsBehavior(run: seq<State>, acts: seq<Action>)
    requires Trace(run, acts)
    ensures Behavior(run)
  {
    forall i | 0 <= i < |run| - 1
      ensures Next(run[i], run[i + 1])
    {
      assert Takes(run[i], acts[i], run[i + 1]);
    }
  }

  lemma {:induction false} BehaviorHasTrace(run: seq<State>) returns (acts: seq<Action>)
    requires Behavior(run)
    ensures Trace(run, acts)
  {
    if |run| == 1 {
      acts := [];
    } else {
      var n := |run| - 1;
      assert Behavior(run[..n]);
      var before := BehaviorHasTrace(run[..n]);
      assert Next(run[n - 1], run[n - 1 + 1]);
      var a :| Enabled(run[n - 1], a) && run[n] == Apply(run[n - 1], a);
      acts := before + [a];
      forall i | 0 <= i < |acts|
        ensures Takes(run[i], acts[i], run[i + 1])
      {
        assert i < n - 1 ==> Takes(run[..n][i], before[i], run[..n][i + 1]);
      }
    }
  }

  lemma TraceKeepsInv(run: seq<State>, acts: seq<Action>, i: nat)
    requires Trace(run, acts) && i < |run|
    ensures Inv(run[i])
  {
    TraceIsBehavior(run, acts);
    BehaviorKeepsInv(run, i);
  }

  /** Goroutine `t` is at the point `p`. */
  predicate IsAt(s: State, t: nat, p: Point) {
    t in s.at && s.at[t] == p
  }

  /** The action is the next step of goroutine `t`. */
  predicate Moves(a: Action, t: nat) {
    a.Go? && a.t == t
  }

  // ---- The process loop ----

  predicate ReadsFrame(s: State, a: Action, p: nat) {
    Moves(a, p) && a.ok && IsAt(s, p, ProcRead)
  }

  predicate FailsRead(s: State, a: Action, p: nat) {
    Moves(a, p) && !a.ok && IsAt(s, p, ProcRead)
  }

  predicate SendsFrame(s: State, a: Action, p: nat) {
    Moves(a, p) && IsAt(s, p, ProcSend)
  }

  /** The whole frames that process `p` has read in the first `n` steps. */
  ghost function FramesRead(run: seq<State>, acts: seq<Action>, p: nat, n: nat): nat
    requires n <= |acts| <= |run|
  {
    if n == 0 then 0 else FramesRead(run, acts, p, n - 1) + if ReadsFrame(run[n - 1], acts[n - 1], p) then 1 else 0
  }

  ghost function FramesSent(run: seq<State>, acts: seq<Action>, p: nat, n: nat): nat
    requires n <= |acts| <= |run|
  {
    if n == 0 then 0 else FramesSent(run, acts, p, n - 1) + if SendsFrame(run[n - 1], acts[n - 1], p) then 1 else 0
  }

  /** In every run each process sends every frame it has read whole, once, before it reads the next, and nothing else. */
  lemma {:induction false} FramesFlow(run: seq<State>, acts: seq<Action>, p: nat, n: nat)
    requires Trace(run, acts) && n <= |acts|
    ensures FramesRead(run, acts, p, n) == FramesSent(run, acts, p, n) + if IsAt(run[n], p, ProcSend) then 1 else 0
  {
    if n > 0 {
      FramesFlow(run, acts, p, n - 1);
      assert Takes(run[n - 1], acts[n - 1], run[n - 1 + 1]);
      FrameStep(run[n - 1], acts[n - 1], run[n], p);
    }
  }

  lemma FrameStep(s: State, a: Action, s': State, p: nat)
    requires Takes(s, a, s')
    ensures Bit(IsAt(s', p, ProcSend)) - Bit(IsAt(s, p, ProcSend)) == Bit(ReadsFrame(s, a, p)) - Bit(SendsFrame(s, a, p))
  {
  }

  /** A process leaves its loop exactly when it receives a pause, and is gone, or fails a read, and goes to clean up. */
  lemma LeavesLoop(run: seq<State>, acts: seq<Action>, i: nat, p: nat)
    requires Trace(run, acts) && i < |acts| && p in run[i].at && Receptive(run[i].at[p])
    ensures p in run[i + 1].at
    ensures Receptive(run[i + 1].at[p]) <==> !(acts[i].Meet? && acts[i].p == p) && !FailsRead(run[i], acts[i], p)
    ensures acts[i].Meet? && acts[i].p == p ==> IsAt(run[i], p, ProcSelect) && IsAt(run[i + 1], p, Gone)
    ensures FailsRead(run[i], acts[i], p) ==> IsAt(run[i + 1], p, ProcLock)
  {
    assert Takes(run[i], acts[i], run[i + 1]);
  }

  predicate Ending(p: Point) {
    p == ProcLock || (p.Clean? && p.byProcess)
  }

  /** In the cleanup, or gone with the stream stopped. */
  predicate Ended(s: State, p: nat) {
    p in s.at && (Ending(s.at[p]) || (s.at[p] == Gone && s.f.phase == Stopped))
  }

  lemma CleanStep(f: Fields, p: Point, ok: bool)
    requires PointOk(f, p) && Ending(p) && Step(f, p, ok).To?
    ensures var e := Step(f, p, ok); Ending(e.p) || (e.p == Gone && e.f.phase == Stopped)
  {
  }

  lemma EndingStep(s: State, a: Action, s': State, p: nat)
    requires Inv(s) && Takes(s, a, s') && p in s.at && Ending(s.at[p])
    ensures Ended(s', p)
  {
    if Moves(a, p) {
      CleanStep(s.f, s.at[p], a.ok);
    }
  }

  lemma EndedStep(s: State, a: Action, s': State, p: nat)
    requires Inv(s) && Takes(s, a, s') && Ended(s, p)
    ensures Ended(s', p)
  {
    if Ending(s.at[p]) {
      EndingStep(s, a, s', p);
    } else {
      StepKeepsStopped(s, a);
    }
  }

  /** One that failed a read stays in the cleanup until it is gone, and then the stream has stopped. */
  lemma {:induction false} FailedReadStops(run: seq<State>, acts: seq<Action>, i: nat, n: nat, p: nat)
    requires Trace(run, acts) && i < n <= |acts| && FailsRead(run[i], acts[i], p)
    ensures Ended(run[n], p)
  {
    var j := n - 1;
    if j == i {
      LeavesLoop(run, acts, i, p);
    } else {
      FailedReadStops(run, acts, i, j, p);
      TraceKeepsInv(run, acts, j);
      assert Takes(run[j], acts[j], run[j + 1]);
      EndedStep(run[j], acts[j], run[j + 1], p);
    }
  }

  // ---- Nothing else stops a stream ----

  predicate Stopping(p: Point) {
    p == ProcLock || p == StopLock || p == StopCheck || p == StopWait || p.Clean?
  }

  ghost predicate Quiet(s: State) {
    s.f.phase != Stopped && forall t :: t in s.at ==> !Stopping(s.at[t])
  }

  /** A call of Stop, or a failed read. */
  predicate EndsStream(s: State, a: Action) {
    a.CallStop? || (a.Go? && FailsRead(s, a, a.t))
  }

  lemma QuietMove(f: Fields, p: Point, ok: bool)
    requires f.phase != Stopped && !Stopping(p) && Step(f, p, ok).To? && (p == ProcRead ==> ok)
    ensures !Stopping(Step(f, p, ok).p) && Step(f, p, ok).f.phase != Stopped
  {
  }

  lemma QuietStep(s: State, a: Action, s': State)
    requires Quiet(s) && Takes(s, a, s') && !EndsStream(s, a)
    ensures Quiet(s')
  {
    if a.Go? {
      QuietMove(s.f, s.at[a.t], a.ok);
    }
    forall t | t in s'.at
      ensures !Stopping(s'.at[t])
    {
      assert t in s.at ==> !Stopping(s.at[t]);
    }
  }

  lemma {:induction false} StaysQuiet(run: seq<State>, acts: seq<Action>, n: nat)
    requires Trace(run, acts) && n <= |acts| && forall j :: 0 <= j < n ==> !EndsStream(run[j], acts[j])
    ensures Quiet(run[n])
  {
    if n > 0 {
      StaysQuiet(run, acts, n - 1);
      assert Takes(run[n - 1], acts[n - 1], run[n - 1 + 1]);
      QuietStep(run[n - 1], acts[n - 1], run[n]);
    }
  }

  /** A stream has stopped only if someone called Stop or a read failed. */
  lemma NeverStopsUnasked(run: seq<State>, acts: seq<Action>, n: nat)
    requires Trace(run, acts) && n <= |acts| && run[n].f.phase == Stopped
    ensures exists j :: 0 <= j < n && EndsStream(run[j], acts[j])
  {
    if forall j :: 0 <= j < n ==> !EndsStream(run[j], acts[j]) {
      StaysQuiet(run, acts, n);
    }
  }

  // ---- Callers and processes ----

  predicate Worker(p: Point) {
    p == Gone || Live(p)
  }

  lemma StepKeepsKind(f: Fields, p: Point, ok: bool)
    requires Step(f, p, ok).To?
    ensures Worker(Step(f, p, ok).p) <==> Worker(p)
  {
  }

  lemma KindStep(s: State, a: Action, s': State, t: nat)
    requires Takes(s, a, s') && t in s.at
    ensures t in s'.at && (Worker(s'.at[t]) <==> Worker(s.at[t]))
  {
    if Moves(a, t) {
      StepKeepsKind(s.f, s.at[t], a.ok);
    }
  }

  /** A goroutine that makes calls never becomes a process, nor the other way round. */
  lemma {:induction false} KindIsKept(run: seq<State>, acts: seq<Action>, i: nat, n: nat, t: nat)
    requires Trace(run, acts) && i <= n <= |acts| && t in run[i].at
    ensures t in run[n].at && (Worker(run[n].at[t]) <==> Worker(run[i].at[t]))
  {
    if i < n {
      KindIsKept(run, acts, i, n - 1, t);
      assert Takes(run[n - 1], acts[n - 1], run[n - 1 + 1]);
      KindStep(run[n - 1], acts[n - 1], run[n], t);
    }
  }

  // ---- While one goroutine holds the lock ----

  lemma OutsideKeepsFields(f: Fields, p: Point, ok: bool)
    requires f.l && !Holding(p) && Step(f, p, ok).To?
    ensures Step(f, p, ok).f == f && !Step(f, p, ok).spawn
  {
  }

  /** Goroutine `t` holds the lock, and no other does. */
  ghost predicate Alone(s: State, t: nat) {
    t in s.at && Holding(s.at[t]) && s.f.l && forall u :: u in s.at && u != t ==> !Holding(s.at[u])
  }

  lemma AloneAt(run: seq<State>, acts: seq<Action>, i: nat, t: nat)
    requires Trace(run, acts) && i < |run| && t in run[i].at && Holding(run[i].at[t])
    ensures Alone(run[i], t)
  {
    TraceKeepsInv(run, acts, i);
    SoleHolder(run[i], t);
  }

  /** A step that starts a process goroutine. */
  predicate Starts(a: Action, s': State) {
    a.Go? && a.child in s'.at
  }

  /** The others change no field, start no process and leave the holder where it is. */
  lemma OthersWait(s: State, a: Action, s': State, t: nat)
    requires Alone(s, t) && Takes(s, a, s') && !Moves(a, t)
    ensures s'.f == s.f && IsAt(s', t, s.at[t]) && !Starts(a, s')
  {
    if a.Go? {
      assert !Holding(s.at[a.t]);
      OutsideKeepsFields(s.f, s.at[a.t], a.ok);
    }
  }

  ghost function Started(run: seq<State>, acts: seq<Action>, i: nat, n: nat): nat
    requires i <= n <= |acts| < |run|
  {
    if n == i then 0 else Started(run, acts, i, n - 1) + if Starts(acts[n - 1], run[n]) then 1 else 0
  }

  /** With the lock, and neither launching nor marking, the sources in use are one exactly while the stream is active. */
  lemma SettledSources(s: State, t: nat)
    requires Inv(s) && t in s.at && Holding(s.at[t]) && !Launching(s.at[t]) && !Marking(s.at[t])
    ensures s.f.started - s.f.done == Active(s.f)
  {
    SoleHolder(s, t);
    assert Where(s.at, Launching) == {};
    assert Where(s.at, Marking) == {};
  }

  // ---- Play ----

  /** The calls of Play that may fail: the source is there, the pipe opens, the source starts, the command starts. */
  predicate Fallible(p: Point) {
    p == PlaySwitch || p == PlayPipe || p == PlayStart || p == PlayExec
  }

  /** At none of these steps does a call of `t` fail. */
  ghost predicate AllSucceed(run: seq<State>, acts: seq<Action>, t: nat, i: nat, n: nat)
    requires i <= n <= |acts| <= |run|
  {
    forall j :: i <= j < n ==> !Fails(run[j], acts[j], t)
  }

  predicate Fails(s: State, a: Action, t: nat) {
    Moves(a, t) && t in s.at && Fallible(s.at[t]) && !a.ok
  }

  predicate Playable(p: Point) {
    Fallible(p) || p == PlayCommit
  }

  /** Where a Play that found the fields `f0` may be, with `succeeds` of its calls so far. */
  predicate PlayedTo(f0: Fields, f: Fields, p: Point, succeeds: bool, started: nat) {
    if p == PlaySwitch then f == f0 && succeeds && started == 0
    else if f0.phase == Paused then p == PlayUnlock(false) && f == f0.(phase := Playing) && started == 1
    else if f0.phase != Initial then p == PlayUnlock(true) && f == f0 && started == 0
    else if p == PlayPipe || p == PlayStart then f == f0 && succeeds && started == 0
    else if p == PlayExec || p == PlayCommit then f == f0.(started := f0.started + 1) && succeeds && started == 0
    else if p == PlayUnlock(false) then f.phase == Playing && succeeds && started == 1
    else p == PlayUnlock(true) && f.phase == Initial && !succeeds && started == 0
  }

  lemma PlayStep(f0: Fields, s: State, a: Action, s': State, t: nat, succeeds: bool, started: nat)
    requires Alone(s, t) && Takes(s, a, s') && Playable(s.at[t])
    requires PlayedTo(f0, s.f, s.at[t], succeeds, started)
    ensures t in s'.at
    ensures PlayedTo(f0, s'.f, s'.at[t], succeeds && !Fails(s, a, t), started + if Starts(a, s') then 1 else 0)
  {
    if Moves(a, t) {
      assert s' == After(s, t, Step(s.f, s.at[t], a.ok), a.child);
    } else {
      OthersWait(s, a, s', t);
    }
  }

  lemma OneMoreSucceeds(run: seq<State>, acts: seq<Action>, t: nat, i: nat, j: nat)
    requires i <= j < |acts| <= |run|
    ensures AllSucceed(run, acts, t, i, j + 1) <==> AllSucceed(run, acts, t, i, j) && !Fails(run[j], acts[j], t)
  {
  }

  /** How far the Play of `t` has come between `i` and `n`. */
  ghost predicate Progress(run: seq<State>, acts: seq<Action>, i: nat, n: nat, t: nat)
    requires i <= n <= |acts| < |run|
  {
    t in run[n].at && PlayedTo(run[i].f, run[n].f, run[n].at[t], AllSucceed(run, acts, t, i, n), Started(run, acts, i, n))
  }

  lemma ProgressStep(run: seq<State>, acts: seq<Action>, i: nat, j: nat, n: nat, t: nat)
    requires i <= j < n <= |acts| < |run| && n == j + 1 && Alone(run[j], t) && Takes(run[j], acts[j], run[n])
    requires Progress(run, acts, i, j, t) && Playable(run[j].at[t])
    ensures Progress(run, acts, i, n, t)
  {
    PlayStep(run[i].f, run[j], acts[j], run[n], t, AllSucceed(run, acts, t, i, j), Started(run, acts, i, j));
    OneMoreSucceeds(run, acts, t, i, j);
  }

  /** From `i` on and before `n`, goroutine `t` is in the body of Play. */
  ghost predicate Plays(run: seq<State>, t: nat, i: nat, n: nat)
    requires n <= |run|
  {
    forall j :: i <= j < n ==> t in run[j].at && Playable(run[j].at[t])
  }

  lemma ProgressStarts(run: seq<State>, acts: seq<Action>, i: nat, t: nat)
    requires i <= |acts| < |run| && IsAt(run[i], t, PlaySwitch)
    ensures Progress(run, acts, i, i, t)
  {
  }

  /** One more step of a Play that has not come to its end. */
  lemma PlayGoesOn(run: seq<State>, acts: seq<Action>, i: nat, n: nat, t: nat)
    requires Trace(run, acts) && i < n <= |acts| && Plays(run, t, i, n) && Progress(run, acts, i, n - 1, t)
    ensures Progress(run, acts, i, n, t)
  {
    var j := n - 1;
    AloneAt(run, acts, j, t);
    StepAt(run, acts, j, n);
    ProgressStep(run, acts, i, j, n, t);
  }

  lemma {:induction false} PlayProgress(run: seq<State>, acts: seq<Action>, i: nat, n: nat, t: nat)
    requires Trace(run, acts) && i <= n <= |acts| && IsAt(run[i], t, PlaySwitch) && Plays(run, t, i, n)
    ensures Progress(run, acts, i, n, t)
  {
    if i == n {
      ProgressStarts(run, acts, i, t);
    } else {
      PlayProgress(run, acts, i, n - 1, t);
      PlayGoesOn(run, acts, i, n, t);
    }
  }

  /**
   * A Play, from the switch at `i` to its return at `n`, succeeds exactly if the stream was paused, or
   * new and all its calls succeed. Then the stream is playing and one process has started; otherwise
   * the state is what it was and none has. A new stream whose Play fails holds no source.
   */
  lemma PlayOutcome(run: seq<State>, acts: seq<Action>, i: nat, n: nat, t: nat)
    requires Trace(run, acts) && i < n <= |acts| && IsAt(run[i], t, PlaySwitch) && Plays(run, t, i, n)
    requires t in run[n].at && run[n].at[t].PlayUnlock?
    ensures !run[n].at[t].err <==>
            run[i].f.phase == Paused || (run[i].f.phase == Initial && AllSucceed(run, acts, t, i, n))
    ensures run[n].f.phase == if run[n].at[t].err then run[i].f.phase else Playing
    ensures Started(run, acts, i, n) == if run[n].at[t].err then 0 else 1
    ensures run[n].f.started - run[n].f.done == Active(run[n].f)
  {
    PlayProgress(run, acts, i, n, t);
    TraceKeepsInv(run, acts, n);
    SettledSources(run[n], t);
  }

  // ---- Pause ----

  predicate Pausing(p: Point) {
    p == PauseUnlock || p == PauseSend
  }

  lemma PauseStep(s: State, a: Action, s': State, t: nat)
    requires Takes(s, a, s') && t in s.at && Pausing(s.at[t])
    ensures t in s'.at
    ensures if a.Meet? && a.t == t then s'.at[t] == Idle && IsAt(s', a.p, Gone) else Pausing(s'.at[t])
  {
  }

  lemma {:induction false} PauseWaits(run: seq<State>, acts: seq<Action>, i: nat, n: nat, t: nat)
    requires Trace(run, acts) && i <= n <= |acts| && t in run[i].at && Pausing(run[i].at[t])
    requires forall j :: i <= j <= n ==> !IsAt(run[j], t, Idle)
    ensures t in run[n].at && Pausing(run[n].at[t])
  {
    if i < n {
      var j := n - 1;
      PauseWaits(run, acts, i, j, t);
      assert Takes(run[j], acts[j], run[j + 1]);
      PauseStep(run[j], acts[j], run[j + 1], t);
    }
  }

  lemma PauseCheckStep(s: State, a: Action, s': State, t: nat)
    requires Alone(s, t) && Takes(s, a, s') && IsAt(s, t, PauseCheck) && Moves(a, t)
    ensures s.f.phase == Playing ==> IsAt(s', t, PauseUnlock) && s'.f == s.f.(phase := Paused)
    ensures s.f.phase != Playing ==> IsAt(s', t, Idle) && s'.f == s.f.(l := false)
  {
  }

  /**
   * A Pause that looks at the state at `i` and is back after `n` has paused the stream and handed a
   * pause to a process, which goes, if the stream was playing; otherwise it is back at once and has
   * changed nothing but the lock.
   */
  lemma PauseOutcome(run: seq<State>, acts: seq<Action>, i: nat, n: nat, t: nat)
    requires Trace(run, acts) && i <= n < |acts| && IsAt(run[i], t, PauseCheck) && Moves(acts[i], t)
    requires (forall j :: i < j <= n ==> !IsAt(run[j], t, Idle)) && IsAt(run[n + 1], t, Idle)
    ensures run[i].f.phase == Playing ==>
            && run[i + 1].f == run[i].f.(phase := Paused)
            && acts[n].Meet? && acts[n].t == t && IsAt(run[n + 1], acts[n].p, Gone)
    ensures run[i].f.phase != Playing ==> n == i && run[n + 1].f == run[i].f.(l := false)
  {
    AloneAt(run, acts, i, t);
    StepAt(run, acts, i, i + 1);
    PauseCheckStep(run[i], acts[i], run[i + 1], t);
    if run[i].f.phase == Playing {
      PauseWaits(run, acts, i + 1, n, t);
      StepAt(run, acts, n, n + 1);
      PauseStep(run[n], acts[n], run[n + 1], t);
    }
  }

  // ---- Stop ----

  predicate StopsBy(p: Point) {
    p == StopWait || (p.Clean? && !p.byProcess)
  }

  lemma StopStep(s: State, a: Action, s': State, t: nat)
    requires Takes(s, a, s') && t in s.at && StopsBy(s.at[t])
    ensures t in s'.at && (StopsBy(s'.at[t]) || (s'.at[t] == Idle && IsAt(s, t, StopWait)))
  {
  }

  lemma {:induction false} StopGoesOn(run: seq<State>, acts: seq<Action>, i: nat, n: nat, t: nat)
    requires Trace(run, acts) && i <= n <= |acts| && t in run[i].at && StopsBy(run[i].at[t])
    requires forall j :: i <= j <= n ==> !IsAt(run[j], t, Idle)
    ensures t in run[n].at && StopsBy(run[n].at[t])
  {
    if i < n {
      var j := n - 1;
      StopGoesOn(run, acts, i, j, t);
      assert Takes(run[j], acts[j], run[j + 1]);
      StopStep(run[j], acts[j], run[j + 1], t);
    }
  }

  lemma StopCheckStep(s: State, a: Action, s': State, t: nat)
    requires Inv(s) && Takes(s, a, s') && IsAt(s, t, StopCheck) && Moves(a, t)
    ensures Active(s.f) == 1 ==> t in s'.at && StopsBy(s'.at[t])
    ensures Active(s.f) == 0 ==> IsAt(s', t, Idle) && s'.f == s.f.(l := false)
  {
    SoleHolder(s, t);
  }

  lemma StopReturns(s: State, a: Action, s': State, t: nat)
    requires Inv(s) && Takes(s, a, s') && t in s.at && StopsBy(s.at[t]) && IsAt(s', t, Idle)
    ensures s'.f.phase == Stopped && s'.f.wg == 0 && s'.f.cleanups == 1
  {
    StopStep(s, a, s', t);
    assert PointOk(s.f, StopWait) && Moves(a, t);
  }

  /**
   * A Stop that looks at the state at `i` and is back after `n` has stopped the stream, by one
   * cleanup, if it was playing or paused; otherwise it is back at once and has changed nothing but
   * the lock.
   */
  lemma StopOutcome(run: seq<State>, acts: seq<Action>, i: nat, n: nat, t: nat)
    requires Trace(run, acts) && i <= n < |acts| && IsAt(run[i], t, StopCheck) && Moves(acts[i], t)
    requires (forall j :: i < j <= n ==> !IsAt(run[j], t, Idle)) && IsAt(run[n + 1], t, Idle)
    ensures Active(run[i].f) == 1 ==> run[n + 1].f.phase == Stopped && run[n + 1].f.wg == 0 && run[n + 1].f.cleanups == 1
    ensures Active(run[i].f) == 0 ==> n == i && run[n + 1].f == run[i].f.(l := false)
  {
    assert Takes(run[i], acts[i], run[i + 1]) && Takes(run[n], acts[n], run[n + 1]);
    TraceKeepsInv(run, acts, i);
    StopCheckStep(run[i], acts[i], run[i + 1], t);
    if Active(run[i].f) == 1 {
      StopGoesOn(run, acts, i + 1, n, t);
      TraceKeepsInv(run, acts, n);
      StopReturns(run[n], acts[n], run[n + 1], t);
    }
  }
}
