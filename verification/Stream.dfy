/** A Stream with any number of callers and its process goroutines, one atomic step at a time (gumbleffmpeg/stream.go). */
module Stream {
  import opened Counting

  datatype Phase = Initial | Playing | Paused | Stopped

  datatype CleanStep = Test | Kill | SourceDone | Mark | WgDone | Release

  /** Where a goroutine is; each point names the next step. */
  datatype Point =
    | Idle                      // a caller between calls
    | Gone                      // a process goroutine that has returned
    | PlayLock
    | PlaySwitch
    | PlayPipe
    | PlayStart
    | PlayExec                  // the source has started
    | PlayCommit                // and so has the command
    | PlayUnlock(err: bool)     // with the error to return
    | PauseLock
    | PauseCheck
    | PauseUnlock               // committed to the send
    | PauseSend
    | StopLock
    | StopCheck
    | StopWait
    | ProcSelect
    | ProcRead
    | ProcSend
    | ProcLock
    | Clean(step: CleanStep, byProcess: bool)

  /** The fields of the Stream; `cleanups` counts the bodies of cleanup that have finished. */
  datatype Fields = Fields(phase: Phase, l: bool, cmd: bool, wg: int, started: nat, done: nat, cleanups: nat)

  datatype State = State(f: Fields, at: map<nat, Point>)

  /** What a goroutine's next step does: `spawn` is `go s.process()`. */
  datatype Effect = Blocked | Fatal | To(f: Fields, p: Point, spawn: bool)

  function Stay(f: Fields, p: Point): Effect {
    To(f, p, false)
  }

  function Lock(f: Fields, p: Point): Effect {
    if f.l then Blocked else Stay(f.(l := true), p)
  }

  function Unlock(f: Fields, p: Point): Effect {
    if !f.l then Fatal else Stay(f.(l := false), p)
  }

  /** The next step from point `p`; `ok` is the outcome of a call that may fail. */
  function Step(f: Fields, p: Point, ok: bool): Effect {
    match p
    case Idle => Blocked
    case Gone => Blocked
    case PlayLock => Lock(f, PlaySwitch)
    case PlaySwitch =>
      (match f.phase
       case Paused => To(f.(phase := Playing), PlayUnlock(false), true)
       case Playing => Stay(f, PlayUnlock(true))
       case Stopped => Stay(f, PlayUnlock(true))
       case Initial => Stay(f, if ok then PlayPipe else PlayUnlock(true)))
    case PlayPipe => Stay(f, if ok then PlayStart else PlayUnlock(true))
    case PlayStart => if ok then Stay(f.(started := f.started + 1), PlayExec) else Stay(f, PlayUnlock(true))
    case PlayExec => if ok then Stay(f, PlayCommit) else Stay(f.(done := f.done + 1), PlayUnlock(true))
    case PlayCommit => To(f.(wg := f.wg + 1, cmd := true, phase := Playing), PlayUnlock(false), true)
    case PlayUnlock(_) => Unlock(f, Idle)
    case PauseLock => Lock(f, PauseCheck)
    case PauseCheck => if f.phase == Playing then Stay(f.(phase := Paused), PauseUnlock) else Unlock(f, Idle)
    case PauseUnlock => Unlock(f, PauseSend)
    case PauseSend => Blocked   // completes only together with a receive
    case StopLock => Lock(f, StopCheck)
    case StopCheck => if f.phase == Stopped || f.phase == Initial then Unlock(f, Idle) else Stay(f, Clean(Test, false))
    case StopWait => if f.wg == 0 then Stay(f, Idle) else Blocked
    case ProcSelect => Stay(f, ProcRead)
    case ProcRead => Stay(f, if ok then ProcSend else ProcLock)
    case ProcSend => Stay(f, ProcSelect)
    case ProcLock => Lock(f, Clean(Test, true))
    case Clean(step, b) =>
      match step
      case Test => Stay(f, Clean(if f.phase == Stopped then Release else Kill, b))
      case Kill => if !f.cmd then Fatal else Stay(f, Clean(SourceDone, b))
      case SourceDone => Stay(f.(done := f.done + 1), Clean(Mark, b))
      case Mark => Stay(f.(phase := Stopped), Clean(WgDone, b))
      case WgDone => if f.wg <= 0 then Fatal else Stay(f.(wg := f.wg - 1, cleanups := f.cleanups + 1), Clean(Release, b))
      case Release => Unlock(f, if b then Gone else StopWait)
  }

  datatype Action =
    | CallPlay(t: nat)
    | CallPause(t: nat)
    | CallStop(t: nat)
    | Go(t: nat, ok: bool, child: nat)
    | Meet(t: nat, p: nat)      // a Pause send and a process receive on the unbuffered channel

  ghost predicate Enabled(s: State, a: Action) {
    match a
    case Go(t, ok, child) => t in s.at && child !in s.at && Step(s.f, s.at[t], ok).To?
    case Meet(t, p) => t in s.at && p in s.at && s.at[t] == PauseSend && s.at[p] == ProcSelect
    case _ => a.t in s.at ==> s.at[a.t] == Idle
  }

  ghost function After(s: State, t: nat, e: Effect, child: nat): State
    requires e.To?
  {
    var moved := s.at[t := e.p];
    State(e.f, if e.spawn then moved[child := ProcSelect] else moved)
  }

  ghost function Apply(s: State, a: Action): State
    requires Enabled(s, a)
  {
    match a
    case CallPlay(t) => s.(at := s.at[t := PlayLock])
    case CallPause(t) => s.(at := s.at[t := PauseLock])
    case CallStop(t) => s.(at := s.at[t := StopLock])
    case Go(t, ok, child) => After(s, t, Step(s.f, s.at[t], ok), child)
    case Meet(t, p) => s.(at := s.at[t := Idle][p := Gone])
  }

  ghost predicate Init(s: State) {
    s == State(Fields(Initial, false, false, 0, 0, 0, 0), map[])
  }

  ghost predicate Next(s: State, s': State) {
    exists a :: Enabled(s, a) && s' == Apply(s, a)
  }

  ghost predicate Behavior(run: seq<State>) {
    |run| > 0 && Init(run[0]) && forall i :: 0 <= i < |run| - 1 ==> Next(run[i], run[i + 1])
  }

  // ---- The invariant ----

  predicate Holding(p: Point) {
    || p == PlaySwitch || p == PlayPipe || p == PlayStart || p == PlayExec || p == PlayCommit || p.PlayUnlock?
    || p == PauseCheck || p == PauseUnlock || p == StopCheck || p.Clean?
  }

  /** A process goroutine that has not returned. */
  predicate Live(p: Point) {
    p == ProcSelect || p == ProcRead || p == ProcSend || p == ProcLock || (p.Clean? && p.byProcess)
  }

  /** A Pause that has set the state and owes its send. */
  predicate Sending(p: Point) {
    p == PauseUnlock || p == PauseSend
  }

  predicate Launching(p: Point) { p == PlayExec || p == PlayCommit }
  predicate Marking(p: Point) { p.Clean? && p.step == Mark }
  predicate AtWgDone(p: Point) { p.Clean? && p.step == WgDone }

  function Active(f: Fields): int {
    Bit(f.phase == Playing || f.phase == Paused)
  }

  /** What being at a point says about the fields. */
  predicate PointOk(f: Fields, p: Point) {
    && (p == PlayPipe || p == PlayStart || Launching(p) ==> f.phase == Initial)
    && (Live(p) ==> f.phase != Initial)
    && (p == StopWait ==> f.phase == Stopped && f.cleanups == 1)
    && (p.Clean? ==>
          match p.step
          case Test => f.phase != Initial
          case Kill => Active(f) == 1
          case SourceDone => Active(f) == 1
          case Mark => Active(f) == 1
          case WgDone => f.phase == Stopped
          case Release => f.phase == Stopped && f.cleanups == 1)
  }

  ghost predicate Inv(s: State) {
    && Count(s.at, Holding) == Bit(s.f.l)
    && (forall t :: t in s.at ==> PointOk(s.f, s.at[t]))
    && (s.f.cmd <==> s.f.phase != Initial)
    && (s.f.phase != Stopped ==> Count(s.at, Live) == Count(s.at, Sending) + Bit(s.f.phase == Playing))
    && s.f.started - s.f.done == Count(s.at, Launching) + Active(s.f) - Count(s.at, Marking)
    && s.f.wg == Active(s.f) + Count(s.at, AtWgDone)
    && s.f.cleanups == Bit(s.f.phase == Stopped) - Count(s.at, AtWgDone)
  }

  // ---- Every step keeps it ----

  /** The fields are as a goroutine at `p` may assume them. */
  predicate Expected(f: Fields, p: Point) {
    && PointOk(f, p)
    && (f.cmd <==> f.phase != Initial)
    && (Holding(p) ==> f.l)
    && (AtWgDone(p) ==> f.wg == 1 && f.cleanups == 0)
    && (Holding(p) && !AtWgDone(p) ==> f.cleanups == Bit(f.phase == Stopped))
  }

  /** The fields change in step with the counts that the move from `p` to `e.p` changes. */
  predicate Tally(f: Fields, p: Point, e: Effect)
    requires e.To?
  {
    && Bit(e.f.l) - Bit(f.l) == (Bit(Holding(e.p)) - Bit(Holding(p)))
    && PointOk(e.f, e.p)
    && (e.spawn ==> e.f.phase != Initial)
    && (e.f.cmd <==> e.f.phase != Initial)
    && (e.f.phase != Stopped ==> f.phase != Stopped)
    && (e.f.phase != Stopped ==>
          (Bit(Live(e.p)) - Bit(Live(p))) + Bit(e.spawn) == (Bit(Sending(e.p)) - Bit(Sending(p))) + Bit(e.f.phase == Playing) - Bit(f.phase == Playing))
    && (e.f.started - e.f.done) - (f.started - f.done) ==
       (Bit(Launching(e.p)) - Bit(Launching(p))) + Active(e.f) - Active(f) - (Bit(Marking(e.p)) - Bit(Marking(p)))
    && e.f.wg - f.wg == Active(e.f) - Active(f) + (Bit(AtWgDone(e.p)) - Bit(AtWgDone(p)))
    && e.f.cleanups - f.cleanups == Bit(e.f.phase == Stopped) - Bit(f.phase == Stopped) - (Bit(AtWgDone(e.p)) - Bit(AtWgDone(p)))
  }

  /** No step frees a free lock, uses a nil command or takes the WaitGroup below zero. */
  lemma StepTallies(f: Fields, p: Point, ok: bool, e: Effect)
    requires Expected(f, p) && e == Step(f, p, ok)
    ensures !e.Fatal? && (e.To? ==> Tally(f, p, e))
  {
    if p.Clean? {
      CleanTallies(f, p, ok, e);
    } else if InPlay(p) {
      PlayTallies(f, p, ok, e);
    } else if Holding(p) {
      CallTallies(f, p, ok, e);
    } else {
      FreeTallies(f, p, ok, e);
    }
  }

  lemma CleanTallies(f: Fields, p: Point, ok: bool, e: Effect)
    requires Expected(f, p) && p.Clean? && e == Step(f, p, ok)
    ensures e.To? && Tally(f, p, e)
  {
    if p.step == Mark || p.step == WgDone {
      CleanMarkTallies(f, p, ok, e);
    } else if p.step == Release {
      CleanReleaseTallies(f, p, ok, e);
    } else if p.step == Test {
      CleanTestTallies(f, p, ok, e);
    } else {
      CleanOtherTallies(f, p, ok, e);
    }
  }

  lemma CleanMarkTallies(f: Fields, p: Point, ok: bool, e: Effect)
    requires Expected(f, p) && p.Clean? && (p.step == Mark || p.step == WgDone) && e == Step(f, p, ok)
    ensures e.To? && Tally(f, p, e)
  {
  }

  lemma CleanReleaseTallies(f: Fields, p: Point, ok: bool, e: Effect)
    requires Expected(f, p) && p.Clean? && p.step == Release && e == Step(f, p, ok)
    ensures e.To? && Tally(f, p, e)
  {
  }

  lemma CleanTestTallies(f: Fields, p: Point, ok: bool, e: Effect)
    requires Expected(f, p) && p.Clean? && p.step == Test && e == Step(f, p, ok)
    ensures e.To? && Tally(f, p, e)
  {
  }

  lemma CleanOtherTallies(f: Fields, p: Point, ok: bool, e: Effect)
    requires Expected(f, p) && p.Clean? && (p.step == Kill || p.step == SourceDone) && e == Step(f, p, ok)
    ensures e.To? && Tally(f, p, e)
  {
  }

  predicate InPlay(p: Point) {
    p == PlaySwitch || p == PlayPipe || p == PlayStart || Launching(p) || p.PlayUnlock?
  }

  lemma PlayTallies(f: Fields, p: Point, ok: bool, e: Effect)
    requires Expected(f, p) && InPlay(p) && e == Step(f, p, ok)
    ensures e.To? && Tally(f, p, e)
  {
    if p == PlaySwitch {
      SwitchTallies(f, p, ok, e);
    } else if Launching(p) {
      LaunchTallies(f, p, ok, e);
    } else {
      OpenTallies(f, p, ok, e);
    }
  }

  lemma SwitchTallies(f: Fields, p: Point, ok: bool, e: Effect)
    requires Expected(f, p) && p == PlaySwitch && e == Step(f, p, ok)
    ensures e.To? && Tally(f, p, e)
  {
    assert e == match f.phase
                case Paused => To(f.(phase := Playing), PlayUnlock(false), true)
                case Initial => Stay(f, if ok then PlayPipe else PlayUnlock(true))
                case _ => Stay(f, PlayUnlock(true));
  }

  lemma LaunchTallies(f: Fields, p: Point, ok: bool, e: Effect)
    requires Expected(f, p) && Launching(p) && e == Step(f, p, ok)
    ensures e.To? && Tally(f, p, e)
  {
  }

  lemma OpenTallies(f: Fields, p: Point, ok: bool, e: Effect)
    requires Expected(f, p) && (p == PlayPipe || p == PlayStart || p.PlayUnlock?) && e == Step(f, p, ok)
    ensures e.To? && Tally(f, p, e)
  {
  }

  lemma CallTallies(f: Fields, p: Point, ok: bool, e: Effect)
    requires Expected(f, p) && (p == PauseCheck || p == PauseUnlock || p == StopCheck) && e == Step(f, p, ok)
    ensures e.To? && Tally(f, p, e)
  {
  }

  lemma FreeTallies(f: Fields, p: Point, ok: bool, e: Effect)
    requires Expected(f, p) && !Holding(p) && e == Step(f, p, ok)
    ensures !e.Fatal? && (e.To? ==> Tally(f, p, e))
  {
    if Live(p) {
      LoopTallies(f, p, ok, e);
    } else {
      CallerTallies(f, p, ok, e);
    }
  }

  lemma LoopTallies(f: Fields, p: Point, ok: bool, e: Effect)
    requires Expected(f, p) && !Holding(p) && Live(p) && e == Step(f, p, ok)
    ensures !e.Fatal? && (e.To? ==> Tally(f, p, e))
  {
  }

  lemma CallerTallies(f: Fields, p: Point, ok: bool, e: Effect)
    requires Expected(f, p) && !Holding(p) && !Live(p) && e == Step(f, p, ok)
    ensures !e.Fatal? && (e.To? ==> Tally(f, p, e))
  {
  }

  /** Outside the lock a step leaves the fields that other points depend on; inside it, others are outside. */
  lemma StepLeavesOthersOk(f: Fields, p: Point, ok: bool, q: Point)
    requires Expected(f, p) && PointOk(f, q) && Step(f, p, ok).To?
    requires Holding(p) ==> !Holding(q)
    ensures PointOk(Step(f, p, ok).f, q)
  {
  }

  /** The counts after `t` moves to `p`. */
  lemma MoveCounts(m: map<nat, Point>, t: nat, p: Point)
    ensures Count(m[t := p], Holding) == Count(m, Holding) + Bit(Holding(p)) - Bit(t in m && Holding(m[t]))
    ensures Count(m[t := p], Live) == Count(m, Live) + Bit(Live(p)) - Bit(t in m && Live(m[t]))
    ensures Count(m[t := p], Sending) == Count(m, Sending) + Bit(Sending(p)) - Bit(t in m && Sending(m[t]))
    ensures Count(m[t := p], Launching) == Count(m, Launching) + Bit(Launching(p)) - Bit(t in m && Launching(m[t]))
    ensures Count(m[t := p], Marking) == Count(m, Marking) + Bit(Marking(p)) - Bit(t in m && Marking(m[t]))
    ensures Count(m[t := p], AtWgDone) == Count(m, AtWgDone) + Bit(AtWgDone(p)) - Bit(t in m && AtWgDone(m[t]))
  {
    CountUpdate(m, t, p, Holding);
    CountUpdate(m, t, p, Live);
    CountUpdate(m, t, p, Sending);
    CountUpdate(m, t, p, Launching);
    CountUpdate(m, t, p, Marking);
    CountUpdate(m, t, p, AtWgDone);
  }

  /** The holder of l is alone at the points that hold it. */
  lemma SoleHolder(s: State, t: nat)
    requires Inv(s) && t in s.at && Holding(s.at[t])
    ensures s.f.l
    ensures forall u :: u in s.at && u != t ==> !Holding(s.at[u])
    ensures Count(s.at, AtWgDone) == Bit(AtWgDone(s.at[t]))
  {
    CountPositive(s.at, t, Holding);
    forall u | u in s.at && u != t
      ensures !Holding(s.at[u])
    {
      if Holding(s.at[u]) {
        CountTwo(s.at, t, u, Holding);
      }
    }
    if AtWgDone(s.at[t]) {
      assert Where(s.at, AtWgDone) == {t};
    } else {
      assert Where(s.at, AtWgDone) == {};
    }
  }

  lemma GoKeepsInv(s: State, t: nat, ok: bool, child: nat)
    requires Inv(s) && t in s.at && child !in s.at
    ensures !Step(s.f, s.at[t], ok).Fatal?
    ensures Step(s.f, s.at[t], ok).To? ==> Inv(After(s, t, Step(s.f, s.at[t], ok), child))
  {
    var p := s.at[t];
    assert PointOk(s.f, p);
    if Holding(p) {
      SoleHolder(s, t);
    }
    assert Expected(s.f, p);
    var e := Step(s.f, p, ok);
    StepTallies(s.f, p, ok, e);
    if e.To? {
      forall u | u in s.at && u != t
        ensures PointOk(e.f, s.at[u])
      {
        StepLeavesOthersOk(s.f, p, ok, s.at[u]);
      }
      TallyKeepsInv(s, t, e, child);
    }
  }

  lemma AfterCounts(s: State, t: nat, e: Effect, child: nat)
    requires t in s.at && child !in s.at && e.To?
    ensures var m, p := After(s, t, e, child).at, s.at[t];
      && Count(m, Holding) == Count(s.at, Holding) + Bit(Holding(e.p)) - Bit(Holding(p))
      && Count(m, Live) == Count(s.at, Live) + Bit(Live(e.p)) - Bit(Live(p)) + Bit(e.spawn)
      && Count(m, Sending) == Count(s.at, Sending) + Bit(Sending(e.p)) - Bit(Sending(p))
      && Count(m, Launching) == Count(s.at, Launching) + Bit(Launching(e.p)) - Bit(Launching(p))
      && Count(m, Marking) == Count(s.at, Marking) + Bit(Marking(e.p)) - Bit(Marking(p))
      && Count(m, AtWgDone) == Count(s.at, AtWgDone) + Bit(AtWgDone(e.p)) - Bit(AtWgDone(p))
  {
    MoveCounts(s.at, t, e.p);
    if e.spawn {
      MoveCounts(s.at[t := e.p], child, ProcSelect);
    }
  }

  lemma AfterPointsOk(s: State, t: nat, e: Effect, child: nat)
    requires t in s.at && e.To? && PointOk(e.f, e.p) && (e.spawn ==> e.f.phase != Initial)
    requires forall u :: u in s.at && u != t ==> PointOk(e.f, s.at[u])
    ensures forall u :: u in After(s, t, e, child).at ==> PointOk(e.f, After(s, t, e, child).at[u])
  {
  }

  lemma TallyKeepsInv(s: State, t: nat, e: Effect, child: nat)
    requires Inv(s) && t in s.at && child !in s.at && e.To?
    requires Tally(s.f, s.at[t], e)
    requires forall u :: u in s.at && u != t ==> PointOk(e.f, s.at[u])
    ensures Inv(After(s, t, e, child))
  {
    AfterPointsOk(s, t, e, child);
    AfterCounts(s, t, e, child);
  }

  lemma CallCount(m: map<nat, Point>, t: nat, p: Point, q: Point -> bool)
    requires (t in m ==> m[t] == Idle) && !q(Idle) && !q(p)
    ensures Count(m[t := p], q) == Count(m, q)
  {
    CountUpdate(m, t, p, q);
  }

  lemma CallKeepsInv(s: State, t: nat, p: Point)
    requires Inv(s) && (t in s.at ==> s.at[t] == Idle)
    requires p == PlayLock || p == PauseLock || p == StopLock
    ensures Inv(s.(at := s.at[t := p]))
  {
    CallCount(s.at, t, p, Holding);
    CallCount(s.at, t, p, Live);
    CallCount(s.at, t, p, Sending);
    CallCount(s.at, t, p, Launching);
    CallCount(s.at, t, p, Marking);
    CallCount(s.at, t, p, AtWgDone);
  }

  lemma MeetCount(m: map<nat, Point>, t: nat, p: nat, m': map<nat, Point>, q: Point -> bool)
    requires t in m && p in m && m[t] == PauseSend && m[p] == ProcSelect && m' == m[t := Idle][p := Gone]
    ensures Count(m', q) == Count(m, q) + Bit(q(Idle)) - Bit(q(PauseSend)) + Bit(q(Gone)) - Bit(q(ProcSelect))
  {
    CountUpdate(m, t, Idle, q);
    CountUpdate(m[t := Idle], p, Gone, q);
  }

  lemma MeetCounts(m: map<nat, Point>, t: nat, p: nat, m': map<nat, Point>)
    requires t in m && p in m && m[t] == PauseSend && m[p] == ProcSelect && m' == m[t := Idle][p := Gone]
    ensures Count(m', Live) == Count(m, Live) - 1 && Count(m', Sending) == Count(m, Sending) - 1
    ensures Count(m', Holding) == Count(m, Holding)
    ensures Count(m', Launching) == Count(m, Launching)
    ensures Count(m', Marking) == Count(m, Marking)
    ensures Count(m', AtWgDone) == Count(m, AtWgDone)
  {
    MeetCount(m, t, p, m', Live);
    MeetCount(m, t, p, m', Sending);
    MeetCount(m, t, p, m', Holding);
    MeetCount(m, t, p, m', Launching);
    MeetCount(m, t, p, m', Marking);
    MeetCount(m, t, p, m', AtWgDone);
  }

  lemma MeetKeepsInv(s: State, s': State, t: nat, p: nat)
    requires Inv(s) && t in s.at && p in s.at && s.at[t] == PauseSend && s.at[p] == ProcSelect
    requires s'.f == s.f && s'.at == s.at[t := Idle][p := Gone]
    ensures Inv(s')
  {
    MeetCounts(s.at, t, p, s'.at);
    forall u | u in s'.at
      ensures PointOk(s'.f, s'.at[u])
    {
      assert s'.at[u] == Idle || s'.at[u] == Gone || (u in s.at && s'.at[u] == s.at[u]);
    }
  }

  lemma StepKeepsInv(s: State, a: Action)
    requires Inv(s) && Enabled(s, a)
    ensures Inv(Apply(s, a))
  {
    match a {
      case CallPlay(t) => CallKeepsInv(s, t, PlayLock);
      case CallPause(t) => CallKeepsInv(s, t, PauseLock);
      case CallStop(t) => CallKeepsInv(s, t, StopLock);
      case Go(t, ok, child) => GoKeepsInv(s, t, ok, child);
      case Meet(t, p) => MeetKeepsInv(s, Apply(s, a), t, p);
    }
  }

  lemma {:induction false} BehaviorKeepsInv(run: seq<State>, i: nat)
    requires Behavior(run) && i < |run|
    ensures Inv(run[i])
  {
    if i == 0 {
      assert forall p: Point -> bool :: Where(run[0].at, p) == {};
    } else {
      BehaviorKeepsInv(run, i - 1);
      assert Next(run[i - 1], run[i - 1 + 1]);
      var a :| Enabled(run[i - 1], a) && run[i] == Apply(run[i - 1], a);
      StepKeepsInv(run[i - 1], a);
    }
  }

  // ---- What callers can rely on, in every state of every run ----

  /** Until Stopped, each live process goroutine is the player or is owed a pause. */
  lemma Conservation(run: seq<State>, i: nat)
    requires Behavior(run) && i < |run|
    requires run[i].f.phase != Stopped
    ensures Count(run[i].at, Live) == Count(run[i].at, Sending) + (if run[i].f.phase == Playing then 1 else 0)
  {
    BehaviorKeepsInv(run, i);
  }

  /** With the lock free, the WaitGroup and the open source count are both 1 exactly while playing or paused. */
  lemma BalancedWhenFree(run: seq<State>, i: nat)
    requires Behavior(run) && i < |run|
    requires !run[i].f.l
    ensures run[i].f.wg == run[i].f.started - run[i].f.done
    ensures run[i].f.wg == if run[i].f.phase == Playing || run[i].f.phase == Paused then 1 else 0
  {
    var s := run[i];
    BehaviorKeepsInv(run, i);
    CountMonotone(s.at, Launching, Holding);
    CountMonotone(s.at, Marking, Holding);
    CountMonotone(s.at, AtWgDone, Holding);
  }

  /** No goroutine ever frees a free lock, uses a nil command or takes the WaitGroup below zero. */
  lemma NeverFatal(run: seq<State>, i: nat, t: nat, ok: bool)
    requires Behavior(run) && i < |run| && t in run[i].at
    ensures !Step(run[i].f, run[i].at[t], ok).Fatal?
  {
    var s := run[i];
    BehaviorKeepsInv(run, i);
    if Holding(s.at[t]) {
      SoleHolder(s, t);
    }
    StepTallies(s.f, s.at[t], ok, Step(s.f, s.at[t], ok));
  }

  /** The cleanup body runs at most once, and a Stop that waits for the stream never has to. */
  lemma CleanupOnce(run: seq<State>, i: nat, t: nat)
    requires Behavior(run) && i < |run|
    ensures run[i].f.cleanups <= 1
    ensures t in run[i].at && run[i].at[t] == StopWait ==> run[i].f.phase == Stopped && run[i].f.wg == 0
  {
    BehaviorKeepsInv(run, i);
  }

  lemma StepWhenStopped(f: Fields, p: Point, ok: bool)
    requires f.phase == Stopped && PointOk(f, p) && Step(f, p, ok).To?
    ensures Step(f, p, ok).f.phase == Stopped && !Step(f, p, ok).spawn
    ensures Live(Step(f, p, ok).p) ==> Live(p)
  {
  }

  lemma GoKeepsStopped(s: State, t: nat, ok: bool, child: nat)
    requires Inv(s) && Enabled(s, Go(t, ok, child)) && s.f.phase == Stopped
    ensures Apply(s, Go(t, ok, child)).f.phase == Stopped
    ensures Count(Apply(s, Go(t, ok, child)).at, Live) <= Count(s.at, Live)
  {
    assert PointOk(s.f, s.at[t]);
    StepWhenStopped(s.f, s.at[t], ok);
    CountUpdate(s.at, t, Step(s.f, s.at[t], ok).p, Live);
  }

  /** After Stopped no step changes the state or starts a process goroutine. */
  lemma StepKeepsStopped(s: State, a: Action)
    requires Inv(s) && Enabled(s, a) && s.f.phase == Stopped
    ensures Apply(s, a).f.phase == Stopped
    ensures Count(Apply(s, a).at, Live) <= Count(s.at, Live)
  {
    match a {
      case CallPlay(t) => CountUpdate(s.at, t, PlayLock, Live);
      case CallPause(t) => CountUpdate(s.at, t, PauseLock, Live);
      case CallStop(t) => CountUpdate(s.at, t, StopLock, Live);
      case Go(t, ok, child) => GoKeepsStopped(s, t, ok, child);
      case Meet(t, p) =>
        CountUpdate(s.at, t, Idle, Live);
        CountUpdate(s.at[t := Idle], p, Gone, Live);
    }
  }

  lemma RunKeepsStopped(run: seq<State>, j: nat)
    requires Behavior(run) && j + 1 < |run|
    requires run[j].f.phase == Stopped
    ensures run[j + 1].f.phase == Stopped
    ensures Count(run[j + 1].at, Live) <= Count(run[j].at, Live)
  {
    BehaviorKeepsInv(run, j);
    assert Next(run[j], run[j + 1]);
    var a :| Enabled(run[j], a) && run[j + 1] == Apply(run[j], a);
    StepKeepsStopped(run[j], a);
  }

  /** Stopped is final, and no process goroutine starts after it. */
  lemma {:induction false} StoppedIsFinal(run: seq<State>, i: nat, j: nat)
    requires Behavior(run) && i <= j < |run|
    requires run[i].f.phase == Stopped
    ensures run[j].f.phase == Stopped
    ensures Count(run[j].at, Live) <= Count(run[i].at, Live)
  {
    if i < j {
      StoppedIsFinal(run, i, j - 1);
      RunKeepsStopped(run, j - 1);
    }
  }

  // ---- Pauses that wait for ever ----

  /** A process goroutine that may still receive a pause. */
  predicate Receptive(p: Point) {
    p == ProcSelect || p == ProcRead || p == ProcSend
  }

  ghost predicate CanReceive(s: State) {
    exists p :: p in s.at && Receptive(s.at[p])
  }

  ghost predicate Pending(s: State, t: nat) {
    t in s.at && s.at[t] == PauseSend
  }

  /** Some states that follow one another from `s`. */
  ghost predicate Continues(s: State, more: seq<State>) {
    |more| > 0 && more[0] == s && forall i :: 0 <= i < |more| - 1 ==> Next(more[i], more[i + 1])
  }

  /** In some continuation the call of `t` returns. */
  ghost predicate MayReturn(s: State, t: nat) {
    exists more: seq<State> :: Continues(s, more) && Returned(more[|more| - 1], t)
  }

  predicate Returned(s: State, t: nat) {
    t in s.at && s.at[t] == Idle
  }

  /** A goroutine that holds the lock and goes on to stop the stream, or is past that. */
  predicate Closing(p: Point) {
    p == StopCheck || p.Clean?
  }

  ghost predicate SomeClosing(s: State) {
    exists h :: h in s.at && Closing(s.at[h])
  }

  /** No process will receive, and none will be started. */
  ghost predicate Doomed(s: State) {
    !CanReceive(s) && (s.f.phase == Stopped || SomeClosing(s))
  }

  lemma StoppedAdmitsNone(f: Fields, p: Point, ok: bool)
    requires f.phase == Stopped && PointOk(f, p) && Step(f, p, ok).To? && !Receptive(p)
    ensures !Receptive(Step(f, p, ok).p) && !Step(f, p, ok).spawn && Step(f, p, ok).f.phase == Stopped
  {
  }

  /** While the lock is held, only its holder and the receptive processes can move. */
  lemma OnlyHolderMoves(f: Fields, p: Point, ok: bool)
    requires f.l && f.phase != Stopped && PointOk(f, p) && Step(f, p, ok).To? && !Receptive(p)
    ensures Holding(p)
  {
  }

  lemma ClosingAdmitsNone(f: Fields, p: Point, ok: bool)
    requires f.phase != Initial
    requires Step(f, p, ok).To? && Closing(p) && PointOk(f, p)
    ensures !Receptive(Step(f, p, ok).p) && !Step(f, p, ok).spawn
    ensures Step(f, p, ok).f.phase == Stopped || Closing(Step(f, p, ok).p)
  {
  }

  lemma GoKeepsDoomed(s: State, t: nat, ok: bool, child: nat)
    requires Inv(s) && Enabled(s, Go(t, ok, child)) && Doomed(s) && s.f.phase != Initial
    ensures Doomed(Apply(s, Go(t, ok, child)))
  {
    var s', p := Apply(s, Go(t, ok, child)), s.at[t];
    assert PointOk(s.f, p) && !Receptive(p);
    if s.f.phase == Stopped {
      StoppedAdmitsNone(s.f, p, ok);
    } else {
      var h :| h in s.at && Closing(s.at[h]);
      SoleHolder(s, h);
      OnlyHolderMoves(s.f, p, ok);
      ClosingAdmitsNone(s.f, p, ok);
      assert s'.f.phase == Stopped || Closing(s'.at[t]);
    }
  }

  /** A pause is owed only by a stream that has started. */
  lemma PendingMeansStarted(s: State, t: nat)
    requires Inv(s) && Pending(s, t)
    ensures s.f.phase != Initial
  {
    CountPositive(s.at, t, Sending);
    if s.f.phase == Initial {
      var u := CountWitness(s.at, Live);
      assert false;
    }
  }

  lemma CallKeepsDoomed(s: State, t: nat, p: Point)
    requires Doomed(s) && (t in s.at ==> s.at[t] == Idle) && !Receptive(p)
    ensures Doomed(s.(at := s.at[t := p]))
  {
    var s' := s.(at := s.at[t := p]);
    if h :| h in s.at && Closing(s.at[h]) {
      assert Closing(s'.at[h]);
    }
  }

  lemma StepKeepsDoomed(s: State, a: Action)
    requires Inv(s) && Enabled(s, a) && Doomed(s) && s.f.phase != Initial
    ensures Doomed(Apply(s, a))
  {
    match a
    case CallPlay(u) => CallKeepsDoomed(s, u, PlayLock);
    case CallPause(u) => CallKeepsDoomed(s, u, PauseLock);
    case CallStop(u) => CallKeepsDoomed(s, u, StopLock);
    case Go(u, ok, child) => GoKeepsDoomed(s, u, ok, child);
    case Meet(u, p) => assert false;
  }

  /** A pending Pause waits until a process receives. */
  lemma StepKeepsPending(s: State, a: Action, t: nat)
    requires Enabled(s, a) && !CanReceive(s) && Pending(s, t)
    ensures Pending(Apply(s, a), t)
  {
  }

  lemma {:induction false} StaysPending(s: State, more: seq<State>, i: nat, t: nat)
    requires Inv(s) && Doomed(s) && Pending(s, t) && Continues(s, more) && i < |more|
    ensures Inv(more[i]) && Doomed(more[i]) && Pending(more[i], t)
  {
    if i > 0 {
      var j := i - 1;
      StaysPending(s, more, j, t);
      assert Next(more[j], more[j + 1]);
      var a :| Enabled(more[j], a) && more[j + 1] == Apply(more[j], a);
      StepKeepsInv(more[j], a);
      PendingMeansStarted(more[j], t);
      StepKeepsDoomed(more[j], a);
      StepKeepsPending(more[j], a, t);
    }
  }

  lemma {:induction false} Unused(names: set<nat>) returns (n: nat)
    ensures forall x :: x in names ==> x < n
  {
    if names == {} {
      n := 0;
    } else {
      var x :| x in names;
      var m := Unused(names - {x});
      n := if x < m then m else x + 1;
      assert forall y :: y in names ==> y == x || y in names - {x};
    }
  }

  /** One step, as the first of a continuation. */
  lemma First(s: State, a: Action, t: nat)
    requires Enabled(s, a) && MayReturn(Apply(s, a), t)
    ensures MayReturn(s, t)
  {
    var s' := Apply(s, a);
    var more: seq<State> :| Continues(s', more) && Returned(more[|more| - 1], t);
    var all := [s] + more;
    assert Next(s, s');
    assert forall i :: 0 <= i < |all| - 1 ==> Next(all[i], all[i + 1]);
    assert Continues(s, all) && all[|all| - 1] == more[|more| - 1];
  }

  /** A step of a goroutine that starts no other. */
  lemma GoFirst(s: State, p: nat, ok: bool, f: Fields, q: Point, t: nat)
    requires p in s.at && Step(s.f, s.at[p], ok) == Stay(f, q) && MayReturn(State(f, s.at[p := q]), t)
    ensures MayReturn(s, t)
  {
    var child := Unused(s.at.Keys);
    assert Apply(s, Go(p, ok, child)) == State(f, s.at[p := q]);
    First(s, Go(p, ok, child), t);
  }

  lemma MeetNow(s: State, p: nat, t: nat)
    requires Pending(s, t) && p in s.at && s.at[p] == ProcSelect
    ensures MayReturn(s, t)
  {
    var all := [s, Apply(s, Meet(t, p))];
    assert Next(all[0], all[1]);
    assert Continues(s, all);
  }

  /** A goroutine that may receive gets to the receive. */
  lemma ReceptiveMeets(s: State, p: nat, t: nat)
    requires Pending(s, t) && p in s.at && Receptive(s.at[p])
    ensures MayReturn(s, t)
  {
    var selecting := s.(at := s.at[p := ProcSelect]);
    if s.at[p] == ProcSelect {
      MeetNow(s, p, t);
    } else if s.at[p] == ProcSend {
      MeetNow(selecting, p, t);
      GoFirst(s, p, true, s.f, ProcSelect, t);
    } else {
      MeetNow(selecting, p, t);
      var sending := s.(at := s.at[p := ProcSend]);
      assert sending.(at := sending.at[p := ProcSelect]) == selecting;
      GoFirst(sending, p, true, s.f, ProcSelect, t);
      GoFirst(s, p, true, s.f, ProcSend, t);
    }
  }

  /** A Play on a paused stream starts a process that receives. */
  lemma SwitchMeets(s: State, u: nat, t: nat)
    requires Pending(s, t) && u in s.at && s.at[u] == PlaySwitch && s.f.phase == Paused
    ensures MayReturn(s, t)
  {
    var child := Unused(s.at.Keys);
    var s' := Apply(s, Go(u, true, child));
    assert s'.at[child] == ProcSelect && Pending(s', t);
    MeetNow(s', child, t);
    First(s, Go(u, true, child), t);
  }

  lemma PausedMeets(s: State, t: nat)
    requires Pending(s, t) && s.f.phase == Paused && !s.f.l
    ensures MayReturn(s, t)
  {
    var u := Unused(s.at.Keys);
    var s1 := Apply(s, CallPlay(u));
    var s2 := State(s.f.(l := true), s1.at[u := PlaySwitch]);
    SwitchMeets(s2, u, t);
    GoFirst(s1, u, true, s.f.(l := true), PlaySwitch, t);
    First(s, CallPlay(u), t);
  }

  /** One more Pause makes a playing stream a paused one. */
  lemma UnlockMeets(s: State, u: nat, q: Point, t: nat)
    requires Pending(s, t) && u in s.at && u != t && s.f.l && Step(s.f, s.at[u], true) == Stay(s.f.(l := false), q)
    requires s.f.phase == Paused || s.f.phase == Playing
    ensures MayReturn(s, t)
  {
    var s' := State(s.f.(l := false), s.at[u := q]);
    if s.f.phase == Paused {
      PausedMeets(s', t);
    } else {
      PlayingMeets(s', t);
    }
    GoFirst(s, u, true, s.f.(l := false), q, t);
  }

  lemma PlayingMeets(s: State, t: nat)
    requires Pending(s, t) && s.f.phase == Playing && !s.f.l
    ensures MayReturn(s, t)
  {
    var u := Unused(s.at.Keys);
    var s1 := Apply(s, CallPause(u));
    var f := s.f.(l := true);
    var s2 := State(f, s1.at[u := PauseCheck]);
    var s3 := State(f.(phase := Paused), s2.at[u := PauseUnlock]);
    var s4 := State(s.f.(phase := Paused), s3.at[u := PauseSend]);
    PausedMeets(s4, t);
    GoFirst(s3, u, true, s.f.(phase := Paused), PauseSend, t);
    GoFirst(s2, u, true, f.(phase := Paused), PauseUnlock, t);
    GoFirst(s1, u, true, f, PauseCheck, t);
    First(s, CallPause(u), t);
  }

  /** A caller of Play or Pause that holds the lock releases it, or starts a process. */
  lemma HolderMeets(s: State, h: nat, t: nat)
    requires Pending(s, t) && h in s.at && s.f.l && (s.f.phase == Paused || s.f.phase == Playing)
    requires s.at[h] == PlaySwitch || s.at[h].PlayUnlock? || s.at[h] == PauseCheck || s.at[h] == PauseUnlock
    ensures MayReturn(s, t)
  {
    if s.at[h].PlayUnlock? {
      UnlockMeets(s, h, Idle, t);
    } else if s.at[h] == PauseUnlock {
      UnlockMeets(s, h, PauseSend, t);
    } else if s.at[h] == PauseCheck && s.f.phase == Paused {
      UnlockMeets(s, h, Idle, t);
    } else if s.at[h] == PauseCheck {
      var f := s.f.(phase := Paused);
      UnlockMeets(State(f, s.at[h := PauseUnlock]), h, PauseSend, t);
      GoFirst(s, h, true, f, PauseUnlock, t);
    } else if s.f.phase == Paused {
      SwitchMeets(s, h, t);
    } else {
      UnlockMeets(State(s.f, s.at[h := PlayUnlock(true)]), h, Idle, t);
      GoFirst(s, h, true, s.f, PlayUnlock(true), t);
    }
  }

  /** Before the stop, a pending Pause can return as long as nobody is about to stop the stream. */
  lemma OpenMeets(s: State, t: nat)
    requires Inv(s) && Pending(s, t) && s.f.phase != Stopped && !SomeClosing(s)
    ensures MayReturn(s, t)
  {
    PendingMeansStarted(s, t);
    if s.f.l {
      var h := CountWitness(s.at, Holding);
      assert PointOk(s.f, s.at[h]) && !Closing(s.at[h]);
      HolderMeets(s, h, t);
    } else if s.f.phase == Paused {
      PausedMeets(s, t);
    } else {
      PlayingMeets(s, t);
    }
  }

  /**
   * A Pause that waits for its send can still return exactly if some process goroutine is in its
   * loop, or the stream has not stopped and nobody holds the lock to stop it; otherwise it waits in
   * every continuation.
   */
  lemma PauseReturns(run: seq<State>, i: nat, t: nat)
    requires Behavior(run) && i < |run| && Pending(run[i], t)
    ensures MayReturn(run[i], t) <==> CanReceive(run[i]) || (run[i].f.phase != Stopped && !SomeClosing(run[i]))
  {
    var s := run[i];
    BehaviorKeepsInv(run, i);
    if p :| p in s.at && Receptive(s.at[p]) {
      ReceptiveMeets(s, p, t);
    } else if s.f.phase != Stopped && !SomeClosing(s) {
      OpenMeets(s, t);
    } else {
      forall more | Continues(s, more)
        ensures Pending(more[|more| - 1], t)
      {
        StaysPending(s, more, |more| - 1, t);
      }
    }
  }

  // ---- A run that ends so ----

  lemma Extended(run: seq<State>, a: Action) returns (longer: seq<State>)
    requires Behavior(run) && Enabled(run[|run| - 1], a)
    ensures Behavior(longer) && longer[|longer| - 1] == Apply(run[|run| - 1], a)
  {
    longer := run + [Apply(run[|run| - 1], a)];
    assert forall i :: 0 <= i < |run| - 1 ==> Next(run[i], run[i + 1]);
    assert Next(run[|run| - 1], longer[|run|]);
  }

  /** A step of a goroutine other than 2, which starts no other. */
  lemma Goes(run: seq<State>, t: nat, ok: bool, f: Fields, q: Point) returns (longer: seq<State>)
    requires Behavior(run) && t in run[|run| - 1].at && 2 !in run[|run| - 1].at
    requires Step(run[|run| - 1].f, run[|run| - 1].at[t], ok) == Stay(f, q)
    ensures Behavior(longer) && longer[|longer| - 1] == State(f, run[|run| - 1].at[t := q])
  {
    longer := Extended(run, Go(t, ok, 2));
  }

  /** Caller 0 plays, up to the start of the process. */
  lemma OpenRun() returns (run: seq<State>)
    ensures Behavior(run)
    ensures run[|run| - 1] == State(Fields(Initial, true, false, 0, 1, 0, 0), map[0 := PlayCommit])
  {
    run := [State(Fields(Initial, false, false, 0, 0, 0, 0), map[])];
    var f := run[0].f;
    run := Extended(run, CallPlay(0));
    run := Goes(run, 0, true, f.(l := true), PlaySwitch);
    run := Goes(run, 0, true, f.(l := true), PlayPipe);
    run := Goes(run, 0, true, f.(l := true), PlayStart);
    run := Goes(run, 0, true, f.(l := true, started := 1), PlayExec);
    run := Goes(run, 0, true, f.(l := true, started := 1), PlayCommit);
  }

  /** And starts process 1. */
  lemma StartRun() returns (run: seq<State>)
    ensures Behavior(run)
    ensures run[|run| - 1] == State(Fields(Playing, true, true, 1, 1, 0, 0), map[0 := PlayUnlock(false), 1 := ProcSelect])
  {
    run := OpenRun();
    run := Extended(run, Go(0, true, 1));
  }

  /** Which fails its read. */
  lemma PlayRun() returns (run: seq<State>)
    ensures Behavior(run)
    ensures run[|run| - 1] == State(Fields(Playing, false, true, 1, 1, 0, 0), map[0 := Idle, 1 := ProcLock])
  {
    run := StartRun();
    var f := Fields(Playing, false, true, 1, 1, 0, 0);
    run := Goes(run, 0, true, f, Idle);
    run := Goes(run, 1, true, f, ProcRead);
    run := Goes(run, 1, false, f, ProcLock);
  }

  /** Then the caller pauses. */
  lemma PauseRun() returns (run: seq<State>)
    ensures Behavior(run)
    ensures run[|run| - 1] == State(Fields(Paused, false, true, 1, 1, 0, 0), map[0 := PauseSend, 1 := ProcLock])
  {
    run := PlayRun();
    var f := run[|run| - 1].f;
    run := Extended(run, CallPause(0));
    assert run[|run| - 1] == State(f, map[0 := PauseLock, 1 := ProcLock]);
    run := Goes(run, 0, true, f.(l := true), PauseCheck);
    run := Goes(run, 0, true, f.(l := true, phase := Paused), PauseUnlock);
    run := Goes(run, 0, true, f.(phase := Paused), PauseSend);
  }

  /** And the process, past its loop, cleans up and goes. */
  lemma CleanRun() returns (run: seq<State>)
    ensures Behavior(run)
    ensures run[|run| - 1] == State(Fields(Stopped, false, true, 0, 1, 1, 1), map[0 := PauseSend, 1 := Gone])
  {
    run := PauseRun();
    var f := run[|run| - 1].f.(l := true);
    run := Goes(run, 1, true, f, Clean(Test, true));
    run := Goes(run, 1, true, f, Clean(Kill, true));
    run := Goes(run, 1, true, f, Clean(SourceDone, true));
    run := Goes(run, 1, true, f.(done := 1), Clean(Mark, true));
    run := Goes(run, 1, true, f.(done := 1, phase := Stopped), Clean(WgDone, true));
    f := f.(done := 1, phase := Stopped, wg := 0, cleanups := 1);
    run := Goes(run, 1, true, f, Clean(Release, true));
    run := Goes(run, 1, true, f.(l := false), Gone);
  }

  /** So a Pause can come to wait for ever. */
  lemma PauseCanHang() returns (run: seq<State>)
    ensures Behavior(run)
    ensures run[|run| - 1].f.phase == Stopped && Pending(run[|run| - 1], 0) && !MayReturn(run[|run| - 1], 0)
  {
    run := CleanRun();
    PauseReturns(run, |run| - 1, 0);
  }
}
