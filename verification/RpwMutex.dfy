/** The reader-preferred lock: two mutexes and a reader count, one atomic step at a time (gumble/rpwmutex.go). */
module RpwMutex {
  import opened Counting

  /** Where a thread is in Lock, Unlock, RLock or RUnlock; each point names the next step. */
  datatype Point =
    | Idle
    | LockW                     // Lock: w.Lock
    | Writing                   // inside the writer section
    | RLockR                    // RLock: r.Lock
    | Increment                 // n++
    | TestFirst                 // n == 1?
    | TakeW                     // w.Lock, holding r
    | RUnlockR                  // r.Unlock
    | Reading                   // inside the reader section
    | ULockR                    // RUnlock: r.Lock
    | Decrement                 // n--
    | TestLast                  // n == 0?
    | GiveW                     // w.Unlock
    | UUnlockR                  // r.Unlock

  datatype State = State(w: bool, r: bool, n: int, at: map<nat, Point>)

  datatype Effect = Blocked | Fatal | To(state: State)

  ghost function Move(s: State, t: nat, p: Point): State {
    s.(at := s.at[t := p])
  }

  /** The next step of a thread that is inside a call or a section; unlocking a free mutex is fatal. */
  ghost function Advance(s: State, t: nat): Effect
    requires t in s.at && s.at[t] != Idle
  {
    match s.at[t]
    case LockW => if s.w then Blocked else To(Move(s, t, Writing).(w := true))
    case Writing => if !s.w then Fatal else To(Move(s, t, Idle).(w := false))
    case RLockR => if s.r then Blocked else To(Move(s, t, Increment).(r := true))
    case Increment => To(Move(s, t, TestFirst).(n := s.n + 1))
    case TestFirst => To(Move(s, t, if s.n == 1 then TakeW else RUnlockR))
    case TakeW => if s.w then Blocked else To(Move(s, t, RUnlockR).(w := true))
    case RUnlockR => if !s.r then Fatal else To(Move(s, t, Reading).(r := false))
    case Reading => To(Move(s, t, ULockR))
    case ULockR => if s.r then Blocked else To(Move(s, t, Decrement).(r := true))
    case Decrement => To(Move(s, t, TestLast).(n := s.n - 1))
    case TestLast => To(Move(s, t, if s.n == 0 then GiveW else UUnlockR))
    case GiveW => if !s.w then Fatal else To(Move(s, t, UUnlockR).(w := false))
    case UUnlockR => if !s.r then Fatal else To(Move(s, t, Idle).(r := false))
  }

  datatype Action = CallLock(t: nat) | CallRLock(t: nat) | Go(t: nat)

  ghost predicate Enabled(s: State, a: Action) {
    match a
    case Go(t) => t in s.at && s.at[t] != Idle && Advance(s, t).To?
    case _ => a.t in s.at ==> s.at[a.t] == Idle
  }

  ghost function Apply(s: State, a: Action): State
    requires Enabled(s, a)
  {
    match a
    case CallLock(t) => Move(s, t, LockW)
    case CallRLock(t) => Move(s, t, RLockR)
    case Go(t) => Advance(s, t).state
  }

  ghost predicate Init(s: State) {
    !s.w && !s.r && s.n == 0 && s.at == map[]
  }

  ghost predicate Next(s: State, s': State) {
    exists a :: Enabled(s, a) && s' == Apply(s, a)
  }

  ghost predicate Behavior(run: seq<State>) {
    |run| > 0 && Init(run[0]) && forall i :: 0 <= i < |run| - 1 ==> Next(run[i], run[i + 1])
  }

  // ---- The invariant, in terms of counts ----

  predicate HoldsR(p: Point) {
    || p == Increment || p == TestFirst || p == TakeW || p == RUnlockR
    || p == Decrement || p == TestLast || p == GiveW || p == UUnlockR
  }

  /** Between the increment and the decrement of n. */
  predicate Counted(p: Point) {
    || p == TestFirst || p == TakeW || p == RUnlockR || p == Reading
    || p == ULockR || p == Decrement
  }

  predicate IsWriting(p: Point) { p == Writing }
  predicate IsTestFirst(p: Point) { p == TestFirst }
  predicate IsTakeW(p: Point) { p == TakeW }
  predicate IsLeaving(p: Point) { p == TestLast || p == GiveW }
  predicate IsGiveW(p: Point) { p == GiveW }

  /** The readers as a group own w. */
  ghost predicate GroupOwnsW(s: State) {
    || (s.n >= 1 && Count(s.at, IsTakeW) == 0 && !(s.n == 1 && Count(s.at, IsTestFirst) == 1))
    || (s.n == 0 && Count(s.at, IsLeaving) == 1)
  }

  ghost predicate Inv(s: State) {
    && Count(s.at, HoldsR) == (if s.r then 1 else 0)
    && Count(s.at, Counted) == s.n
    && Count(s.at, IsWriting) + (if GroupOwnsW(s) then 1 else 0) == (if s.w then 1 else 0)
    && (Count(s.at, IsTakeW) == 1 ==> s.n == 1)
    && (Count(s.at, IsGiveW) == 1 ==> s.n == 0)
  }

  /** At most one thread holds r, so at most one is at each of the points that hold it. */
  lemma HoldersAtMostOne(s: State)
    requires Inv(s)
    ensures Count(s.at, IsTakeW) + Count(s.at, IsTestFirst) + Count(s.at, IsLeaving) <= 1
    ensures Count(s.at, IsGiveW) <= Count(s.at, IsLeaving)
    ensures forall t :: t in s.at && HoldsR(s.at[t]) ==>
      && Count(s.at, IsTakeW) == (if IsTakeW(s.at[t]) then 1 else 0)
      && Count(s.at, IsTestFirst) == (if IsTestFirst(s.at[t]) then 1 else 0)
      && Count(s.at, IsLeaving) == (if IsLeaving(s.at[t]) then 1 else 0)
      && Count(s.at, IsGiveW) == (if IsGiveW(s.at[t]) then 1 else 0)
  {
    CountMonotone(s.at, IsTakeW, HoldsR);
    CountMonotone(s.at, IsTestFirst, HoldsR);
    CountMonotone(s.at, IsLeaving, HoldsR);
    CountMonotone(s.at, IsGiveW, IsLeaving);
    forall t | t in s.at && HoldsR(s.at[t])
      ensures Count(s.at, IsTakeW) == (if IsTakeW(s.at[t]) then 1 else 0)
      ensures Count(s.at, IsTestFirst) == (if IsTestFirst(s.at[t]) then 1 else 0)
      ensures Count(s.at, IsLeaving) == (if IsLeaving(s.at[t]) then 1 else 0)
      ensures Count(s.at, IsGiveW) == (if IsGiveW(s.at[t]) then 1 else 0)
    {
      CountPositive(s.at, t, HoldsR);
      OnlyHolder(s, t, IsTakeW);
      OnlyHolder(s, t, IsTestFirst);
      OnlyHolder(s, t, IsLeaving);
      OnlyHolder(s, t, IsGiveW);
    }
    if Count(s.at, HoldsR) == 1 {
      var t := CountWitness(s.at, HoldsR);
    }
  }

  lemma OnlyHolder(s: State, t: nat, p: Point -> bool)
    requires Count(s.at, HoldsR) == 1 && t in s.at && HoldsR(s.at[t])
    requires forall x :: p(x) ==> HoldsR(x)
    ensures Count(s.at, p) == if p(s.at[t]) then 1 else 0
  {
    CountMonotone(s.at, p, HoldsR);
    if p(s.at[t]) {
      CountPositive(s.at, t, p);
    } else if Count(s.at, p) >= 1 {
      var u := CountWitness(s.at, p);
      CountTwo(s.at, t, u, HoldsR);
    }
  }

  /** The counts after thread `t` moves to `p`. */
  lemma MoveCounts(s: State, t: nat, p: Point)
    ensures Count(s.at[t := p], HoldsR) == Count(s.at, HoldsR) + Bit(HoldsR(p)) - Bit(t in s.at && HoldsR(s.at[t]))
    ensures Count(s.at[t := p], Counted) == Count(s.at, Counted) + Bit(Counted(p)) - Bit(t in s.at && Counted(s.at[t]))
    ensures Count(s.at[t := p], IsWriting) == Count(s.at, IsWriting) + Bit(IsWriting(p)) - Bit(t in s.at && IsWriting(s.at[t]))
    ensures Count(s.at[t := p], IsTestFirst) == Count(s.at, IsTestFirst) + Bit(IsTestFirst(p)) - Bit(t in s.at && IsTestFirst(s.at[t]))
    ensures Count(s.at[t := p], IsTakeW) == Count(s.at, IsTakeW) + Bit(IsTakeW(p)) - Bit(t in s.at && IsTakeW(s.at[t]))
    ensures Count(s.at[t := p], IsLeaving) == Count(s.at, IsLeaving) + Bit(IsLeaving(p)) - Bit(t in s.at && IsLeaving(s.at[t]))
    ensures Count(s.at[t := p], IsGiveW) == Count(s.at, IsGiveW) + Bit(IsGiveW(p)) - Bit(t in s.at && IsGiveW(s.at[t]))
  {
    CountUpdate(s.at, t, p, HoldsR);
    CountUpdate(s.at, t, p, Counted);
    CountUpdate(s.at, t, p, IsWriting);
    CountUpdate(s.at, t, p, IsTestFirst);
    CountUpdate(s.at, t, p, IsTakeW);
    CountUpdate(s.at, t, p, IsLeaving);
    CountUpdate(s.at, t, p, IsGiveW);
  }

  /** The counts after thread `t` has taken its step. */
  lemma StepCounts(s: State, t: nat)
    requires t in s.at && s.at[t] != Idle && Advance(s, t).To?
    ensures var s', p := Advance(s, t).state, s.at[t];
      && t in s'.at
      && var q := s'.at[t];
      && Count(s'.at, HoldsR) == Count(s.at, HoldsR) + Bit(HoldsR(q)) - Bit(HoldsR(p))
      && Count(s'.at, Counted) == Count(s.at, Counted) + Bit(Counted(q)) - Bit(Counted(p))
      && Count(s'.at, IsWriting) == Count(s.at, IsWriting) + Bit(IsWriting(q)) - Bit(IsWriting(p))
      && Count(s'.at, IsTestFirst) == Count(s.at, IsTestFirst) + Bit(IsTestFirst(q)) - Bit(IsTestFirst(p))
      && Count(s'.at, IsTakeW) == Count(s.at, IsTakeW) + Bit(IsTakeW(q)) - Bit(IsTakeW(p))
      && Count(s'.at, IsLeaving) == Count(s.at, IsLeaving) + Bit(IsLeaving(q)) - Bit(IsLeaving(p))
      && Count(s'.at, IsGiveW) == Count(s.at, IsGiveW) + Bit(IsGiveW(q)) - Bit(IsGiveW(p))
  {
    var q := Advance(s, t).state.at[t];
    assert Advance(s, t).state.at == s.at[t := q];
    MoveCounts(s, t, q);
  }

  lemma CallKeepsInv(s: State, a: Action)
    requires Inv(s) && !a.Go? && Enabled(s, a)
    ensures Inv(Apply(s, a))
  {
    MoveCounts(s, a.t, if a.CallLock? then LockW else RLockR);
  }

  /** A thread's step keeps the invariant and never unlocks a free mutex. */
  lemma GoKeepsInv(s: State, t: nat)
    requires Inv(s) && t in s.at && s.at[t] != Idle
    ensures !Advance(s, t).Fatal?
    ensures Advance(s, t).To? ==> Inv(Advance(s, t).state)
  {
    HoldersAtMostOne(s);
    if HoldsR(s.at[t]) {
      CountPositive(s.at, t, HoldsR);
      if Counted(s.at[t]) {
        CountPositive(s.at, t, Counted);
      }
      if Entering(s.at[t]) {
        EnteringKeepsInv(s, t);
      } else if IsLeaving(s.at[t]) {
        LastKeepsInv(s, t);
      } else if s.at[t] == Decrement {
        DecrementKeepsInv(s, t);
      } else {
        LeavingKeepsInv(s, t);
      }
    } else {
      OtherKeepsInv(s, t);
    }
  }

  /** The thread holds r, and the points that only a holder of r can be at have no one else. */
  ghost predicate Alone(s: State, t: nat) {
    && t in s.at && HoldsR(s.at[t]) && s.r
    && (Counted(s.at[t]) ==> s.n >= 1)
    && Count(s.at, IsTakeW) == (if IsTakeW(s.at[t]) then 1 else 0)
    && Count(s.at, IsTestFirst) == (if IsTestFirst(s.at[t]) then 1 else 0)
    && Count(s.at, IsLeaving) == (if IsLeaving(s.at[t]) then 1 else 0)
    && Count(s.at, IsGiveW) == (if IsGiveW(s.at[t]) then 1 else 0)
  }

  predicate Entering(p: Point) {
    p == Increment || p == TestFirst || p == TakeW || p == RUnlockR
  }

  lemma EnteringKeepsInv(s: State, t: nat)
    requires Inv(s) && Alone(s, t) && Entering(s.at[t])
    ensures !Advance(s, t).Fatal?
    ensures Advance(s, t).To? ==> Inv(Advance(s, t).state)
  {
    if Advance(s, t).To? {
      StepCounts(s, t);
    }
  }

  lemma LeavingKeepsInv(s: State, t: nat)
    requires Inv(s) && Alone(s, t) && s.at[t] == UUnlockR
    ensures !Advance(s, t).Fatal?
    ensures Advance(s, t).To? ==> Inv(Advance(s, t).state)
  {
    StepCounts(s, t);
  }

  lemma DecrementKeepsInv(s: State, t: nat)
    requires Inv(s) && Alone(s, t) && s.at[t] == Decrement
    ensures Advance(s, t).To? && Inv(Advance(s, t).state)
  {
    StepCounts(s, t);
    assert GroupOwnsW(s) && GroupOwnsW(Advance(s, t).state);
  }

  lemma LastKeepsInv(s: State, t: nat)
    requires Inv(s) && Alone(s, t) && IsLeaving(s.at[t])
    ensures !Advance(s, t).Fatal?
    ensures Advance(s, t).To? ==> Inv(Advance(s, t).state)
  {
    if Advance(s, t).To? {
      StepCounts(s, t);
    }
  }

  lemma OtherKeepsInv(s: State, t: nat)
    requires Inv(s) && t in s.at && s.at[t] != Idle && !HoldsR(s.at[t])
    ensures !Advance(s, t).Fatal?
    ensures Advance(s, t).To? ==> Inv(Advance(s, t).state)
  {
    if s.at[t] == LockW || IsWriting(s.at[t]) {
      WriterKeepsInv(s, t);
    } else {
      OutsideKeepsInv(s, t);
    }
  }

  lemma WriterKeepsInv(s: State, t: nat)
    requires Inv(s) && t in s.at && (s.at[t] == LockW || IsWriting(s.at[t]))
    ensures !Advance(s, t).Fatal?
    ensures Advance(s, t).To? ==> Inv(Advance(s, t).state)
  {
    if IsWriting(s.at[t]) {
      CountPositive(s.at, t, IsWriting);
    }
    if Advance(s, t).To? {
      StepCounts(s, t);
    }
  }

  lemma OutsideKeepsInv(s: State, t: nat)
    requires Inv(s) && t in s.at && (s.at[t] == RLockR || s.at[t] == Reading || s.at[t] == ULockR)
    ensures !Advance(s, t).Fatal?
    ensures Advance(s, t).To? ==> Inv(Advance(s, t).state)
  {
    if Advance(s, t).To? {
      StepCounts(s, t);
    }
  }

  lemma {:induction false} BehaviorKeepsInv(run: seq<State>, i: nat)
    requires Behavior(run) && i < |run|
    ensures Inv(run[i])
  {
    if i == 0 {
      assert forall p: Point -> bool :: Where(run[0].at, p) == {};
    } else {
      BehaviorKeepsInv(run, i - 1);
      assert Next(run[i - 1], run[i - 1 + 1]);
      var a :| Enabled(run[i - 1], a) && run[i] == Apply(run[i - 1], a);
      if a.Go? {
        GoKeepsInv(run[i - 1], a.t);
      } else {
        CallKeepsInv(run[i - 1], a);
      }
    }
  }

  // ---- Mutual exclusion ----

  ghost predicate At(s: State, t: nat, p: Point) {
    t in s.at && s.at[t] == p
  }

  /** While some thread is writing, nobody else writes and nobody reads. */
  ghost predicate Exclusive(s: State) {
    forall t, u :: At(s, t, Writing) && (At(s, u, Writing) || At(s, u, Reading)) ==> u == t
  }

  /** A counted thread other than the one that is about to take w keeps the group's ownership. */
  lemma InsideMeansOwned(s: State, u: nat)
    requires Inv(s) && At(s, u, Reading)
    ensures GroupOwnsW(s) && Count(s.at, IsTakeW) == 0
  {
    HoldersAtMostOne(s);
    CountPositive(s.at, u, Counted);
    if Count(s.at, IsTakeW) == 1 {
      var v := CountWitness(s.at, IsTakeW);
      CountTwo(s.at, u, v, Counted);
    }
    if s.n == 1 && Count(s.at, IsTestFirst) == 1 {
      var v := CountWitness(s.at, IsTestFirst);
      CountTwo(s.at, u, v, Counted);
    }
  }

  /** Mutual exclusion, the reader count and the ownership of w in every state of every run. */
  lemma MutualExclusion(run: seq<State>, i: nat)
    requires Behavior(run) && i < |run|
    ensures Exclusive(run[i])
    ensures run[i].n == Count(run[i].at, Counted)
    ensures run[i].w <==> ((exists t :: At(run[i], t, Writing)) || GroupOwnsW(run[i]))
    ensures !((exists t :: At(run[i], t, Writing)) && GroupOwnsW(run[i]))
  {
    var s := run[i];
    BehaviorKeepsInv(run, i);
    forall t, u | At(s, t, Writing) && (At(s, u, Writing) || At(s, u, Reading))
      ensures u == t
    {
      CountPositive(s.at, t, IsWriting);
      if At(s, u, Reading) {
        InsideMeansOwned(s, u);
      } else if u != t {
        CountTwo(s.at, t, u, IsWriting);
      }
    }
    if Count(s.at, IsWriting) >= 1 {
      var t := CountWitness(s.at, IsWriting);
      assert At(s, t, Writing);
    } else {
      forall t
        ensures !At(s, t, Writing)
      {
        if At(s, t, Writing) {
          CountPositive(s.at, t, IsWriting);
        }
      }
    }
  }

  // ---- Progress and reader preference ----

  /** A thread that waits for w while holding r waits for a writer, whose Unlock needs only w. */
  lemma WaitingReader(run: seq<State>, i: nat, t: nat)
    requires Behavior(run) && i < |run|
    requires At(run[i], t, TakeW) && run[i].w
    ensures run[i].n == 1
    ensures exists u :: At(run[i], u, Writing) && Advance(run[i], u).To?
  {
    var s := run[i];
    BehaviorKeepsInv(run, i);
    HoldersAtMostOne(s);
    CountPositive(s.at, t, IsTakeW);
    var u := CountWitness(s.at, IsWriting);
    GoKeepsInv(s, u);
    assert At(s, u, Writing) && Advance(s, u).To?;
  }

  /** Reader preference: while a reader is inside, nobody's RLock is at the lock of w. */
  lemma ReadersDoNotWaitForW(run: seq<State>, i: nat, u: nat, t: nat)
    requires Behavior(run) && i < |run|
    requires At(run[i], u, Reading)
    ensures !At(run[i], t, TakeW)
    ensures At(run[i], t, TestFirst) ==> Advance(run[i], t).To? && At(Advance(run[i], t).state, t, RUnlockR)
  {
    var s := run[i];
    BehaviorKeepsInv(run, i);
    InsideMeansOwned(s, u);
    if At(s, t, TakeW) {
      CountPositive(s.at, t, IsTakeW);
    }
    if At(s, t, TestFirst) {
      CountTwo(s.at, t, u, Counted);
    }
  }

  ghost predicate AllIdle(s: State) {
    forall t :: t in s.at ==> s.at[t] == Idle
  }

  ghost predicate CanGo(s: State, t: nat) {
    Enabled(s, Go(t))
  }

  ghost predicate Halted(s: State) {
    forall t :: !CanGo(s, t)
  }

  /** No deadlock: unless every thread is idle, some thread inside a call or section can step. */
  lemma NoDeadlock(s: State)
    requires Inv(s) && !AllIdle(s)
    ensures exists t :: CanGo(s, t)
  {
    var t :| t in s.at && s.at[t] != Idle;
    GoKeepsInv(s, t);
    if Advance(s, t).Blocked? {
      if s.r {
        var h := CountWitness(s.at, HoldsR);
        GoKeepsInv(s, h);
        if Advance(s, h).Blocked? {
          HoldersAtMostOne(s);
          var u := CountWitness(s.at, IsWriting);
          GoKeepsInv(s, u);
          assert CanGo(s, u);
        } else {
          assert CanGo(s, h);
        }
      } else {
        WriterWaits(s);
      }
    } else {
      assert CanGo(s, t);
    }
  }

  /** With r free and w taken, the owner of w can step. */
  lemma WriterWaits(s: State)
    requires Inv(s) && s.w && !s.r
    ensures exists t :: CanGo(s, t)
  {
    if Count(s.at, IsWriting) >= 1 {
      var u := CountWitness(s.at, IsWriting);
      GoKeepsInv(s, u);
      assert CanGo(s, u);
    } else {
      CountMonotone(s.at, IsLeaving, HoldsR);
      var u := CountWitness(s.at, Counted);
      if HoldsR(s.at[u]) {
        CountPositive(s.at, u, HoldsR);
      }
      assert CanGo(s, u);
    }
  }

  /** Steps a thread still makes before it is idle again, at most. */
  function Remaining(p: Point): nat {
    match p
    case Idle => 0
    case LockW => 2
    case Writing => 1
    case RLockR => 11
    case Increment => 10
    case TestFirst => 9
    case TakeW => 8
    case RUnlockR => 7
    case Reading => 6
    case ULockR => 5
    case Decrement => 4
    case TestLast => 3
    case GiveW => 2
    case UUnlockR => 1
  }

  ghost function Work(s: State): nat {
    Sum(s.at, Remaining)
  }

  lemma GoReducesWork(s: State, t: nat)
    requires CanGo(s, t)
    ensures Work(Apply(s, Go(t))) < Work(s)
  {
    var p := Apply(s, Go(t)).at[t];
    assert Apply(s, Go(t)).at == s.at[t := p] && Remaining(p) < Remaining(s.at[t]);
    SumUpdate(s.at, t, p, Remaining);
  }

  /** A run in which no new call begins. */
  ghost predicate Draining(run: seq<State>) {
    |run| > 0 && forall i :: 0 <= i < |run| - 1 ==> exists t :: CanGo(run[i], t) && run[i + 1] == Apply(run[i], Go(t))
  }

  lemma {:induction false} DrainingStep(run: seq<State>, i: nat)
    requires Draining(run) && Inv(run[0]) && i < |run|
    ensures Inv(run[i]) && Work(run[i]) + i <= Work(run[0])
  {
    if i > 0 {
      DrainingStep(run, i - 1);
      assert run[i - 1 + 1] == run[i];
      var t :| CanGo(run[i - 1], t) && run[i] == Apply(run[i - 1], Go(t));
      GoReducesWork(run[i - 1], t);
      GoKeepsInv(run[i - 1], t);
    }
  }

  /**
   * If holders keep releasing and no call begins, every schedule ends within a fixed number of
   * steps, and it can only end with every thread idle and both mutexes free.
   */
  lemma EveryScheduleDrains(before: seq<State>, i: nat, run: seq<State>)
    requires Behavior(before) && i < |before|
    requires Draining(run) && run[0] == before[i]
    ensures |run| - 1 <= Work(run[0])
    ensures Halted(run[|run| - 1]) ==>
      var last := run[|run| - 1];
      AllIdle(last) && !last.w && !last.r && last.n == 0
  {
    BehaviorKeepsInv(before, i);
    DrainingStep(run, |run| - 1);
    var last := run[|run| - 1];
    if Halted(last) {
      if !AllIdle(last) {
        NoDeadlock(last);
      }
      IdleMeansFree(last);
    }
  }

  lemma IdleMeansFree(s: State)
    requires Inv(s) && AllIdle(s)
    ensures !s.w && !s.r && s.n == 0
  {
    assert Where(s.at, HoldsR) == {};
    assert Where(s.at, Counted) == {};
    assert Where(s.at, IsWriting) == {};
    assert Where(s.at, IsLeaving) == {};
  }
}
