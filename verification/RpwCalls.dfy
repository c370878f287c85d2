/** What the calls of the reader-preferred lock come to, over whole runs. */
module RpwCalls {
  import opened RpwMutex

  /** A run together with the actions taken. */
  ghost predicate Trace(run: seq<State>, acts: seq<Action>) {
    && |run| == |acts| + 1 && Init(run[0])
    && forall i :: 0 <= i < |acts| ==> Takes(run[i], acts[i], run[i + 1])
  }

  ghost predicate Takes(s: State, a: Action, s': State) {
    Enabled(s, a) && s' == Apply(s, a)
  }

  predicate IsAt(s: State, t: nat, p: Point) {
    t in s.at && s.at[t] == p
  }

  predicate OfWriter(p: Point) {
    p == LockW || p == Writing
  }

  /** In RLock, up to its return. */
  predicate Arriving(p: Point) {
    p == RLockR || p == Increment || p == TestFirst || p == TakeW || p == RUnlockR
  }

  /** In RUnlock. */
  predicate Departing(p: Point) {
    p == ULockR || p == Decrement || p == TestLast || p == GiveW || p == UUnlockR
  }

  lemma WriterStep(s: State, a: Action, s': State, t: nat)
    requires Takes(s, a, s') && t in s.at && OfWriter(s.at[t])
    ensures t in s'.at && (OfWriter(s'.at[t]) || (IsAt(s, t, Writing) && IsAt(s', t, Idle)))
  {
  }

  lemma ReaderStep(s: State, a: Action, s': State, t: nat)
    requires Takes(s, a, s') && t in s.at && s.at[t] != Idle && !OfWriter(s.at[t])
    ensures t in s'.at && !OfWriter(s'.at[t])
    ensures Arriving(s.at[t]) ==> Arriving(s'.at[t]) || s'.at[t] == Reading
    ensures s.at[t] == Reading ==> s'.at[t] == Reading || s'.at[t] == ULockR
    ensures Departing(s.at[t]) ==> Departing(s'.at[t]) || s'.at[t] == Idle
  {
  }

  lemma {:induction false} WriterGoesOn(run: seq<State>, acts: seq<Action>, i: nat, n: nat, t: nat)
    requires Trace(run, acts) && i <= n <= |acts| && IsAt(run[i], t, LockW)
    requires forall j :: i <= j <= n ==> !IsAt(run[j], t, Idle)
    ensures t in run[n].at && OfWriter(run[n].at[t])
  {
    if i < n {
      WriterGoesOn(run, acts, i, n - 1, t);
      assert Takes(run[n - 1], acts[n - 1], run[n - 1 + 1]);
      WriterStep(run[n - 1], acts[n - 1], run[n], t);
    }
  }

  /** Thread `t` is in the reader section in some state from `i` to `n`. */
  ghost predicate HasRead(run: seq<State>, i: nat, n: nat, t: nat)
    requires n < |run|
  {
    exists j :: i <= j <= n && IsAt(run[j], t, Reading)
  }

  lemma {:induction false} ReaderGoesOn(run: seq<State>, acts: seq<Action>, i: nat, n: nat, t: nat)
    requires Trace(run, acts) && i <= n <= |acts| && IsAt(run[i], t, RLockR)
    requires forall j :: i <= j <= n ==> !IsAt(run[j], t, Idle)
    ensures t in run[n].at && !OfWriter(run[n].at[t]) && (Arriving(run[n].at[t]) || HasRead(run, i, n, t))
  {
    if i < n {
      ReaderGoesOn(run, acts, i, n - 1, t);
      assert Takes(run[n - 1], acts[n - 1], run[n - 1 + 1]);
      ReaderStep(run[n - 1], acts[n - 1], run[n], t);
      if j :| i <= j <= n - 1 && IsAt(run[j], t, Reading) {
        assert j <= n;
      }
    }
  }

  /** A thread that calls Lock at `i` and is idle again after `n` comes out of the writer section, and was never a reader. */
  lemma LockWrites(run: seq<State>, acts: seq<Action>, i: nat, n: nat, t: nat)
    requires Trace(run, acts) && i < n < |acts| && acts[i] == CallLock(t)
    requires (forall j :: i < j <= n ==> !IsAt(run[j], t, Idle)) && IsAt(run[n + 1], t, Idle)
    ensures IsAt(run[n], t, Writing) && !HasRead(run, i + 1, n, t)
  {
    assert Takes(run[i], acts[i], run[i + 1]) && Takes(run[n], acts[n], run[n + 1]);
    WriterGoesOn(run, acts, i + 1, n, t);
    WriterStep(run[n], acts[n], run[n + 1], t);
    forall j | i + 1 <= j <= n ensures !IsAt(run[j], t, Reading) {
      WriterGoesOn(run, acts, i + 1, j, t);
    }
  }

  /** One that calls RLock has been in the reader section, and never in the writer section. */
  lemma RLockReads(run: seq<State>, acts: seq<Action>, i: nat, n: nat, t: nat)
    requires Trace(run, acts) && i < n < |acts| && acts[i] == CallRLock(t)
    requires (forall j :: i < j <= n ==> !IsAt(run[j], t, Idle)) && IsAt(run[n + 1], t, Idle)
    ensures HasRead(run, i + 1, n, t) && forall j :: i < j <= n ==> !IsAt(run[j], t, Writing)
  {
    assert Takes(run[i], acts[i], run[i + 1]) && Takes(run[n], acts[n], run[n + 1]);
    ReaderGoesOn(run, acts, i + 1, n, t);
    ReaderStep(run[n], acts[n], run[n + 1], t);
    forall j | i < j <= n ensures !IsAt(run[j], t, Writing) {
      ReaderGoesOn(run, acts, i + 1, j, t);
    }
  }
}
