/** The window of ping times and the statistics published from it (gumble/handlers.go, handlePing). */
module Ping {
  import opened Bytes

  const SIZE := 12

  function Sum(w: seq<real>): (s: real) {
    if w == [] then 0.0 else Sum(w[..|w| - 1]) + w[|w| - 1]
  }

  function Times(x: real, y: real): (p: real) {
    x * y
  }

  function Square(x: real): (p: real) {
    Times(x, x)
  }

  function Squares(w: seq<real>): (s: seq<real>)
    ensures |s| == |w| && forall i :: 0 <= i < |w| ==> s[i] == Square(w[i])
  {
    seq(|w|, i requires 0 <= i < |w| => Square(w[i]))
  }

  /** How far `a` is from each entry. */
  function Deviations(w: seq<real>, a: real): (s: seq<real>)
    ensures |s| == |w| && forall i :: 0 <= i < |w| ==> s[i] == a - w[i]
  {
    seq(|w|, i requires 0 <= i < |w| => a - w[i])
  }

  function Mean(w: seq<real>): (m: real)
    requires w != []
  {
    Sum(w) / |w| as real
  }

  /** The mean squared deviation from the mean. */
  function Variance(w: seq<real>): (v: real)
    requires w != []
  {
    Mean(Squares(Deviations(w, Mean(w))))
  }

  // ---- The window as a queue ----

  /** One reply: the measured time, or none when the packet has no timestamp. */
  type Reply = Option<real>

  /**
   * The values that enter the window. A reply without timestamp still counts as received, so
   * among the first twelve it leaves its slot at zero; later ones leave no trace.
   */
  function Values(replies: seq<Reply>): (vs: seq<real>)
    ensures |vs| <= |replies|
    ensures |vs| < SIZE ==> |vs| == |replies|
    ensures |replies| <= SIZE ==> |vs| == |replies|
  {
    if replies == [] then []
    else
      var n := |replies| - 1;
      var vs := Values(replies[..n]);
      match replies[n]
      case Some(v) => vs + [v]
      case None => if n < SIZE then vs + [0.0] else vs
  }

  /** The last twelve values, or all of them if there are fewer. */
  function Window(vs: seq<real>): (w: seq<real>)
    ensures |w| == if |vs| < SIZE then |vs| else SIZE
  {
    if |vs| <= SIZE then vs else vs[|vs| - SIZE..]
  }

  /** What the array holds: the window, then zeros. */
  function Slots(vs: seq<real>): (s: seq<real>)
    ensures |s| == SIZE
  {
    Window(vs) + seq(SIZE - |Window(vs)|, _ => 0.0)
  }

  /** With a timestamp in every reply the values are the samples themselves. */
  lemma {:induction false} ValuesOfSamples(replies: seq<Reply>)
    requires AllTimed(replies)
    ensures |Values(replies)| == |replies|
    ensures forall i :: 0 <= i < |replies| ==> Values(replies)[i] == replies[i].value
  {
    if replies != [] {
      ValuesOfSamples(replies[..|replies| - 1]);
    }
  }

  /** The times of the replies that have one. */
  function Timed(replies: seq<Reply>): (vs: seq<real>) {
    if replies == [] then []
    else
      var n := |replies| - 1;
      Timed(replies[..n]) + if replies[n].Some? then [replies[n].value] else []
  }

  /** Each of the first twelve replies has its slot, at zero without a time; after them only times enter. */
  lemma {:induction false} ValuesOfReplies(replies: seq<Reply>)
    ensures |replies| <= SIZE ==>
              |Values(replies)| == |replies| &&
              forall i :: 0 <= i < |replies| ==> Values(replies)[i] == if replies[i].Some? then replies[i].value else 0.0
    ensures |replies| > SIZE ==> Values(replies) == Values(replies[..SIZE]) + Timed(replies[SIZE..])
  {
    if replies != [] {
      var n := |replies| - 1;
      ValuesOfReplies(replies[..n]);
      if n == SIZE {
        assert replies[SIZE..][..0] == [] && replies[..n] == replies[..SIZE];
      } else if n > SIZE {
        assert replies[..n][..SIZE] == replies[..SIZE] && replies[..n][SIZE..] == replies[SIZE..][..n - SIZE];
      }
    }
  }

  predicate AllTimed(replies: seq<Reply>) {
    forall i :: 0 <= i < |replies| ==> replies[i].Some?
  }

  /** The last twelve samples, or all of them if there are fewer, taken from the replies themselves. */
  function Latest(replies: seq<Reply>): (w: seq<real>)
    requires AllTimed(replies)
    ensures |w| == if |replies| < SIZE then |replies| else SIZE
  {
    var n := if |replies| < SIZE then |replies| else SIZE;
    seq(n, i requires 0 <= i < n => replies[|replies| - n + i].value)
  }

  /** Then the window is the latest samples, in order. */
  lemma WindowOfSamples(replies: seq<Reply>)
    requires AllTimed(replies)
    ensures Window(Values(replies)) == Latest(replies)
  {
    ValuesOfSamples(replies);
  }

  /** A new value goes behind the others while there is room, and otherwise pushes the oldest out. */
  lemma SlotsAppend(vs: seq<real>, v: real)
    ensures |vs| < SIZE ==> Slots(vs + [v]) == Slots(vs)[|vs| := v]
    ensures |vs| >= SIZE ==> Slots(vs + [v]) == Slots(vs)[1..] + [v]
    ensures |vs| < SIZE ==> Slots(vs + [0.0]) == Slots(vs)
  {
    if |vs| > SIZE {
      assert (vs + [v])[|vs| + 1 - SIZE..] == vs[|vs| - SIZE..][1..] + [v];
    }
  }

  /** `after` is `before` with `v` in slot `index`, or at the end of the shifted entries. */
  ghost predicate Entered(before: seq<real>, after: seq<real>, index: nat, v: real) {
    |before| == SIZE && after == if index < SIZE then before[index := v] else before[1..] + [v]
  }

  /** Entering the next value keeps the array the window of all values. */
  lemma EnterExtendsWindow(vs: seq<real>, v: real, index: nat, after: seq<real>)
    requires if index < SIZE then |vs| == index else |vs| >= SIZE
    requires Entered(Slots(vs), after, index, v)
    ensures after == Slots(vs + [v])
    ensures after[..if index < SIZE then index + 1 else SIZE] == Window(vs + [v])
  {
    SlotsAppend(vs, v);
    assert Slots(vs + [v])[..|Window(vs + [v])|] == Window(vs + [v]);
  }

  lemma ValuesStep(replies: seq<Reply>, reply: Reply)
    ensures var vs := Values(replies);
      Values(replies + [reply]) ==
      match reply
      case Some(v) => vs + [v]
      case None => if |replies| < SIZE then vs + [0.0] else vs
  {
    assert (replies + [reply])[..|replies|] == replies;
  }

  lemma CounterStep(n: nat)
    ensures (n % 0x1_0000_0000 + 1) % 0x1_0000_0000 == (n + 1) % 0x1_0000_0000
    ensures n + 1 < 0x1_0000_0000 ==> (n + 1) % 0x1_0000_0000 == n + 1
  {
  }

  class Stats {
    var received: uint32
    var times: array<real>
    var avg: real
    var variance: real
    ghost var replies: seq<Reply>

    ghost predicate Valid()
      reads this, times
    {
      && times.Length == SIZE
      && received == |replies| % 0x1_0000_0000
      && (|replies| < 0x1_0000_0000 ==> times[..] == Slots(Values(replies)))
    }

    constructor ()
      ensures Valid() && replies == [] && fresh(times)
    {
      times := new real[SIZE](_ => 0.0);
      received, avg, variance, replies := 0, 0.0, 0.0, [];
    }

    /**
     * handlePing. The counter wraps at 2^32, and the slot before the first is then out of range:
     * the call panics exactly on a timestamped reply that brings the counter to zero.
     */
    method Handle(reply: Reply) returns (panic: bool)
      requires Valid()
      modifies this, times
      ensures Valid() && times == old(times) && replies == old(replies) + [reply]
      ensures panic <==> reply.Some? && |replies| % 0x1_0000_0000 == 0
      ensures reply.Some? && |replies| < 0x1_0000_0000 ==>
        var w := Window(Values(replies));
        w != [] && avg == Mean(w) && variance == Variance(w)
      ensures AllTimed(replies) && |replies| < 0x1_0000_0000 ==>
        times[..|Latest(replies)|] == Latest(replies) && avg == Mean(Latest(replies)) && variance == Variance(Latest(replies))
      ensures reply.None? ==> avg == old(avg) && variance == old(variance)
    {
      ghost var vs, n := Values(replies), |replies|;
      ValuesStep(replies, reply);
      CounterStep(n);
      received := (received + 1) % 0x1_0000_0000;
      replies := replies + [reply];
      if reply.None? {
        SlotsAppend(vs, 0.0);
        return false;
      }
      if received == 0 {
        return true;            // the slot index is -1
      }
      Measure(received - 1, reply.value, vs);
      panic := false;
      if AllTimed(replies) {
        WindowOfSamples(replies);
      }
    }

    /** Enters `v` and publishes the statistics of the entries so far. */
    method Measure(index: nat, v: real, ghost vs: seq<real>)
      requires times.Length == SIZE
      modifies times, this`avg, this`variance
      ensures (if index < SIZE then |vs| == index else |vs| >= SIZE) && old(times[..]) == Slots(vs) ==>
        && times[..] == Slots(vs + [v])
        && avg == Mean(Window(vs + [v])) && variance == Variance(Window(vs + [v]))
    {
      var slot := Enter(times, index, v);
      if (if index < SIZE then |vs| == index else |vs| >= SIZE) && old(times[..]) == Slots(vs) {
        EnterExtendsWindow(vs, v, index, times[..]);
      }
      avg, variance := Publish(times, slot);
    }
  }

  /** Puts `v` into slot `index`, or at the end after shifting when there is no such slot. */
  method Enter(times: array<real>, index: nat, v: real) returns (slot: nat)
    requires times.Length == SIZE
    modifies times
    ensures slot == if index < SIZE then index else SIZE - 1
    ensures Entered(old(times[..]), times[..], index, v)
  {
    slot := index;
    if index >= SIZE {
      Shift(times);
      slot := SIZE - 1;
    }
    times[slot] := v;
  }

  /** Moves every entry one slot down. */
  method Shift(times: array<real>)
    requires times.Length == SIZE
    modifies times
    ensures times[..SIZE - 1] == old(times[1..])
  {
    var i := 1;
    while i < times.Length
      invariant 1 <= i <= SIZE
      invariant times[..i - 1] == old(times[1..i])
      invariant times[i..] == old(times[i..])
    {
      times[i - 1] := times[i];
      i := i + 1;
    }
  }

  /** The average of the first `index + 1` entries and their variance. */
  method Publish(times: array<real>, index: nat) returns (avg: real, variance: real)
    requires index < times.Length
    ensures avg == Mean(times[..index + 1])
    ensures variance == Variance(times[..index + 1])
  {
    var sum := SumOf(times, index);
    avg := sum / (index + 1) as real;
    sum := SumOfSquares(times, index, avg);
    variance := sum / (index + 1) as real;
  }

  /** The first loop. */
  method SumOf(times: array<real>, index: nat) returns (sum: real)
    requires index < times.Length
    ensures sum == Sum(times[..index + 1])
  {
    var i := 0;
    sum := 0.0;
    while i <= index
      invariant 0 <= i <= index + 1
      invariant sum == Sum(times[..i])
    {
      assert times[..i + 1][..i] == times[..i];
      sum := sum + times[i];
      i := i + 1;
    }
  }

  /** The second loop. */
  method SumOfSquares(times: array<real>, index: nat, avg: real) returns (sum: real)
    requires index < times.Length
    ensures sum == Sum(Squares(Deviations(times[..index + 1], avg)))
  {
    var i := 0;
    sum := 0.0;
    while i <= index
      invariant 0 <= i <= index + 1
      invariant sum == Sum(Squares(Deviations(times[..i], avg)))
    {
      assert times[..i + 1][..i] == times[..i];
      SquaresStep(times[..i + 1], avg);
      sum := sum + Square(avg - times[i]);
      i := i + 1;
    }
  }

  lemma SquaresStep(w: seq<real>, a: real)
    requires w != []
    ensures var n := |w| - 1;
      Sum(Squares(Deviations(w, a))) == Sum(Squares(Deviations(w[..n], a))) + Square(a - w[n])
  {
    var n := |w| - 1;
    assert Deviations(w, a)[..n] == Deviations(w[..n], a);
    assert Squares(Deviations(w, a))[..n] == Squares(Deviations(w[..n], a));
  }

  // ---- What the published numbers mean ----

  lemma {:induction false} SumBounds(w: seq<real>, lo: real, hi: real)
    requires forall x :: x in w ==> lo <= x <= hi
    ensures |w| as real * lo <= Sum(w) <= |w| as real * hi
  {
    if w != [] {
      var n := |w| - 1;
      assert w[n] in w && forall x :: x in w[..n] ==> x in w;
      SumBounds(w[..n], lo, hi);
      assert |w| as real == n as real + 1.0;
    }
  }

  lemma QuotientBounds(s: real, n: real, lo: real, hi: real)
    requires n > 0.0 && n * lo <= s <= n * hi
    ensures lo <= s / n <= hi
  {
    assert s / n - lo == (s - n * lo) / n;
    assert hi - s / n == (n * hi - s) / n;
  }

  /** The average lies between any bounds of the window, so between its least and greatest entry. */
  lemma MeanBetween(w: seq<real>, lo: real, hi: real)
    requires w != [] && forall x :: x in w ==> lo <= x <= hi
    ensures lo <= Mean(w) <= hi
  {
    SumBounds(w, lo, hi);
    QuotientBounds(Sum(w), |w| as real, lo, hi);
  }

  /** The sum of `c * x` over the entries. */
  function Scaled(w: seq<real>, c: real): (s: real) {
    if w == [] then 0.0 else Scaled(w[..|w| - 1], c) + Times(c, w[|w| - 1])
  }

  lemma {:induction false} ScaledIsProduct(w: seq<real>, c: real)
    ensures Scaled(w, c) == Times(c, Sum(w))
  {
    if w != [] {
      var n := |w| - 1;
      ScaledIsProduct(w[..n], c);
      Distribute(c, Sum(w[..n]), w[n]);
    }
  }

  lemma Distribute(c: real, x: real, y: real)
    ensures Times(c, x + y) == Times(c, x) + Times(c, y)
  {
  }

  function Repeated(n: nat, b: real): (s: real) {
    if n == 0 then 0.0 else Repeated(n - 1, b) + b
  }

  lemma {:induction false} RepeatedIsProduct(n: nat, b: real)
    ensures Repeated(n, b) == Times(b, n as real)
  {
    if n > 0 {
      RepeatedIsProduct(n - 1, b);
      assert n as real == (n - 1) as real + 1.0;
      Distribute(b, (n - 1) as real, 1.0);
    }
  }

  lemma SquareOfDifference(a: real, x: real)
    ensures Square(a - x) == Square(x) - Times(2.0 * a, x) + Square(a)
  {
  }

  /** The squares of all differences, multiplied out. */
  lemma {:induction false} Expand(w: seq<real>, a: real)
    ensures Sum(Squares(Deviations(w, a))) == Sum(Squares(w)) - Scaled(w, 2.0 * a) + Repeated(|w|, Square(a))
  {
    if w != [] {
      var n := |w| - 1;
      Expand(w[..n], a);
      SquaresStep(w, a);
      assert Squares(w)[..n] == Squares(w[..n]);
      SquareOfDifference(a, w[n]);
    }
  }

  /** The variance is the mean of the squares less the square of the mean. */
  lemma VarianceIdentity(w: seq<real>)
    requires w != []
    ensures Variance(w) == Mean(Squares(w)) - Square(Mean(w))
  {
    var a := Mean(w);
    Expand(w, a);
    ScaledIsProduct(w, 2.0 * a);
    RepeatedIsProduct(|w|, Square(a));
    MeanOfDistances(Sum(Squares(Deviations(w, a))), Sum(Squares(w)), Scaled(w, 2.0 * a), Repeated(|w|, Square(a)), Sum(w), |w| as real, a);
  }

  lemma MeanOfDistances(d: real, q: real, p: real, r: real, s: real, n: real, a: real)
    requires n > 0.0 && a == s / n
    requires d == q - p + r && p == Times(2.0 * a, s) && r == Times(Square(a), n)
    ensures d / n == q / n - Square(a)
  {
    assert s == n * a;
    assert 2.0 * a * s == 2.0 * (n * (a * a));
    assert d == q - n * (a * a);
    assert (q - n * (a * a)) / n == q / n - a * a;
  }

  /** It is never negative, and zero exactly when every entry is the mean. */
  lemma VarianceSign(w: seq<real>)
    requires w != []
    ensures Variance(w) >= 0.0
    ensures Variance(w) == 0.0 <==> forall i :: 0 <= i < |w| ==> w[i] == Mean(w)
  {
    var ds := Deviations(w, Mean(w));
    SumOfSquaresSign(ds);
    QuotientSign(Sum(Squares(ds)), |w| as real);
    assert (forall i :: 0 <= i < |w| ==> w[i] == Mean(w)) <==> (forall i :: 0 <= i < |ds| ==> ds[i] == 0.0) by {
      assert forall i :: 0 <= i < |w| ==> (w[i] == Mean(w) <==> ds[i] == 0.0);
    }
  }

  lemma QuotientSign(s: real, n: real)
    requires n > 0.0 && s >= 0.0
    ensures s / n >= 0.0
    ensures s / n == 0.0 <==> s == 0.0
  {
    assert s == (s / n) * n;
  }

  lemma {:induction false} SumOfSquaresSign(ds: seq<real>)
    ensures Sum(Squares(ds)) >= 0.0
    ensures Sum(Squares(ds)) == 0.0 <==> forall i :: 0 <= i < |ds| ==> ds[i] == 0.0
  {
    if ds != [] {
      var n := |ds| - 1;
      SumOfSquaresSign(ds[..n]);
      assert Squares(ds)[..n] == Squares(ds[..n]);
      SquareSign(ds[n]);
      AddSign(Sum(Squares(ds[..n])), Squares(ds)[n]);
    }
  }

  lemma AddSign(s: real, p: real)
    requires s >= 0.0 && p >= 0.0
    ensures s + p >= 0.0
    ensures s + p == 0.0 <==> s == 0.0 && p == 0.0
  {
  }

  lemma SquareSign(d: real)
    ensures d == 0.0 ==> Square(d) == 0.0
    ensures d != 0.0 ==> Square(d) > 0.0
  {
    if d > 0.0 {
      PositiveProduct(d, d);
    } else if d < 0.0 {
      PositiveProduct(-d, -d);
      SquareOfNegation(d);
    }
  }

  lemma PositiveProduct(x: real, y: real)
    requires x > 0.0 && y > 0.0
    ensures Times(x, y) > 0.0
  {
    assert x * y > 0.0;
  }

  lemma SquareOfNegation(d: real)
    ensures Square(-d) == Square(d)
  {
  }
}
