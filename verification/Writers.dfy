/** Any number of goroutines writing packets to one connection under its mutex (gumble/conn.go). */
module Writers {
  import opened Bytes
  import opened Conn

  /** One call of WritePacket or WriteAudio: the packet and the Write calls it makes. */
  datatype Job = Job(packet: Packet, chunks: seq<seq<byte>>)

  function PacketJob(ptype: uint16, data: seq<byte>): (j: Job) {
    Job(Packet(ptype, data), [Header(ptype, |data|), data])
  }

  function PositionChunks(pos: Option<Position>): (s: seq<seq<byte>>) {
    match pos
    case None => []
    case Some(p) => [LittleEndian(p.x, W32), LittleEndian(p.y, W32), LittleEndian(p.z, W32)]
  }

  function AudioJob(header: seq<byte>, data: seq<byte>, pos: Option<Position>): (j: Job) {
    var payload := header + data + PositionBytes(pos);
    Job(Packet(1, payload), [Header(1, |payload|), header, data] + PositionChunks(pos))
  }

  /** A call is well-formed when its writes together are one frame. */
  ghost predicate ValidJob(j: Job) {
    Concat(j.chunks) == Frame(j.packet)
  }

  lemma PacketJobIsFrame(ptype: uint16, data: seq<byte>)
    ensures ValidJob(PacketJob(ptype, data))
  {
    ConcatTwo(Header(ptype, |data|), data);
  }

  lemma AudioJobIsFrame(header: seq<byte>, data: seq<byte>, pos: Option<Position>)
    ensures ValidJob(AudioJob(header, data, pos))
  {
    var tail := PositionBytes(pos);
    var h := Header(1, |header + data + tail|);
    ConcatPlus([h, header, data], PositionChunks(pos));
    ConcatThree(h, header, data);
    PositionChunksJoin(pos);
    Regrouped(h, header, data, tail);
  }

  lemma PositionChunksJoin(pos: Option<Position>)
    ensures Concat(PositionChunks(pos)) == PositionBytes(pos)
  {
    if pos.Some? {
      ConcatThree(LittleEndian(pos.value.x, W32), LittleEndian(pos.value.y, W32), LittleEndian(pos.value.z, W32));
    }
  }

  lemma Regrouped(h: seq<byte>, header: seq<byte>, data: seq<byte>, tail: seq<byte>)
    ensures h + header + data + tail == h + (header + data + tail)
  {
  }

  lemma ConcatTwo(x: seq<byte>, y: seq<byte>)
    ensures Concat([x, y]) == x + y
  {
    assert [x, y][1..] == [y] && [y][1..] == [];
    assert Concat([y]) == y + Concat([]);
  }

  lemma ConcatThree(x: seq<byte>, y: seq<byte>, z: seq<byte>)
    ensures Concat([x, y, z]) == x + y + z
  {
    assert [x, y, z][1..] == [y, z];
    ConcatTwo(y, z);
  }

  // ---- The step system ----

  datatype Writer =
    | Idle
    | Blocked(job: Job)
    | Holding(packet: Packet, left: seq<seq<byte>>)

  /** `done` lists the packets of the calls that have returned, in the order they returned. */
  datatype Wire = Wire(out: seq<byte>, locked: bool, writers: map<nat, Writer>, done: seq<Packet>)

  datatype Step =
    | Begin(t: nat, job: Job)
    | Acquire(t: nat)
    | Send(t: nat, k: nat)     // the network takes `k` bytes of the current chunk
    | Release(t: nat)

  ghost predicate Enabled(s: Wire, step: Step) {
    match step
    case Begin(t, job) => (t in s.writers ==> s.writers[t].Idle?) && ValidJob(job)
    case Acquire(t) => t in s.writers && s.writers[t].Blocked? && !s.locked
    case Send(t, k) => t in s.writers && s.writers[t].Holding? && s.writers[t].left != [] && k <= |s.writers[t].left[0]|
    case Release(t) => t in s.writers && s.writers[t].Holding? && s.writers[t].left == []
  }

  ghost function Apply(s: Wire, step: Step): Wire
    requires Enabled(s, step)
  {
    match step
    case Begin(t, job) => s.(writers := s.writers[t := Blocked(job)])
    case Acquire(t) =>
      var job := s.writers[t].job;
      s.(locked := true, writers := s.writers[t := Holding(job.packet, job.chunks)])
    case Send(t, k) =>
      var w := s.writers[t];
      var chunk := w.left[0];
      var left := if k == |chunk| then w.left[1..] else [chunk[k..]] + w.left[1..];
      s.(out := s.out + chunk[..k], writers := s.writers[t := Holding(w.packet, left)])
    case Release(t) =>
      s.(locked := false, writers := s.writers[t := Idle], done := s.done + [s.writers[t].packet])
  }

  ghost predicate Init(s: Wire) {
    s.out == [] && !s.locked && s.done == [] && forall t :: t in s.writers ==> s.writers[t].Idle?
  }

  ghost predicate Next(s: Wire, s': Wire) {
    exists step :: Enabled(s, step) && s' == Apply(s, step)
  }

  ghost predicate Behavior(run: seq<Wire>) {
    |run| > 0 && Init(run[0]) && forall i :: 0 <= i < |run| - 1 ==> Next(run[i], run[i + 1])
  }

  /** Writer `t` is inside its call, holding the mutex. */
  ghost predicate InProgress(s: Wire, t: nat) {
    t in s.writers && s.writers[t].Holding?
  }

  ghost predicate Inv(s: Wire) {
    && (forall t :: t in s.writers && s.writers[t].Blocked? ==> ValidJob(s.writers[t].job))
    && (forall t, u :: InProgress(s, t) && InProgress(s, u) ==> t == u)
    && (s.locked <==> exists t :: InProgress(s, t))
    && (!s.locked ==> s.out == Frames(s.done))
    && (forall t :: InProgress(s, t) ==>
          && Frames(s.done) <= s.out
          && s.out + Concat(s.writers[t].left) == Frames(s.done) + Frame(s.writers[t].packet))
  }

  /** Taking `k` bytes off the first chunk. */
  lemma TakeFromChunk(left: seq<seq<byte>>, k: nat)
    requires left != [] && k <= |left[0]|
    ensures var left' := if k == |left[0]| then left[1..] else [left[0][k..]] + left[1..];
      Concat(left) == left[0][..k] + Concat(left')
  {
    var chunk := left[0];
    if k < |chunk| {
      var left' := [chunk[k..]] + left[1..];
      assert left'[1..] == left[1..] && left'[0] == chunk[k..];
      assert chunk == chunk[..k] + chunk[k..];
    } else {
      assert chunk[..k] == chunk;
    }
  }

  lemma SendKeepsInv(s: Wire, t: nat, k: nat)
    requires Inv(s) && Enabled(s, Send(t, k))
    ensures Inv(Apply(s, Send(t, k)))
  {
    var s' := Apply(s, Send(t, k));
    assert InProgress(s, t) && InProgress(s', t);
    forall u | InProgress(s', u)
      ensures u == t
    {
      assert InProgress(s, u);
    }
    TakeFromChunk(s.writers[t].left, k);
    Extends(s.out, s.writers[t].left[0][..k], Concat(s'.writers[t].left), Frames(s.done), Frame(s.writers[t].packet));
  }

  lemma Extends(out: seq<byte>, part: seq<byte>, rest: seq<byte>, base: seq<byte>, frame: seq<byte>)
    requires base <= out && out + (part + rest) == base + frame
    ensures base <= out + part && (out + part) + rest == base + frame
  {
    assert (out + part) + rest == out + (part + rest);
  }

  lemma StepKeepsInv(s: Wire, step: Step)
    requires Inv(s) && Enabled(s, step)
    ensures Inv(Apply(s, step))
  {
    match step {
      case Begin(t, job) =>
        var s' := Apply(s, step);
        if s.locked {
          var h :| InProgress(s, h);
          assert InProgress(s', h);
        }
        assert forall u :: InProgress(s', u) ==> InProgress(s, u);
      case Acquire(t) =>
        var s' := Apply(s, step);
        assert InProgress(s', t);
        assert forall u :: InProgress(s', u) && u != t ==> InProgress(s, u);
      case Send(t, k) => SendKeepsInv(s, t, k);
      case Release(t) =>
        assert InProgress(s, t);
        assert forall u :: InProgress(Apply(s, step), u) ==> InProgress(s, u);
        FramesAppend(s.done, s.writers[t].packet);
        assert s.out + Concat([]) == s.out;
    }
  }

  lemma {:induction false} BehaviorKeepsInv(run: seq<Wire>, i: nat)
    requires Behavior(run) && i < |run|
    ensures Inv(run[i])
  {
    if i > 0 {
      BehaviorKeepsInv(run, i - 1);
      assert Next(run[i - 1], run[i - 1 + 1]);
      var step :| Enabled(run[i - 1], step) && run[i] == Apply(run[i - 1], step);
      StepKeepsInv(run[i - 1], step);
    }
  }

  /**
   * In every state of every run the bytes sent are the whole frames of the completed calls and a
   * prefix of at most one more frame.
   */
  lemma WholeFrames(run: seq<Wire>, i: nat)
    requires Behavior(run) && i < |run|
    ensures var s := run[i];
      && ((forall t :: !InProgress(s, t)) ==> s.out == Frames(s.done))
      && (forall t :: InProgress(s, t) ==> Frames(s.done) <= s.out <= Frames(s.done) + Frame(s.writers[t].packet))
      && (forall t, u :: InProgress(s, t) && InProgress(s, u) ==> t == u)
  {
    BehaviorKeepsInv(run, i);
    var s := run[i];
    forall t | InProgress(s, t)
      ensures s.out <= Frames(s.done) + Frame(s.writers[t].packet)
    {
      assert s.out <= s.out + Concat(s.writers[t].left);
    }
  }

  /**
   * A peer that reads all bytes sent so far gets exactly the packets of the completed calls, plus
   * the one in progress if its last byte is out.
   */
  lemma PeerReadsWhatWasWritten(run: seq<Wire>, i: nat, max: int)
    requires Behavior(run) && i < |run|
    requires forall p :: p in run[i].done ==> Fits(p, max)
    requires forall t :: InProgress(run[i], t) ==> Fits(run[i].writers[t].packet, max)
    ensures var s := run[i];
      && ((forall t :: !InProgress(s, t)) ==> ReadAll(s.out, max) == s.done)
      && (forall t :: InProgress(s, t) ==>
            ReadAll(s.out, max) ==
            if Concat(s.writers[t].left) == [] then s.done + [s.writers[t].packet] else s.done)
  {
    var s := run[i];
    BehaviorKeepsInv(run, i);
    if forall t :: !InProgress(s, t) {
      ReadAllFrames(s.done, [], max);
      assert Frames(s.done) + [] == s.out;
    }
    forall t | InProgress(s, t)
      ensures ReadAll(s.out, max) ==
              if Concat(s.writers[t].left) == [] then s.done + [s.writers[t].packet] else s.done
    {
      ReadInsideFrame(s.done, s.writers[t].packet, s.out, Concat(s.writers[t].left), max);
    }
  }

  /** Reading `out`, when `rest` is what the frame of `p` still lacks. */
  lemma ReadInsideFrame(done: seq<Packet>, p: Packet, out: seq<byte>, rest: seq<byte>, max: int)
    requires forall q :: q in done ==> Fits(q, max)
    requires Fits(p, max)
    requires Frames(done) <= out && out + rest == Frames(done) + Frame(p)
    ensures ReadAll(out, max) == if rest == [] then done + [p] else done
  {
    if rest == [] {
      FramesAppend(done, p);
      ReadAllFrames(done + [p], [], max);
      assert out == Frames(done + [p]) + [];
    } else {
      var k := |out| - |Frames(done)|;
      assert out == (out + rest)[..|out|] == Frames(done) + Frame(p)[..k];
      PartialFrameFails(p, k, max);
      ReadAllFrames(done, Frame(p)[..k], max);
    }
  }
}
