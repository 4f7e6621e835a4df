/**
 The chain of module AudioChain is made of the real parts: each call on a side of an audio
 channel and each passage of the loopback is a step of it, and the copy loop, with
 everybody else active between its calls, is a run of it.
 */
module AudioPath {
  import opened Frames
  import opened AudioChain
  import AudioBuffers
  import CopyLoop
  import Loopback

  /** Stage k of the chain is a buffer, or a loop's hand, with these bytes in it. */
  predicate Holds(s: State, k: nat, data: Bytes) {
    k < |s.stages| && Contents(s, k) == data
  }

  lemma StepKeepsGood(s: State, st: Step)
    requires Good(s) && Enabled(s, st)
    ensures Good(Do(s, st)) && |Do(s, st).stages| == |s.stages|
  {
    assert Runs(Do(s, st), []) && [st][1..] == [];
    assert After(s, [st]) == After(Do(s, st), []) == Do(s, st);
    RunKeepsGood(s, [st]);
  }

  // ------------------------------------------------------------ the calls as steps

  /** A loop reads: the front of the buffer at stage k goes into its hand at stage k + 1. */
  method ReadStage(side: AudioBuffers.AudioChannelSide, size: nat, ghost s: State, ghost k: nat)
    returns (r: AudioBuffers.ReadResult, ghost s': State)
    requires side.Valid() && Good(s) && k + 1 < |s.stages| && Holds(s, k, side.reader.data)
    modifies side.reader
    ensures side.Valid() && Good(s') && Holds(s', k, side.reader.data)
    ensures if r.Data?
            then |r.bytes| <= |s.stages[k]| && s' == Do(s, Move(k, |r.bytes|))
                 && Holds(s', k + 1, Contents(s, k + 1) + r.bytes)
            else s' == s
  {
    ghost var held := side.reader.data;
    r := side.Read(size);
    s' := s;
    if r.Data? {
      assert held[..|r.bytes|] == r.bytes && held[|r.bytes|..] == side.reader.data;
      s' := Do(s, Move(k, |r.bytes|));
      StepKeepsGood(s, Move(k, |r.bytes|));
      StepsMoveBytes(s, Move(k, |r.bytes|), k);
      StepsMoveBytes(s, Move(k, |r.bytes|), k + 1);
    }
  }

  /** A loop writes what it holds at stage k into the buffer at stage k + 1. */
  method WriteStage(side: AudioBuffers.AudioChannelSide, p: Bytes, ghost s: State, ghost k: nat)
    returns (n: nat, status: AudioBuffers.WriteStatus, ghost s': State)
    requires side.Valid() && Good(s) && Holds(s, k, p) && Holds(s, k + 1, side.writer.data)
    modifies side.writer
    ensures side.Valid() && Good(s') && n <= |p| == |s.stages[k]| && s' == Do(s, Move(k, n))
    ensures Holds(s', k, p[n..]) && Holds(s', k + 1, side.writer.data)
    ensures status.Written? ==> n == |p|
  {
    ghost var held := side.writer.data;
    n, status := side.Write(p);
    WriteIsMove(s, k, p, n, held);
    s' := Do(s, Move(k, n));
  }

  /** The first n bytes of what stage k holds go to stage k + 1. */
  lemma WriteIsMove(s: State, k: nat, p: Bytes, n: nat, held: Bytes)
    requires Good(s) && Holds(s, k, p) && Holds(s, k + 1, held) && n <= |p|
    ensures |p| == |s.stages[k]| && Enabled(s, Move(k, n))
    ensures var s' := Do(s, Move(k, n)); Good(s') && Holds(s', k, p[n..]) && Holds(s', k + 1, held + p[..n])
  {
    StepKeepsGood(s, Move(k, n));
    StepsMoveBytes(s, Move(k, n), k);
    StepsMoveBytes(s, Move(k, n), k + 1);
  }

  /** The source of the chain writes into its first buffer. */
  method FeedStage(side: AudioBuffers.AudioChannelSide, p: Bytes, ghost s: State)
    returns (n: nat, status: AudioBuffers.WriteStatus, ghost s': State)
    requires side.Valid() && Good(s) && Holds(s, 0, side.writer.data)
    modifies side.writer
    ensures side.Valid() && Good(s') && n <= |p| && s' == Do(s, Feed(p[..n])) && Holds(s', 0, side.writer.data)
  {
    n, status := side.Write(p);
    s' := Do(s, Feed(p[..n]));
    StepKeepsGood(s, Feed(p[..n]));
    StepsMoveBytes(s, Feed(p[..n]), 0);
  }

  /** ClearReadBuffer undisturbed reports and drops what stage k holds. */
  method ClearStage(side: AudioBuffers.AudioChannelSide, ghost s: State, ghost k: nat)
    returns (n: nat, ghost s': State)
    requires side.Valid() && Good(s) && k + 1 < |s.stages| && Holds(s, k, side.reader.data)
    modifies side.reader
    ensures side.Valid() && Good(s') && n == |s.stages[k]| && s' == Do(s, Clear(k)) && Holds(s', k, side.reader.data)
  {
    n := side.ClearReadBuffer();
    s' := Do(s, Clear(k));
    StepKeepsGood(s, Clear(k));
    StepsMoveBytes(s, Clear(k), k);
  }

  /** A successful write into a loopback at stage k + 1. */
  lemma LoopbackWriteIsStep(m: Loopback.Monitor, p: Bytes, s: State, k: nat)
    requires !m.closed && Good(s) && Holds(s, k, p) && Holds(s, k + 1, m.buf)
    ensures Enabled(s, Move(k, |p|))
    ensures var s' := Do(s, Move(k, |p|));
            Good(s') && Holds(s', k, []) && Holds(s', k + 1, Loopback.AfterWrite(m, p).buf)
  {
    StepKeepsGood(s, Move(k, |p|));
    StepsMoveBytes(s, Move(k, |p|), k);
    StepsMoveBytes(s, Move(k, |p|), k + 1);
  }

  /** A read that returns bytes from a loopback at stage k. */
  lemma LoopbackReadIsStep(m: Loopback.Monitor, size: nat, s: State, k: nat)
    requires Loopback.Outcome(m, size).Data? && Good(s) && k + 1 < |s.stages| && Holds(s, k, m.buf)
    ensures var bytes := Loopback.Outcome(m, size).bytes;
            && Enabled(s, Move(k, |bytes|))
            && var s' := Do(s, Move(k, |bytes|));
            Good(s') && Holds(s', k, Loopback.AfterRead(m, size).buf)
            && Holds(s', k + 1, Contents(s, k + 1) + bytes)
  {
    var bytes := Loopback.Outcome(m, size).bytes;
    StepKeepsGood(s, Move(k, |bytes|));
    StepsMoveBytes(s, Move(k, |bytes|), k);
    StepsMoveBytes(s, Move(k, |bytes|), k + 1);
  }

  // ------------------------------------------------------------ the copy loop as a run

  /** One round of the loop: what others do before its read returns, the result of the read,
      and what others do before its write. */
  datatype Turn = Turn(before: seq<Step>, read: CopyLoop.ReadEvent, during: seq<Step>)

  function ReadsOf(turns: seq<Turn>): seq<CopyLoop.ReadEvent> {
    seq(|turns|, i requires 0 <= i < |turns| => turns[i].read)
  }

  /** Others stay out of the loop's hand at stage h. */
  predicate Avoids(run: seq<Step>, h: nat) {
    forall i | 0 <= i < |run| ::
      match run[i]
      case Feed(_) => h != 0
      case Move(j, _) => j != h && j + 1 != h
      case Clear(j) => j != h
  }

  /** Everybody's steps, in order, while a loop copies from stage k, through its hand, to
      stage k + 2. */
  function Steps(k: nat, turns: seq<Turn>, ws: seq<CopyLoop.WriteEvent>): seq<Step>
    decreases |turns|, 1
  {
    if turns == [] then []
    else
      match turns[0].read
      case Eof => turns[0].before
      case ReadError(text) =>
        if text == CopyLoop.RESET then turns[0].before + Steps(k, turns[1..], ws) else turns[0].before
      case Chunk(_) => turns[0].before + ChunkSteps(k, turns, ws)
  }

  /** From the read of a chunk on. */
  function ChunkSteps(k: nat, turns: seq<Turn>, ws: seq<CopyLoop.WriteEvent>): seq<Step>
    requires turns != [] && turns[0].read.Chunk?
    decreases |turns|, 0
  {
    var data, e := turns[0].read.data, CopyLoop.NextWrite(ws);
    [Move(k, |data|)] + (turns[0].during + ([Move(k + 1, |CopyLoop.Taken(data, e)|)] +
      (if e.WriteError? then [] else Steps(k, turns[1..], CopyLoop.LaterWrites(ws)))))
  }

  /** The script is one the buffers can produce: a chunk read is the front of the buffer. */
  predicate Plays(s: State, k: nat, turns: seq<Turn>, ws: seq<CopyLoop.WriteEvent>)
    decreases |turns|, 1
  {
    turns == [] ||
    (&& Runs(s, turns[0].before) && Avoids(turns[0].before, k + 1)
     && var s1 := After(s, turns[0].before);
     match turns[0].read
     case Eof => true
     case ReadError(text) => text == CopyLoop.RESET ==> Plays(s1, k, turns[1..], ws)
     case Chunk(_) => PlaysChunk(s1, k, turns, ws))
  }

  predicate PlaysChunk(s: State, k: nat, turns: seq<Turn>, ws: seq<CopyLoop.WriteEvent>)
    requires turns != [] && turns[0].read.Chunk?
    decreases |turns|, 0
  {
    var data := turns[0].read.data;
    && k + 2 < |s.stages| && data <= Contents(s, k)
    && var s2 := Do(s, Move(k, |data|));
    && Runs(s2, turns[0].during) && Avoids(turns[0].during, k + 1)
    && var s3 := After(s2, turns[0].during);
    && var st := Move(k + 1, |CopyLoop.Taken(data, CopyLoop.NextWrite(ws))|);
    && (Enabled(s3, st) && CopyLoop.NextWrite(ws).WriteOk? ==>
         Plays(Do(s3, st), k, turns[1..], CopyLoop.LaterWrites(ws)))
  }

  /** The bytes a run hands on from stage j. */
  function Carried(s: State, run: seq<Step>, j: nat): Bytes
    requires Runs(s, run)
    decreases run
  {
    if run == [] then []
    else
      (match run[0]
       case Move(i, n) => if i == j then Contents(s, j)[..n] else []
       case _ => []) + Carried(Do(s, run[0]), run[1..], j)
  }

  lemma {:induction false} CarriedSplits(s: State, run: seq<Step>, more: seq<Step>, j: nat)
    requires Runs(s, run) && Runs(After(s, run), more)
    ensures Runs(s, run + more) && After(s, run + more) == After(After(s, run), more)
    ensures Carried(s, run + more, j) == Carried(s, run, j) + Carried(After(s, run), more, j)
    decreases run
  {
    if run == [] {
      assert run + more == more;
    } else {
      CarriedSplits(Do(s, run[0]), run[1..], more, j);
      assert (run + more)[1..] == run[1..] + more;
    }
  }

  lemma CarriedStep(s: State, st: Step, more: seq<Step>, j: nat)
    requires Enabled(s, st) && Runs(Do(s, st), more)
    ensures Runs(s, [st] + more) && After(s, [st] + more) == After(Do(s, st), more)
    ensures Carried(s, [st] + more, j) ==
            (if st.Move? && st.k == j then Contents(s, j)[..st.n] else []) + Carried(Do(s, st), more, j)
  {
    assert ([st] + more)[1..] == more;
  }

  /** What others do leaves the hand as it is. */
  lemma {:induction false} HandStays(s: State, run: seq<Step>, h: nat)
    requires Good(s) && h < |s.stages| && Runs(s, run) && Avoids(run, h)
    ensures Good(After(s, run)) && |After(s, run).stages| == |s.stages|
    ensures Contents(After(s, run), h) == Contents(s, h) && Carried(s, run, h) == []
    decreases run
  {
    if run != [] {
      StepKeepsGood(s, run[0]);
      StepsMoveBytes(s, run[0], h);
      assert forall i | 0 <= i < |run[1..]| :: run[1..][i] == run[i + 1];
      HandStays(Do(s, run[0]), run[1..], h);
    }
  }

  /** The copy loop between two buffers, whatever else goes on, is a run of the chain, and
      what that run carries out of its hand is what the loop delivers. */
  lemma {:induction false} LoopIsChainRun(s: State, k: nat, turns: seq<Turn>, ws: seq<CopyLoop.WriteEvent>)
    requires Good(s) && k + 2 < |s.stages| && Contents(s, k + 1) == [] && Plays(s, k, turns, ws)
    ensures Runs(s, Steps(k, turns, ws))
    ensures Carried(s, Steps(k, turns, ws), k + 1) == CopyLoop.Copied(ReadsOf(turns), ws).delivered
    decreases |turns|, 1
  {
    if turns != [] {
      var t := turns[0];
      var s1 := After(s, t.before);
      HandStays(s, t.before, k + 1);
      assert ReadsOf(turns)[0] == t.read && ReadsOf(turns)[1..] == ReadsOf(turns[1..]);
      match t.read
      case Eof =>
      case ReadError(text) =>
        if text == CopyLoop.RESET {
          LoopIsChainRun(s1, k, turns[1..], ws);
          CarriedSplits(s, t.before, Steps(k, turns[1..], ws), k + 1);
        }
      case Chunk(_) =>
        ChunkIsChainRun(s1, k, turns, ws);
        CarriedSplits(s, t.before, ChunkSteps(k, turns, ws), k + 1);
    }
  }

  lemma {:induction false} ChunkIsChainRun(s: State, k: nat, turns: seq<Turn>, ws: seq<CopyLoop.WriteEvent>)
    requires turns != [] && turns[0].read.Chunk?
    requires Good(s) && k + 2 < |s.stages| && Contents(s, k + 1) == [] && PlaysChunk(s, k, turns, ws)
    ensures Runs(s, ChunkSteps(k, turns, ws))
    ensures Carried(s, ChunkSteps(k, turns, ws), k + 1) == CopyLoop.Copied(ReadsOf(turns), ws).delivered
    decreases |turns|, 0
  {
    var data, e, during := turns[0].read.data, CopyLoop.NextWrite(ws), turns[0].during;
    var read, write := Move(k, |data|), Move(k + 1, |CopyLoop.Taken(data, e)|);
    var s2 := Do(s, read);
    ReadIntoHand(s, k, data);
    var s3 := After(s2, during);
    HandStays(s2, during, k + 1);
    var s4 := Do(s3, write);
    WriteFromHand(s3, k + 1, data, e);
    var rest := if e.WriteError? then [] else Steps(k, turns[1..], CopyLoop.LaterWrites(ws));
    if e.WriteOk? {
      LoopIsChainRun(s4, k, turns[1..], CopyLoop.LaterWrites(ws));
    }
    CarriedStep(s3, write, rest, k + 1);
    CarriedSplits(s2, during, [write] + rest, k + 1);
    CarriedStep(s, read, during + ([write] + rest), k + 1);
    OneRound(turns, ws);
  }

  lemma ReadIntoHand(s: State, k: nat, data: Bytes)
    requires Good(s) && k + 1 < |s.stages| && Contents(s, k + 1) == [] && data <= Contents(s, k)
    ensures Enabled(s, Move(k, |data|))
    ensures var s' := Do(s, Move(k, |data|));
            Good(s') && |s'.stages| == |s.stages| && Contents(s', k + 1) == data
  {
    StepKeepsGood(s, Move(k, |data|));
    StepsMoveBytes(s, Move(k, |data|), k + 1);
    assert Contents(s, k)[..|data|] == data;
  }

  lemma WriteFromHand(s: State, h: nat, data: Bytes, e: CopyLoop.WriteEvent)
    requires Good(s) && h + 1 < |s.stages| && Contents(s, h) == data
    ensures var n := |CopyLoop.Taken(data, e)|;
            && Enabled(s, Move(h, n)) && Contents(s, h)[..n] == CopyLoop.Taken(data, e)
            && var s' := Do(s, Move(h, n));
            Good(s') && |s'.stages| == |s.stages| && (e.WriteOk? ==> Contents(s', h) == [])
  {
    var n := |CopyLoop.Taken(data, e)|;
    StepKeepsGood(s, Move(h, n));
    StepsMoveBytes(s, Move(h, n), h);
  }

  /** What the loop's account says of a chunk. */
  lemma OneRound(turns: seq<Turn>, ws: seq<CopyLoop.WriteEvent>)
    requires turns != [] && turns[0].read.Chunk?
    ensures var data, e := turns[0].read.data, CopyLoop.NextWrite(ws);
            CopyLoop.Copied(ReadsOf(turns), ws).delivered ==
            CopyLoop.Taken(data, e) +
              (if e.WriteError? then [] else CopyLoop.Copied(ReadsOf(turns[1..]), CopyLoop.LaterWrites(ws)).delivered)
  {
    assert ReadsOf(turns)[0] == turns[0].read && ReadsOf(turns)[1..] == ReadsOf(turns[1..]);
  }
}
