/**
 The loopback monitor (audio/loopback.go): an unbounded buffer behind a mutex, readers
 that wait on a condition variable, and close.
 */
module Loopback {
  import opened Wrappers
  import opened Frames

  /** What the mutex protects, with everything successfully written and everything read
      so far; `eof` says that some read returned io.EOF. */
  datatype Monitor = Monitor(buf: Bytes, closed: bool, written: Bytes, delivered: Bytes, eof: bool)

  function Empty(): Monitor {
    Monitor([], false, [], [], false)
  }

  datatype ReadResult = Wait | Eof | Data(bytes: Bytes)

  function Least(a: nat, b: nat): nat {
    if a < b then a else b
  }

  function AfterWrite(m: Monitor, p: Bytes): Monitor {
    if m.closed then m else m.(buf := m.buf + p, written := m.written + p)
  }

  /** What a reader with a buffer of that size gets when it holds the lock. */
  function Outcome(m: Monitor, size: nat): ReadResult {
    if m.buf != [] then Data(m.buf[..Least(size, |m.buf|)])
    else if m.closed then Eof
    else Wait
  }

  function AfterRead(m: Monitor, size: nat): Monitor {
    match Outcome(m, size)
    case Wait => m
    case Eof => m.(eof := true)
    case Data(bytes) => m.(buf := m.buf[|bytes|..], delivered := m.delivered + bytes)
  }

  predicate MonitorOk(m: Monitor) {
    && m.written == m.delivered + m.buf
    && (m.eof ==> m.closed && m.buf == [])
  }

  class Loopback {
    var buf: Bytes
    var closed: bool
    ghost var written: Bytes
    ghost var delivered: Bytes
    ghost var eof: bool

    ghost function Model(): Monitor
      reads this
    {
      Monitor(buf, closed, written, delivered, eof)
    }

    ghost predicate Valid()
      reads this
    {
      MonitorOk(Model())
    }

    constructor ()
      ensures Valid() && Model() == Empty()
    {
      buf, closed, written, delivered, eof := [], false, [], [], false;
    }

    /** ok is false for io.ErrClosedPipe. */
    method Write(p: Bytes) returns (n: nat, ok: bool)
      requires Valid()
      modifies this
      ensures Valid() && Model() == AfterWrite(old(Model()), p)
      ensures ok == !old(closed) && n == (if ok then |p| else 0)
      ensures closed == old(closed) && buf == (if closed then old(buf) else old(buf) + p)
    {
      if closed {
        return 0, false;
      }
      buf := buf + p;
      written := written + p;
      return |p|, true;
    }

    /** One passage of the read loop with the lock held; Wait sends the reader to the
        condition variable. */
    method Read(size: nat) returns (r: ReadResult)
      requires Valid()
      modifies this
      ensures Valid() && Model() == AfterRead(old(Model()), size)
      ensures r == Outcome(old(Model()), size)
      ensures r.Data? ==> r.bytes + buf == old(buf) && delivered == old(delivered) + r.bytes
      ensures r.Data? ==> |r.bytes| <= size && (|r.bytes| == size || buf == [])
      ensures !r.Data? ==> buf == old(buf) == []
      ensures r.Eof? <==> old(buf) == [] && closed
    {
      if |buf| == 0 && !closed {
        return Wait;
      }
      if |buf| == 0 && closed {
        eof := true;
        return Eof;
      }
      var n := Least(size, |buf|);
      r := Data(buf[..n]);
      delivered := delivered + buf[..n];
      buf := buf[n..];
    }

    method Close()
      requires Valid()
      modifies this
      ensures Valid() && Model() == old(Model()).(closed := true)
    {
      closed := true;
    }
  }

  // ------------------------------------------------------------ readers and wake-ups

  /** A reader is outside, wants the lock (first try, or woken), or waits. */
  datatype Reader = Outside | AtLock(size: nat) | Waiting(size: nat)

  datatype State = State(m: Monitor, readers: seq<Reader>)

  /** `woken` is the waiting reader Signal picks. */
  datatype Step =
    | Write(p: Bytes, woken: Option<nat>)
    | StartRead(r: nat, size: nat)
    | TryRead(r: nat)
    | Close

  function Initial(readers: nat): State {
    State(Empty(), seq(readers, _ => Outside))
  }

  predicate SomeWaiting(s: State) {
    exists r :: 0 <= r < |s.readers| && s.readers[r].Waiting?
  }

  predicate Enabled(s: State, st: Step) {
    match st
    case Write(_, woken) =>
      if SomeWaiting(s) && !s.m.closed
      then woken.Some? && woken.value < |s.readers| && s.readers[woken.value].Waiting?
      else woken == None
    case StartRead(r, _) => r < |s.readers| && s.readers[r].Outside?
    case TryRead(r) => r < |s.readers| && s.readers[r].AtLock?
    case Close => true
  }

  /** Broadcast. */
  function WakeAll(readers: seq<Reader>): seq<Reader> {
    seq(|readers|, r requires 0 <= r < |readers| => if readers[r].Waiting? then AtLock(readers[r].size) else readers[r])
  }

  function Do(s: State, st: Step): State
    requires Enabled(s, st)
  {
    match st
    case Write(p, woken) =>
      State(AfterWrite(s.m, p),
            if woken.Some? then s.readers[woken.value := AtLock(s.readers[woken.value].size)] else s.readers)
    case StartRead(r, size) => s.(readers := s.readers[r := AtLock(size)])
    case TryRead(r) =>
      var size := s.readers[r].size;
      State(AfterRead(s.m, size), s.readers[r := if Outcome(s.m, size).Wait? then Waiting(size) else Outside])
    case Close => State(s.m.(closed := true), WakeAll(s.readers))
  }

  predicate Runs(s: State, run: seq<Step>)
    decreases run
  {
    run == [] || (Enabled(s, run[0]) && Runs(Do(s, run[0]), run[1..]))
  }

  function After(s: State, run: seq<Step>): State
    requires Runs(s, run)
    decreases run
  {
    if run == [] then s else After(Do(s, run[0]), run[1..])
  }

  /** A waiting reader has nothing to wait for any more. */
  predicate Stranded(s: State) {
    SomeWaiting(s) && (s.m.buf != [] || s.m.closed) && forall r | 0 <= r < |s.readers| :: !s.readers[r].AtLock?
  }

  predicate Good(s: State) {
    && MonitorOk(s.m)
    && (s.m.closed ==> !SomeWaiting(s))
    && (|s.readers| == 1 && s.readers[0].Waiting? ==> s.m.buf == [] && !s.m.closed)
  }

  lemma StepKeepsGood(s: State, st: Step)
    requires Good(s) && Enabled(s, st)
    ensures Good(Do(s, st))
  {
  }

  lemma {:induction false} RunKeepsGood(s: State, run: seq<Step>)
    requires Good(s) && Runs(s, run)
    ensures Good(After(s, run)) && |After(s, run).readers| == |s.readers|
    ensures s.m.written <= After(s, run).m.written && s.m.delivered <= After(s, run).m.delivered
    decreases run
  {
    if run != [] {
      StepKeepsGood(s, run[0]);
      RunKeepsGood(Do(s, run[0]), run[1..]);
    }
  }

  /** Over any interleaving of writers and readers: the reads, joined in lock order, are a
      prefix of the successful writes; end of file comes only after close and after
      everything was read; and a single reader is never left waiting for what is there. */
  lemma LoopbackIsFifo(readers: nat, run: seq<Step>)
    requires Runs(Initial(readers), run)
    ensures var s := After(Initial(readers), run);
            && s.m.delivered <= s.m.written
            && s.m.written == s.m.delivered + s.m.buf
            && (s.m.eof ==> s.m.closed && s.m.delivered == s.m.written)
            && |s.readers| == readers
            && (readers == 1 ==> !Stranded(s))
            && (readers == 1 && s.readers[0].Waiting? ==> s.m.buf == [] && !s.m.closed)
  {
    RunKeepsGood(Initial(readers), run);
  }

  predicate Strands(s: State, run: seq<Step>) {
    Runs(s, run) && Stranded(After(s, run))
  }

  /** Some run strands a reader exactly when there is more than one of them. */
  lemma StrandingNeedsTwoReaders(readers: nat)
    ensures (exists run :: Strands(Initial(readers), run)) <==> readers >= 2
  {
    if readers >= 2 {
      var run := TwoReadersCanStrand(readers);
      assert Strands(Initial(readers), run);
    } else {
      forall run | Runs(Initial(readers), run) ensures !Strands(Initial(readers), run) {
        LoopbackIsFifo(readers, run);
      }
    }
  }

  /** With two readers a wake-up can be missing: both wait, one large write wakes one of
      them, it reads a part, and the other waits on although bytes are there. */
  lemma TwoReadersCanStrand(readers: nat) returns (run: seq<Step>)
    requires readers >= 2
    ensures Runs(Initial(readers), run) && Stranded(After(Initial(readers), run))
  {
    var s0 := Initial(readers);
    var s1 := Do(s0, StartRead(0, 1));
    var s2 := Do(s1, TryRead(0));
    var s3 := Do(s2, StartRead(1, 1));
    var s4 := Do(s3, TryRead(1));
    assert s4.readers == s0.readers[0 := Waiting(1)][1 := Waiting(1)];
    assert s4.readers[0].Waiting?;
    var s5 := Do(s4, Write([7, 8], Some(0)));
    var s6 := Do(s5, TryRead(0));
    assert s6.readers == s0.readers[1 := Waiting(1)] && s6.m.buf == [8];
    assert Stranded(s6) by { assert s6.readers[1].Waiting?; }
    var none: seq<Step> := [];
    assert Runs(s6, none) && After(s6, none) == s6;
    run := Prepend(s5, TryRead(0), none);
    run := Prepend(s4, Write([7, 8], Some(0)), run);
    run := Prepend(s3, TryRead(1), run);
    run := Prepend(s2, StartRead(1, 1), run);
    run := Prepend(s1, TryRead(0), run);
    run := Prepend(s0, StartRead(0, 1), run);
  }

  lemma Prepend(s: State, st: Step, rest: seq<Step>) returns (run: seq<Step>)
    requires Enabled(s, st) && Runs(Do(s, st), rest)
    ensures Runs(s, run) && After(s, run) == After(Do(s, st), rest)
  {
    run := [st] + rest;
    assert run[1..] == rest;
  }
}
