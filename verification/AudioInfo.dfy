/**
 Counting audio bytes (audio_observe.go, proto/protov1/audio_info_event.go): an observed
 stream reports byte counts to callbacks, the tracker's callbacks add them to atomic
 64-bit counters, and one dispatcher swaps, accumulates and reports them.
 */
module AudioInfo {
  import opened Wrappers
  import opened Frames
  import opened AudioBuffers

  // ------------------------------------------------------------ the observed stream

  /** Which callbacks of an AudioStreamObserver are set. */
  datatype Observer = Observer(
    onRead: bool,
    onReadError: bool,
    onWrite: bool,
    onWriteError: bool,
    onBufferCleared: bool)

  datatype Callback = OnRead(n: nat) | OnReadError | OnWrite(n: nat) | OnWriteError | OnBufferCleared(n: nat)

  function ReadCallbacks(o: Observer, n: nat, failed: bool): seq<Callback> {
    if failed && o.onReadError then [OnReadError]
    else if o.onRead then [OnRead(n)]
    else []
  }

  function WriteCallbacks(o: Observer, n: nat, failed: bool): seq<Callback> {
    if failed && o.onWriteError then [OnWriteError]
    else if o.onWrite then [OnWrite(n)]
    else []
  }

  class ObservableAudio {
    const ha: AudioChannelSide
    const o: Observer
    var fired: seq<Callback>

    ghost predicate Valid()
      reads this, ha, ha.reader, ha.writer
    {
      ha.Valid()
    }

    constructor (ha: AudioChannelSide, o: Observer)
      requires ha.Valid()
      ensures this.ha == ha && this.o == o && fired == [] && Valid()
    {
      this.ha := ha;
      this.o := o;
      fired := [];
    }

    /** The wrapped stream's result, reported; a read that would block has not returned. */
    method Read(size: nat) returns (r: ReadResult)
      requires Valid()
      modifies this, ha.reader
      ensures Valid()
      ensures r.Eof? <==> old(ha.reader.data) == [] && ha.reader.closed
      ensures r.Data? ==> |r.bytes| == Fits(size, |old(ha.reader.data)|)
      ensures r.Data? ==> r.bytes + ha.reader.data == old(ha.reader.data)
      ensures r.Data? ==> |r.bytes| <= size && (|r.bytes| == size || ha.reader.data == [])
      ensures !r.Data? ==> ha.reader.data == old(ha.reader.data) == []
      ensures fired == old(fired) +
                (match r
                 case WouldBlock => []
                 case Eof => ReadCallbacks(o, 0, true)
                 case Data(bytes) => ReadCallbacks(o, |bytes|, false))
    {
      r := ha.Read(size);
      if r.Eof? && o.onReadError {
        fired := fired + [OnReadError];
      } else if o.onRead && !r.WouldBlock? {
        fired := fired + [OnRead(if r.Data? then |r.bytes| else 0)];
      }
    }

    /** A call that has written p[..from] so far, until it returns or has to wait (again). A
        call that waits has not returned and fires nothing; one that returns reports what it
        wrote in all, as an error if the buffer was closed on it. */
    method Write(p: Bytes, from: nat) returns (n: nat, status: WriteStatus)
      requires Valid() && from <= |p|
      modifies this, ha.writer
      ensures Valid() && from <= n <= |p| && ha.writer.data == old(ha.writer.data) + p[from..n]
      ensures status == WriteOutcome(ha.writer.closed, ha.writer.capacity, |old(ha.writer.data)|, |p| - from)
      ensures status.Written? <==> !ha.writer.closed && n == |p|
      ensures status.Waits? ==> |ha.writer.data| == ha.writer.capacity
      ensures ha.writer.closed ==> status.ClosedError? && n == from
      ensures fired == old(fired) +
                (match status
                 case Waits => []
                 case ClosedError => WriteCallbacks(o, n, true)
                 case Written => WriteCallbacks(o, n, false))
    {
      var more;
      more, status := ha.Write(p[from..]);
      n := from + more;
      assert p[from..][..more] == p[from..n];
      if status.ClosedError? && o.onWriteError {
        fired := fired + [OnWriteError];
      } else if o.onWrite && !status.Waits? {
        fired := fired + [OnWrite(n)];
      }
    }

    method ClearReadBuffer() returns (n: nat)
      requires Valid()
      modifies this, ha.reader
      ensures Valid() && n == |old(ha.reader.data)| && ha.reader.data == []
      ensures fired == old(fired) + (if o.onBufferCleared then [OnBufferCleared(n)] else [])
    {
      n := ha.ClearReadBuffer();
      if o.onBufferCleared {
        fired := fired + [OnBufferCleared(n)];
      }
    }
  }

  /** One returned Read or Write: its byte count and whether it came with an error. */
  datatype Call = Call(n: nat, failed: bool)

  function Total(calls: seq<Call>): nat {
    if calls == [] then 0 else calls[0].n + Total(calls[1..])
  }

  function CountIn(cbs: seq<Callback>): nat {
    if cbs == [] then 0 else (if cbs[0].OnRead? then cbs[0].n else 0) + CountIn(cbs[1..])
  }

  /** What an observer's OnRead is told in all. */
  function Reported(o: Observer, calls: seq<Call>): nat {
    if calls == [] then 0 else CountIn(ReadCallbacks(o, calls[0].n, calls[0].failed)) + Reported(o, calls[1..])
  }

  /** OnRead hears of every byte exactly when no OnReadError takes the place of a call that
      moved bytes; the tracker sets none, so it hears of all of them, failed calls included. */
  lemma {:induction false} OnReadHearsEverythingIff(o: Observer, calls: seq<Call>)
    requires o.onRead
    ensures Reported(o, calls) <= Total(calls)
    ensures Reported(o, calls) == Total(calls) <==>
              !o.onReadError || forall i | 0 <= i < |calls| && calls[i].failed :: calls[i].n == 0
  {
    if calls != [] {
      OnReadHearsEverythingIff(o, calls[1..]);
      var first := ReadCallbacks(o, calls[0].n, calls[0].failed);
      assert CountIn(first) == if calls[0].failed && o.onReadError then 0 else calls[0].n;
      assert forall i | 1 <= i < |calls| :: calls[i] == calls[1..][i - 1];
      assert forall i | 0 <= i < |calls[1..]| :: calls[1..][i] == calls[i + 1];
    }
  }

  function CountOut(cbs: seq<Callback>): nat {
    if cbs == [] then 0 else (if cbs[0].OnWrite? then cbs[0].n else 0) + CountOut(cbs[1..])
  }

  function ReportedWritten(o: Observer, calls: seq<Call>): nat {
    if calls == [] then 0
    else CountOut(WriteCallbacks(o, calls[0].n, calls[0].failed)) + ReportedWritten(o, calls[1..])
  }

  /** The same for writes. */
  lemma {:induction false} OnWriteHearsEverythingIff(o: Observer, calls: seq<Call>)
    requires o.onWrite
    ensures ReportedWritten(o, calls) <= Total(calls)
    ensures ReportedWritten(o, calls) == Total(calls) <==>
              !o.onWriteError || forall i | 0 <= i < |calls| && calls[i].failed :: calls[i].n == 0
  {
    if calls != [] {
      OnWriteHearsEverythingIff(o, calls[1..]);
      var first := WriteCallbacks(o, calls[0].n, calls[0].failed);
      assert CountOut(first) == if calls[0].failed && o.onWriteError then 0 else calls[0].n;
      assert forall i | 1 <= i < |calls| :: calls[i] == calls[1..][i - 1];
      assert forall i | 0 <= i < |calls[1..]| :: calls[1..][i] == calls[i + 1];
    }
  }

  /** The callbacks fired by a sequence of reads, and by one of writes. */
  function ReadsFire(o: Observer, calls: seq<Call>): seq<Callback> {
    if calls == [] then [] else ReadCallbacks(o, calls[0].n, calls[0].failed) + ReadsFire(o, calls[1..])
  }

  function WritesFire(o: Observer, calls: seq<Call>): seq<Callback> {
    if calls == [] then [] else WriteCallbacks(o, calls[0].n, calls[0].failed) + WritesFire(o, calls[1..])
  }

  /** The calls, without those that failed. */
  function Succeeded(calls: seq<Call>): seq<Call> {
    if calls == [] then [] else (if calls[0].failed then [] else [calls[0]]) + Succeeded(calls[1..])
  }

  /** With both callbacks set, each call fires exactly one: OnRead or OnWrite with its count if it
      succeeded, the error callback if it failed. With only OnRead or OnWrite set, each call fires
      that; with only the error callback, each failed call does. */
  lemma {:induction false} EveryCallIsHeard(o: Observer, calls: seq<Call>)
    ensures |ReadsFire(o, calls)| ==
            (if o.onRead then |calls| else if o.onReadError then |calls| - |Succeeded(calls)| else 0)
    ensures |WritesFire(o, calls)| ==
            (if o.onWrite then |calls| else if o.onWriteError then |calls| - |Succeeded(calls)| else 0)
    ensures o.onRead ==> forall i | 0 <= i < |calls| ::
              ReadsFire(o, calls)[i] == if calls[i].failed && o.onReadError then OnReadError else OnRead(calls[i].n)
    ensures o.onWrite ==> forall i | 0 <= i < |calls| ::
              WritesFire(o, calls)[i] == if calls[i].failed && o.onWriteError then OnWriteError else OnWrite(calls[i].n)
    ensures !o.onRead ==> forall cb | cb in ReadsFire(o, calls) :: cb == OnReadError
    ensures !o.onWrite ==> forall cb | cb in WritesFire(o, calls) :: cb == OnWriteError
  {
    if calls != [] {
      EveryCallIsHeard(o, calls[1..]);
    }
  }

  // ----------------------------------------------------------------- the tracker

  /** One direction: the counter observers add to, and the running total. */
  datatype Meter = Meter(pending: int, total: int)

  /** audioInfoItem: the bytes of one interval and the total so far. */
  datatype Item = Item(bytes: int, total: int)

  /** The dispatcher between its atomic operations, with what it has in hand. */
  datatype Pc =
    | Idle
    | SwappedW(bytes: int)
    | AddedW(bytes: int)
    | LoadedW(w: Item)
    | SwappedR(w: Item, bytes: int)
    | AddedR(w: Item, bytes: int)
    | LoadedR(w: Item, r: Item)

  /** One dispatch; `sent` is false when there was no session yet. */
  datatype Report = Report(w: Item, r: Item, sent: bool)

  /** `seenW` and `seenR` record how many bytes were observed in all. */
  datatype State = State(w: Meter, r: Meter, seenW: nat, seenR: nat, pc: Pc, reports: seq<Report>)

  datatype Step = ObserveRead(n: nat) | ObserveWrite(n: nat) | Tick(hasSession: bool)

  predicate Starts(s: State) {
    && s.w.pending == 0 && s.w.total == 0 && s.seenW == 0
    && s.r.pending == 0 && s.r.total == 0 && s.seenR == 0
    && s.pc.Idle? && |s.reports| == 0
  }

  function Do(s: State, st: Step): State {
    match st
    case ObserveRead(n) => s.(r := Meter(s.r.pending + n, s.r.total), seenR := s.seenR + n)
    case ObserveWrite(n) => s.(w := Meter(s.w.pending + n, s.w.total), seenW := s.seenW + n)
    case Tick(hasSession) => DispatchStep(s, hasSession)
  }

  function DispatchStep(s: State, hasSession: bool): State {
    match s.pc
    case Idle => s.(w := s.w.(pending := 0), pc := SwappedW(s.w.pending))
    case SwappedW(n) => s.(w := s.w.(total := s.w.total + n), pc := AddedW(n))
    case AddedW(n) => s.(pc := LoadedW(Item(n, s.w.total)))
    case LoadedW(w) => s.(r := s.r.(pending := 0), pc := SwappedR(w, s.r.pending))
    case SwappedR(w, n) => s.(r := s.r.(total := s.r.total + n), pc := AddedR(w, n))
    case AddedR(w, n) => s.(pc := LoadedR(w, Item(n, s.r.total)))
    case LoadedR(w, r) => s.(pc := Idle, reports := s.reports + [Report(w, r, hasSession)])
  }

  function After(s: State, run: seq<Step>): State
    decreases run
  {
    if run == [] then s else After(Do(s, run[0]), run[1..])
  }

  /** Swapped out but not yet added. */
  function InHandW(pc: Pc): int {
    match pc
    case SwappedW(n) => n
    case _ => 0
  }

  function InHandR(pc: Pc): int {
    match pc
    case SwappedR(_, n) => n
    case _ => 0
  }

  predicate CountOk(s: State) {
    && s.w.pending >= 0 && s.r.pending >= 0
    && s.w.pending + InHandW(s.pc) + s.w.total == s.seenW
    && s.r.pending + InHandR(s.pc) + s.r.total == s.seenR
  }

  /** The totals after the first n reports. */
  function WtAfter(reports: seq<Report>, n: nat): int
    requires n <= |reports|
  {
    if n == 0 then 0 else reports[n - 1].w.total
  }

  function RtAfter(reports: seq<Report>, n: nat): int
    requires n <= |reports|
  {
    if n == 0 then 0 else reports[n - 1].r.total
  }

  predicate ReportOk(reports: seq<Report>, i: nat)
    requires i < |reports|
  {
    && reports[i].w.bytes >= 0 && reports[i].r.bytes >= 0
    && reports[i].w.total == WtAfter(reports, i) + reports[i].w.bytes
    && reports[i].r.total == RtAfter(reports, i) + reports[i].r.bytes
  }

  predicate ItemOk(x: Item, m: Meter, before: int) {
    x.bytes >= 0 && x.total == m.total && m.total == before + x.bytes
  }

  /** The totals are those of the last report, plus what the dispatch under way has added. */
  predicate TotalsOk(s: State) {
    var wt, rt := WtAfter(s.reports, |s.reports|), RtAfter(s.reports, |s.reports|);
    && (match s.pc
        case Idle => s.w.total == wt && s.r.total == rt
        case SwappedW(n) => n >= 0 && s.w.total == wt && s.r.total == rt
        case AddedW(n) => n >= 0 && s.w.total == wt + n && s.r.total == rt
        case LoadedW(w) => ItemOk(w, s.w, wt) && s.r.total == rt
        case SwappedR(w, n) => ItemOk(w, s.w, wt) && n >= 0 && s.r.total == rt
        case AddedR(w, n) => ItemOk(w, s.w, wt) && n >= 0 && s.r.total == rt + n
        case LoadedR(w, r) => ItemOk(w, s.w, wt) && ItemOk(r, s.r, rt))
    && forall i | 0 <= i < |s.reports| :: ReportOk(s.reports, i)
  }

  predicate Good(s: State) {
    CountOk(s) && TotalsOk(s)
  }

  lemma ReportKeepsTotals(s: State, hasSession: bool)
    requires TotalsOk(s) && s.pc.LoadedR?
    ensures TotalsOk(DispatchStep(s, hasSession))
  {
    var s' := DispatchStep(s, hasSession);
    forall i | 0 <= i < |s'.reports| ensures ReportOk(s'.reports, i) {
      if i < |s.reports| {
        assert ReportOk(s.reports, i);
      }
    }
  }

  lemma StepKeepsGood(s: State, st: Step)
    requires Good(s)
    ensures Good(Do(s, st))
  {
    if st.Tick? && s.pc.LoadedR? {
      ReportKeepsTotals(s, st.hasSession);
    }
  }

  lemma StartIsGood(s: State)
    requires Starts(s)
    ensures Good(s)
  {
  }

  lemma {:induction false} RunKeepsGood(s: State, run: seq<Step>)
    requires Good(s)
    ensures Good(After(s, run))
    decreases run
  {
    if run != [] {
      StepKeepsGood(s, run[0]);
      RunKeepsGood(Do(s, run[0]), run[1..]);
    }
  }

  function ReadBytes(run: seq<Step>): nat {
    if run == [] then 0 else (if run[0].ObserveRead? then run[0].n else 0) + ReadBytes(run[1..])
  }

  function WriteBytes(run: seq<Step>): nat {
    if run == [] then 0 else (if run[0].ObserveWrite? then run[0].n else 0) + WriteBytes(run[1..])
  }

  lemma {:induction false} ObservedIsSum(s: State, run: seq<Step>)
    ensures After(s, run).seenR == s.seenR + ReadBytes(run)
    ensures After(s, run).seenW == s.seenW + WriteBytes(run)
    decreases run
  {
    if run != [] {
      ObservedIsSum(Do(s, run[0]), run[1..]);
    }
  }

  function SumW(reports: seq<Report>): int {
    if reports == [] then 0 else SumW(reports[..|reports| - 1]) + reports[|reports| - 1].w.bytes
  }

  function SumR(reports: seq<Report>): int {
    if reports == [] then 0 else SumR(reports[..|reports| - 1]) + reports[|reports| - 1].r.bytes
  }

  lemma {:induction false} TotalsAreSums(reports: seq<Report>, n: nat)
    requires n <= |reports| && forall i | 0 <= i < |reports| :: ReportOk(reports, i)
    ensures WtAfter(reports, n) == SumW(reports[..n]) && RtAfter(reports, n) == SumR(reports[..n])
  {
    if n > 0 {
      TotalsAreSums(reports, n - 1);
      assert reports[..n][..n - 1] == reports[..n - 1];
      assert ReportOk(reports, n - 1);
    }
  }

  lemma {:induction false} TotalsRise(reports: seq<Report>, i: nat, j: nat)
    requires i <= j < |reports| && forall k | 0 <= k < |reports| :: ReportOk(reports, k)
    ensures reports[i].w.total <= reports[j].w.total && reports[i].r.total <= reports[j].r.total
    decreases j
  {
    if i < j {
      TotalsRise(reports, i, j - 1);
      assert ReportOk(reports, j);
    }
  }

  // ------------------------------------------------------------- the main results

  /** At every point of every interleaving of observers with the dispatcher: pending,
      swapped-but-not-added and total add up to all bytes observed. */
  lemma BytesAreConserved(start: State, run: seq<Step>)
    requires Starts(start)
    ensures var s := After(start, run);
            && s.r.pending + InHandR(s.pc) + s.r.total == ReadBytes(run)
            && s.w.pending + InHandW(s.pc) + s.w.total == WriteBytes(run)
  {
    StartIsGood(start);
    RunKeepsGood(start, run);
    ObservedIsSum(start, run);
  }

  /** Each report's total is the sum of the bytes of all reports up to it, sent or not, and
      never decreases. */
  lemma TotalsAreRunningSums(start: State, run: seq<Step>, i: nat, j: nat)
    requires Starts(start) && i <= j < |After(start, run).reports|
    ensures var reports := After(start, run).reports;
            && reports[i].w.total == SumW(reports[..i + 1]) && reports[i].r.total == SumR(reports[..i + 1])
            && reports[i].w.total <= reports[j].w.total && reports[i].r.total <= reports[j].r.total
  {
    StartIsGood(start);
    RunKeepsGood(start, run);
    var reports := After(start, run).reports;
    TotalsAreSums(reports, i + 1);
    TotalsRise(reports, i, j);
  }

  // ------------------------------------------------------------------ 64 bits

  /** Two's complement, 64 bits wide. */
  function Wrap64(x: int): int {
    (x + 0x8000_0000_0000_0000) % 0x1_0000_0000_0000_0000 - 0x8000_0000_0000_0000
  }

  lemma WrapAbsorbs(a: int, b: int)
    ensures Wrap64(Wrap64(a) + b) == Wrap64(a + b)
    ensures Wrap64(Wrap64(a) + Wrap64(b)) == Wrap64(a + b)
  {
  }

  /** The one number in 64 bits that differs from a by a multiple of two to the 64. */
  lemma WrapIsInt64(a: int)
    ensures -0x8000_0000_0000_0000 <= Wrap64(a) < 0x8000_0000_0000_0000
    ensures (Wrap64(a) - a) % 0x1_0000_0000_0000_0000 == 0
  {
  }

  lemma WrapFits(a: int)
    requires -0x8000_0000_0000_0000 <= a < 0x8000_0000_0000_0000
    ensures Wrap64(a) == a
  {
  }

  lemma StartShowsZero(s: State)
    requires Starts(s)
    ensures Good(s) && s.pc == Idle
    ensures Wrap64(s.w.pending) == Wrap64(s.w.total) == 0 && Wrap64(s.r.pending) == Wrap64(s.r.total) == 0
  {
    StartIsGood(s);
    WrapFits(s.w.pending);
    WrapFits(s.w.total);
    WrapFits(s.r.pending);
    WrapFits(s.r.total);
  }

  class AudioInfoTracker {
    var w: int
    var wt: int
    var r: int
    var rt: int
    ghost var model: State

    /** The counters show the model's numbers, 64 bits wide. */
    ghost predicate Valid()
      reads this
    {
      && Good(model) && model.pc == Idle
      && w == Wrap64(model.w.pending) && wt == Wrap64(model.w.total)
      && r == Wrap64(model.r.pending) && rt == Wrap64(model.r.total)
    }

    /** All counters at zero. */
    constructor (ghost start: State)
      requires Starts(start)
      ensures Valid() && model == start
    {
      StartShowsZero(start);
      w, wt, r, rt := 0, 0, 0, 0;
      model := start;
    }

    method OnRead(n: nat)
      requires Valid()
      modifies this
      ensures Valid() && model == Do(old(model), ObserveRead(n))
    {
      WrapAbsorbs(model.r.pending, n);
      r := Wrap64(r + n);
      StepKeepsGood(model, ObserveRead(n));
      model := Do(model, ObserveRead(n));
    }

    method OnWrite(n: nat)
      requires Valid()
      modifies this
      ensures Valid() && model == Do(old(model), ObserveWrite(n))
    {
      WrapAbsorbs(model.w.pending, n);
      w := Wrap64(w + n);
      StepKeepsGood(model, ObserveWrite(n));
      model := Do(model, ObserveWrite(n));
    }

    /** A dispatch nobody interrupts: the model's seven ticks, whose report it sends if
        there is a session; in 63 bits the event shows the model's numbers. */
    method Dispatch(hasSession: bool) returns (event: Option<Report>)
      requires Valid()
      modifies this
      ensures Valid() && model == Dispatched(old(model), hasSession)
      ensures w == 0 && r == 0
      ensures event == if hasSession then Some(Report(Item(old(w), wt), Item(old(r), rt), true)) else None
    {
      var w0 := w;
      w := 0;
      WrapAbsorbs(model.w.total, model.w.pending);
      wt := Wrap64(wt + w0);
      var total := wt;
      var r0 := r;
      r := 0;
      WrapAbsorbs(model.r.total, model.r.pending);
      rt := Wrap64(rt + r0);
      WrapFits(0);
      SevenTicks(model, hasSession);
      RunKeepsGood(model, OneDispatch(hasSession));
      model := Dispatched(model, hasSession);
      event := if hasSession then Some(Report(Item(w0, total), Item(r0, rt), true)) else None;
    }
  }

  function OneDispatch(hasSession: bool): seq<Step> {
    var t := Tick(hasSession);
    [t, t, t, t, t, t, t]
  }

  function Dispatched(s: State, hasSession: bool): State {
    var wt, rt := s.w.total + s.w.pending, s.r.total + s.r.pending;
    s.(w := Meter(0, wt), r := Meter(0, rt), pc := Idle,
       reports := s.reports + [Report(Item(s.w.pending, wt), Item(s.r.pending, rt), hasSession)])
  }

  lemma OneTick(s: State, hasSession: bool, rest: seq<Step>)
    ensures After(s, [Tick(hasSession)] + rest) == After(DispatchStep(s, hasSession), rest)
  {
    assert ([Tick(hasSession)] + rest)[1..] == rest;
  }

  lemma SevenTicks(s: State, hasSession: bool)
    requires s.pc == Idle
    ensures After(s, OneDispatch(hasSession)) == Dispatched(s, hasSession)
  {
    var t := Tick(hasSession);
    var s1 := DispatchStep(s, hasSession);
    var s2 := DispatchStep(s1, hasSession);
    var s3 := DispatchStep(s2, hasSession);
    OneTick(s, hasSession, [t, t, t, t, t, t]);
    OneTick(s1, hasSession, [t, t, t, t, t]);
    OneTick(s2, hasSession, [t, t, t, t]);
    assert [t] + [t, t, t, t, t, t] == OneDispatch(hasSession);
    assert [t] + [t, t, t, t, t] == [t, t, t, t, t, t];
    assert [t] + [t, t, t, t] == [t, t, t, t, t];
    LastFourTicks(s3, hasSession);
  }

  /** From the loaded write counter on. */
  lemma LastFourTicks(s: State, hasSession: bool)
    requires s.pc.LoadedW?
    ensures var t, rt := Tick(hasSession), s.r.total + s.r.pending;
            After(s, [t, t, t, t]) ==
            s.(r := Meter(0, rt), pc := Idle,
               reports := s.reports + [Report(s.pc.w, Item(s.r.pending, rt), hasSession)])
  {
    var t := Tick(hasSession);
    var s1 := DispatchStep(s, hasSession);
    var s2 := DispatchStep(s1, hasSession);
    var s3 := DispatchStep(s2, hasSession);
    OneTick(s, hasSession, [t, t, t]);
    OneTick(s1, hasSession, [t, t]);
    OneTick(s2, hasSession, [t]);
    OneTick(s3, hasSession, []);
    assert [t] + [t, t, t] == [t, t, t, t];
    assert [t] + [t, t] == [t, t, t] && [t] + [t] == [t, t] && [t] + [] == [t];
  }
}
