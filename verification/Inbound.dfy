/**
 The inbound side of the WebSocket transport (transport/ws/transport.go,
 transport/ws/control.go): socket reader, msgInChan, dispatcher, control channel and
 audio, with the mutex of the control channel contended by the dispatcher, by writers
 of the session and by the closing goroutine.
 */
module Inbound {
  import opened Frames

  datatype Owner = Nobody | Dispatcher | Writer | Closer

  datatype DispatcherPc =
    | Idle                    // at the select of the loop
    | Got(frame: Frame)       // received a message
    | Checking(data: Bytes)   // in writeIn, holding cc.mu, about to look at cc.closed
    | Sending(data: Bytes)    // cc was open; about to send on cc.input, still holding cc.mu
    | Stopped

  datatype CloserPc = Away | Marking | Closing | Unlocking | Gone

  /** controlChannel. `closes` counts executions of close(cc.input). */
  datatype Control = Control(owner: Owner, closed: bool, closes: nat, input: seq<Bytes>, closer: CloserPc)

  datatype State = State(
    read: seq<Frame>,        // everything ReadMessage returned
    hand: seq<Frame>,        // the reader's message on its way into msgInChan, if any
    readerStopped: bool,
    msgIn: seq<Frame>,       // msgInChan
    dispatcher: DispatcherPc,
    cc: Control,
    received: seq<Bytes>,    // what the session took from ReadChan
    audio: Bytes)            // what audio.Write took

  datatype Step =
    | ReadFrame(f: Frame)
    | ReadFails
    | PushIn
    | TakeIn
    | LockIn
    | CheckIn
    | SendIn
    | WriteAudio(n: nat, ok: bool)
    | IgnoreControl
    | DispatcherStops
    | WriterLocks
    | WriterUnlocks
    | CloserLocks
    | CloserMarks
    | CloserCloses
    | CloserUnlocks
    | SessionReceives

  function Initial(): State {
    State([], [], false, [], Idle, Control(Nobody, false, 0, [], Away), [], [])
  }

  predicate Enabled(s: State, st: Step) {
    match st
    case ReadFrame(_) => !s.readerStopped && s.hand == []
    case ReadFails => !s.readerStopped && s.hand == []
    case PushIn => s.hand != [] && |s.msgIn| < CAPACITY
    case TakeIn => s.dispatcher == Idle && s.msgIn != []
    case LockIn => s.dispatcher.Got? && s.dispatcher.frame.kind == Text && s.cc.owner == Nobody
    case CheckIn => s.dispatcher.Checking?
    case SendIn => s.dispatcher.Sending? && |s.cc.input| < CAPACITY
    case WriteAudio(n, ok) =>
      s.dispatcher.Got? && s.dispatcher.frame.kind == Binary && n <= |s.dispatcher.frame.data| &&
      (ok ==> n == |s.dispatcher.frame.data|)
    case IgnoreControl => s.dispatcher.Got? && s.dispatcher.frame.kind != Text && s.dispatcher.frame.kind != Binary
    case DispatcherStops => s.dispatcher == Idle
    case WriterLocks => s.cc.owner == Nobody
    case WriterUnlocks => s.cc.owner == Writer
    case CloserLocks => s.cc.owner == Nobody && s.cc.closer == Away
    case CloserMarks => s.cc.closer == Marking
    case CloserCloses => s.cc.closer == Closing
    case CloserUnlocks => s.cc.closer == Unlocking
    case SessionReceives => s.cc.input != []
  }

  function Do(s: State, st: Step): State
    requires Enabled(s, st)
  {
    match st
    case ReadFrame(f) => s.(read := s.read + [f], hand := [f])
    case ReadFails => s.(readerStopped := true)
    case PushIn => s.(hand := [], msgIn := s.msgIn + s.hand)
    case TakeIn => s.(dispatcher := Got(s.msgIn[0]), msgIn := s.msgIn[1..])
    case LockIn => s.(dispatcher := Checking(s.dispatcher.frame.data), cc := s.cc.(owner := Dispatcher))
    case CheckIn =>
      if s.cc.closed then s.(dispatcher := Stopped, cc := s.cc.(owner := Nobody))
      else s.(dispatcher := Sending(s.dispatcher.data))
    case SendIn =>
      s.(dispatcher := Idle, cc := s.cc.(owner := Nobody, input := s.cc.input + [s.dispatcher.data]))
    case WriteAudio(n, ok) =>
      s.(dispatcher := if ok then Idle else Stopped, audio := s.audio + s.dispatcher.frame.data[..n])
    case IgnoreControl => s.(dispatcher := Idle)
    case DispatcherStops => s.(dispatcher := Stopped)
    case WriterLocks => s.(cc := s.cc.(owner := Writer))
    case WriterUnlocks => s.(cc := s.cc.(owner := Nobody))
    case CloserLocks => s.(cc := s.cc.(owner := Closer, closer := Marking))
    case CloserMarks => s.(cc := s.cc.(closed := true, closer := Closing))
    case CloserCloses => s.(cc := s.cc.(closes := s.cc.closes + 1, closer := Unlocking))
    case CloserUnlocks => s.(cc := s.cc.(owner := Nobody, closer := Gone))
    case SessionReceives => s.(cc := s.cc.(input := s.cc.input[1..]), received := s.received + [s.cc.input[0]])
  }

  predicate Runs(s: State, run: seq<Step>)
    decreases run
  {
    run == [] || (Enabled(s, run[0]) && Runs(Do(s, run[0]), run[1..]))
  }

  function After(s: State, run: seq<Step>): State
    requires Runs(s, run)
    decreases run
  {
    if run == [] then s else After(Do(s, run[0]), run[1..])
  }

  // -------------------------------------------------------------- the invariant

  /** cc.mu: who holds it, and what that implies about the channel. */
  predicate LockOk(s: State) {
    && ((s.dispatcher.Checking? || s.dispatcher.Sending?) <==> s.cc.owner == Dispatcher)
    && ((s.cc.closer == Marking || s.cc.closer == Closing || s.cc.closer == Unlocking) <==> s.cc.owner == Closer)
    && s.cc.closed == (s.cc.closer != Away && s.cc.closer != Marking)
    && s.cc.closes == (if s.cc.closer == Unlocking || s.cc.closer == Gone then 1 else 0)
    && (s.dispatcher.Sending? ==> !s.cc.closed)
    && |s.cc.input| <= CAPACITY
  }

  /** What the dispatcher has in hand of one kind. */
  function InHand(d: DispatcherPc, kind: Kind): seq<Bytes> {
    match d
    case Got(f) => if f.kind == kind then [f.data] else []
    case Checking(data) => if kind == Text then [data] else []
    case Sending(data) => if kind == Text then [data] else []
    case _ => []
  }

  /** The part of one kind still on its way. */
  function Upstream(s: State, kind: Kind): seq<Bytes> {
    InHand(s.dispatcher, kind) + Select(s.msgIn, kind) + Select(s.hand, kind)
  }

  predicate FifoOk(s: State) {
    var texts := Select(s.read, Text);
    var bytes := Flatten(Select(s.read, Binary));
    && |s.hand| <= 1
    && (if s.dispatcher == Stopped
        then s.received + s.cc.input <= texts && s.audio <= bytes
        else
          && texts == s.received + s.cc.input + Upstream(s, Text)
          && bytes == s.audio + Flatten(Upstream(s, Binary)))
  }

  predicate Good(s: State) {
    LockOk(s) && FifoOk(s)
  }

  lemma StepKeepsLock(s: State, st: Step)
    requires LockOk(s) && Enabled(s, st)
    ensures LockOk(Do(s, st))
  {
  }

  /** Taking a message off the head of msgInChan leaves what is on its way as it was. */
  lemma TakeKeepsUpstream(s: State, kind: Kind)
    requires Enabled(s, TakeIn)
    ensures Upstream(Do(s, TakeIn), kind) == Upstream(s, kind)
  {
    var head := InHand(Got(s.msgIn[0]), kind);
    assert Select(s.msgIn, kind) == head + Select(s.msgIn[1..], kind);
  }

  lemma PushKeepsUpstream(s: State, kind: Kind)
    requires Enabled(s, PushIn)
    ensures Upstream(Do(s, PushIn), kind) == Upstream(s, kind)
  {
    SelectSplits(s.msgIn, s.hand, kind);
  }

  lemma ReadExtendsUpstream(s: State, f: Frame, kind: Kind)
    requires Enabled(s, ReadFrame(f))
    ensures Select(Do(s, ReadFrame(f)).read, kind) == Select(s.read, kind) + Select([f], kind)
    ensures Upstream(Do(s, ReadFrame(f)), kind) == Upstream(s, kind) + Select([f], kind)
  {
    SelectSplits(s.read, [f], kind);
  }

  lemma StepKeepsFifo(s: State, st: Step)
    requires Good(s) && Enabled(s, st)
    ensures FifoOk(Do(s, st))
  {
    match st
    case ReadFrame(f) => ReadKeepsFifo(s, f);
    case PushIn => PushKeepsFifo(s);
    case TakeIn => TakeKeepsFifo(s);
    case CheckIn => StopKeepsFifo(s, st);
    case DispatcherStops => StopKeepsFifo(s, st);
    case WriteAudio(n, ok) => AudioKeepsFifo(s, n, ok);
    case SessionReceives =>
      assert s.received + [s.cc.input[0]] + s.cc.input[1..] == s.received + s.cc.input;
    case SendIn => SendKeepsFifo(s);
    case _ => QuietKeepsFifo(s, Do(s, st));
  }

  /** A step that moves no message. */
  lemma QuietKeepsFifo(s: State, s': State)
    requires FifoOk(s)
    requires s' == s.(readerStopped := s'.readerStopped, dispatcher := s'.dispatcher, cc := s'.cc)
    requires s'.cc.input == s.cc.input && (s'.dispatcher == Stopped <==> s.dispatcher == Stopped)
    requires InHand(s'.dispatcher, Text) == InHand(s.dispatcher, Text)
    requires InHand(s'.dispatcher, Binary) == InHand(s.dispatcher, Binary)
    ensures FifoOk(s')
  {
  }

  lemma SendKeepsFifo(s: State)
    requires FifoOk(s) && Enabled(s, SendIn)
    ensures FifoOk(Do(s, SendIn))
  {
    var s' := Do(s, SendIn);
    var data := s.dispatcher.data;
    assert Upstream(s, Text) == [data] + Upstream(s', Text);
    assert Upstream(s, Binary) == Upstream(s', Binary);
    assert s.received + s.cc.input + ([data] + Upstream(s', Text))
        == s.received + (s.cc.input + [data]) + Upstream(s', Text);
  }

  lemma PushKeepsFifo(s: State)
    requires FifoOk(s) && Enabled(s, PushIn)
    ensures FifoOk(Do(s, PushIn))
  {
    PushKeepsUpstream(s, Text);
    PushKeepsUpstream(s, Binary);
  }

  lemma TakeKeepsFifo(s: State)
    requires FifoOk(s) && Enabled(s, TakeIn)
    ensures FifoOk(Do(s, TakeIn))
  {
    TakeKeepsUpstream(s, Text);
    TakeKeepsUpstream(s, Binary);
  }

  lemma ReadKeepsFifo(s: State, f: Frame)
    requires FifoOk(s) && Enabled(s, ReadFrame(f))
    ensures FifoOk(Do(s, ReadFrame(f)))
  {
    ReadExtendsUpstream(s, f, Text);
    ReadExtendsUpstream(s, f, Binary);
    FlattenSplits(Select(s.read, Binary), Select([f], Binary));
    FlattenSplits(Upstream(s, Binary), Select([f], Binary));
  }

  lemma StopKeepsFifo(s: State, st: Step)
    requires FifoOk(s) && Enabled(s, st) && (st == CheckIn || st == DispatcherStops)
    ensures FifoOk(Do(s, st))
  {
  }

  lemma AudioKeepsFifo(s: State, n: nat, ok: bool)
    requires FifoOk(s) && Enabled(s, WriteAudio(n, ok))
    ensures FifoOk(Do(s, WriteAudio(n, ok)))
  {
    var data := s.dispatcher.frame.data;
    var rest := Select(s.msgIn, Binary) + Select(s.hand, Binary);
    assert Upstream(s, Binary) == [data] + rest;
    assert ([data] + rest)[1..] == rest;
    assert Flatten(Upstream(s, Binary)) == data + Flatten(rest);
    assert data == data[..n] + data[n..];
    if ok {
      assert Upstream(Do(s, WriteAudio(n, ok)), Binary) == rest;
    }
  }

  lemma {:induction false} RunKeepsGood(s: State, run: seq<Step>)
    requires Good(s) && Runs(s, run)
    ensures Good(After(s, run))
    decreases run
  {
    if run != [] {
      StepKeepsLock(s, run[0]);
      StepKeepsFifo(s, run[0]);
      RunKeepsGood(Do(s, run[0]), run[1..]);
    }
  }

  lemma ReachableIsGood(run: seq<Step>)
    requires Runs(Initial(), run)
    ensures Good(After(Initial(), run))
  {
    RunKeepsGood(Initial(), run);
  }

  // ------------------------------------------------------------- the main results

  /** The pipeline refines one FIFO: the session receives a prefix of the text frames
      read from the socket, and the audio buffer a prefix of the bytes of the binary
      ones, in order and without duplicates. */
  lemma PipelineIsFifo(run: seq<Step>)
    requires Runs(Initial(), run)
    ensures var s := After(Initial(), run);
            s.received <= Select(s.read, Text) && s.audio <= Flatten(Select(s.read, Binary))
  {
    ReachableIsGood(run);
  }

  /** Nothing is lost while the dispatcher lives. */
  lemma NothingLostWhileRunning(run: seq<Step>)
    requires Runs(Initial(), run) && After(Initial(), run).dispatcher != Stopped
    ensures var s := After(Initial(), run);
            && Select(s.read, Text) == s.received + s.cc.input + Upstream(s, Text)
            && Flatten(Select(s.read, Binary)) == s.audio + Flatten(Upstream(s, Binary))
  {
    ReachableIsGood(run);
  }

  /** No run sends on the closed control channel or closes it twice, and whoever is
      inside the mutex is alone there. */
  lemma NoSendOnClosed(run: seq<Step>)
    requires Runs(Initial(), run)
    ensures var s := After(Initial(), run);
            && (Enabled(s, SendIn) ==> s.cc.closes == 0 && !s.cc.closed)
            && (Enabled(s, CloserCloses) ==> s.cc.closes == 0)
            && s.cc.closes <= 1
            && !(s.dispatcher.Sending? && s.cc.owner == Writer)
            && !(s.dispatcher.Sending? && s.cc.closer == Closing)
  {
    ReachableIsGood(run);
  }

  // ------------------------------------------------------------ why the dispatcher stops

  /** It left its loop at the select (context or doneChan), or audio refused a message. */
  predicate ToldToStop(run: seq<Step>) {
    exists i :: 0 <= i < |run| && (run[i] == DispatcherStops || (run[i].WriteAudio? && !run[i].ok))
  }

  lemma StepStops(s: State, st: Step)
    requires Enabled(s, st) && LockOk(s) && s.dispatcher != Stopped && Do(s, st).dispatcher == Stopped
    ensures st == DispatcherStops || (st.WriteAudio? && !st.ok) || Do(s, st).cc.closed
  {
  }

  lemma {:induction false} ClosedStays(s: State, run: seq<Step>)
    requires Runs(s, run) && s.cc.closed
    ensures After(s, run).cc.closed
    decreases run
  {
    if run != [] {
      assert Do(s, run[0]).cc.closed;
      ClosedStays(Do(s, run[0]), run[1..]);
    }
  }

  /** The dispatcher stops only when told to, when audio refuses a message, or when it finds
      the control channel closed. */
  lemma {:induction false} WhyItStops(s: State, run: seq<Step>)
    requires Good(s) && Runs(s, run) && s.dispatcher != Stopped && After(s, run).dispatcher == Stopped
    ensures ToldToStop(run) || After(s, run).cc.closed
    decreases run
  {
    if run != [] {
      var s' := Do(s, run[0]);
      StepKeepsLock(s, run[0]);
      StepKeepsFifo(s, run[0]);
      if s'.dispatcher == Stopped {
        StepStops(s, run[0]);
        if s'.cc.closed {
          ClosedStays(s', run[1..]);
        } else {
          assert run[0] == DispatcherStops || (run[0].WriteAudio? && !run[0].ok);
        }
      } else {
        WhyItStops(s', run[1..]);
        if ToldToStop(run[1..]) {
          var rest := run[1..];
          var j :| 0 <= j < |rest| && (rest[j] == DispatcherStops || (rest[j].WriteAudio? && !rest[j].ok));
          assert run[j + 1] == rest[j];
        }
      }
    }
  }

  /** Told to stop or refused, it stops for good, and hands on nothing any more. */
  lemma {:induction false} StopsForGood(s: State, run: seq<Step>)
    requires Runs(s, run)
    ensures s.dispatcher == Stopped || ToldToStop(run) ==> After(s, run).dispatcher == Stopped
    ensures s.dispatcher == Stopped ==>
              && After(s, run).received + After(s, run).cc.input == s.received + s.cc.input
              && After(s, run).audio == s.audio
    decreases run
  {
    if run != [] {
      var s' := Do(s, run[0]);
      StopsForGood(s', run[1..]);
      if run[0].SessionReceives? {
        assert s'.received + s'.cc.input == s.received + s.cc.input;
      }
      if ToldToStop(run) && s'.dispatcher != Stopped {
        var i :| 0 <= i < |run| && (run[i] == DispatcherStops || (run[i].WriteAudio? && !run[i].ok));
        assert run[1..][i - 1] == run[i];
      }
    }
  }

  /** So in every run without these nothing is lost. */
  lemma NothingLostUnlessStopped(run: seq<Step>)
    requires Runs(Initial(), run) && !ToldToStop(run) && !After(Initial(), run).cc.closed
    ensures var s := After(Initial(), run);
            && s.dispatcher != Stopped
            && Select(s.read, Text) == s.received + s.cc.input + Upstream(s, Text)
            && Flatten(Select(s.read, Binary)) == s.audio + Flatten(Upstream(s, Binary))
  {
    ReachableIsGood(run);
    if After(Initial(), run).dispatcher == Stopped {
      WhyItStops(Initial(), run);
    }
  }

  /** What was read is what the run read, and a failed read is the last one. */
  lemma {:induction false} ReaderEndsAsRun(s: State, run: seq<Step>)
    requires Runs(s, run)
    ensures After(s, run).read == s.read + FramesOf(run)
    ensures After(s, run).readerStopped <==> s.readerStopped || ReadFails in run
    ensures s.readerStopped ==> FramesOf(run) == []
    decreases run
  {
    if run != [] {
      ReaderEndsAsRun(Do(s, run[0]), run[1..]);
      if run[0].ReadFrame? {
        assert s.read + ([run[0].f] + FramesOf(run[1..])) == s.read + [run[0].f] + FramesOf(run[1..]);
      } else {
        assert [] + FramesOf(run[1..]) == FramesOf(run[1..]);
      }
    }
  }

  function FramesOf(run: seq<Step>): seq<Frame> {
    if run == [] then [] else (if run[0].ReadFrame? then [run[0].f] else []) + FramesOf(run[1..])
  }

  function WriterHolds(run: seq<Step>): int {
    if run == [] then 0
    else (if run[0].WriterLocks? then 1 else if run[0].WriterUnlocks? then -1 else 0) + WriterHolds(run[1..])
  }

  /** A writer holds the mutex from its lock to its unlock, and nobody takes it away. */
  lemma {:induction false} WriterKeepsMutex(s: State, run: seq<Step>)
    requires LockOk(s) && Runs(s, run)
    ensures (if After(s, run).cc.owner == Writer then 1 else 0) ==
            (if s.cc.owner == Writer then 1 else 0) + WriterHolds(run)
    decreases run
  {
    if run != [] {
      StepKeepsLock(s, run[0]);
      WriterKeepsMutex(Do(s, run[0]), run[1..]);
    }
  }

  // ------------------------------------------------------------ a message on its own

  /** Nothing is on its way, and the control channel is open and free. */
  predicate Quiet(s: State) {
    && !s.readerStopped && s.hand == [] && s.msgIn == [] && s.dispatcher == Idle
    && s.cc.owner == Nobody && !s.cc.closed && s.cc.input == []
  }

  lemma Prepend(s: State, st: Step, rest: seq<Step>) returns (run: seq<Step>)
    requires Enabled(s, st) && Runs(Do(s, st), rest)
    ensures Runs(s, run) && After(s, run) == After(Do(s, st), rest)
    ensures !st.ReadFrame? && ReadFreeRun(rest) ==> ReadFreeRun(run)
  {
    run := [st] + rest;
    assert run[1..] == rest;
  }

  /** The dispatcher gets the message the reader holds. */
  lemma MessageHandedOn(s: State, f: Frame, rest: seq<Step>) returns (run: seq<Step>)
    requires s.hand == [f] && s.msgIn == [] && s.dispatcher == Idle
    requires Runs(s.(hand := [], dispatcher := Got(f)), rest)
    ensures Runs(s, run) && After(s, run) == After(s.(hand := [], dispatcher := Got(f)), rest)
    ensures ReadFreeRun(rest) ==> ReadFreeRun(run)
  {
    var s1 := Do(s, PushIn);
    assert s1.msgIn == [f];
    assert Do(s1, TakeIn) == s.(hand := [], dispatcher := Got(f));
    run := Prepend(s1, TakeIn, rest);
    run := Prepend(s, PushIn, run);
  }

  /** The reader takes a message off the socket and the dispatcher gets it. */
  lemma MessageArrives(s: State, f: Frame, rest: seq<Step>) returns (run: seq<Step>)
    requires !s.readerStopped && s.hand == [] && s.msgIn == [] && s.dispatcher == Idle
    requires Runs(s.(read := s.read + [f], dispatcher := Got(f)), rest)
    ensures Runs(s, run) && After(s, run) == After(s.(read := s.read + [f], dispatcher := Got(f)), rest)
  {
    var s1 := Do(s, ReadFrame(f));
    assert s1.(hand := [], dispatcher := Got(f)) == s.(read := s.read + [f], dispatcher := Got(f));
    run := MessageHandedOn(s1, f, rest);
    run := Prepend(s, ReadFrame(f), run);
  }

  /** The reader takes nothing from the socket meanwhile. */
  predicate ReadFreeRun(run: seq<Step>) {
    forall i | 0 <= i < |run| :: !run[i].ReadFrame?
  }

  /** Nothing is on its way but what the reader has in hand. */
  predicate Holds(s: State, f: Frame) {
    s.hand == [f] && !s.readerStopped && Quiet(s.(hand := []))
  }

  /** A text message in the reader's hand reaches the session, and the dispatcher is ready for
      the next one. */
  lemma TextHandedOn(s: State, data: Bytes) returns (run: seq<Step>)
    requires Holds(s, Frame(Text, data))
    ensures Runs(s, run) && ReadFreeRun(run)
    ensures After(s, run) == s.(hand := [], received := s.received + [data])
  {
    var s0 := s.(hand := [], dispatcher := Got(Frame(Text, data)));
    var s1 := Do(s0, LockIn);
    var s2 := Do(s1, CheckIn);
    var s3 := Do(s2, SendIn);
    assert s3.cc.input == [data];
    var s4 := Do(s3, SessionReceives);
    assert s4 == s.(hand := [], received := s.received + [data]);
    var none: seq<Step> := [];
    assert Runs(s4, none) && After(s4, none) == s4;
    run := Prepend(s3, SessionReceives, none);
    run := Prepend(s2, SendIn, run);
    run := Prepend(s1, CheckIn, run);
    run := Prepend(s0, LockIn, run);
    run := MessageHandedOn(s, Frame(Text, data), run);
  }

  /** A binary message reaches the audio side, and the dispatcher is ready for the next one. */
  lemma AudioHandedOn(s: State, data: Bytes) returns (run: seq<Step>)
    requires Holds(s, Frame(Binary, data))
    ensures Runs(s, run) && ReadFreeRun(run)
    ensures After(s, run) == s.(hand := [], audio := s.audio + data)
  {
    var s0 := s.(hand := [], dispatcher := Got(Frame(Binary, data)));
    var s1 := Do(s0, WriteAudio(|data|, true));
    assert data[..|data|] == data;
    assert s1 == s.(hand := [], audio := s.audio + data);
    var none: seq<Step> := [];
    assert Runs(s1, none) && After(s1, none) == s1;
    run := Prepend(s0, WriteAudio(|data|, true), none);
    run := MessageHandedOn(s, Frame(Binary, data), run);
  }

  /** So each of them gets from the socket to where it belongs. */
  lemma TextGetsThrough(s: State, data: Bytes) returns (run: seq<Step>)
    requires Quiet(s)
    ensures Runs(s, run)
    ensures After(s, run) == s.(read := s.read + [Frame(Text, data)], received := s.received + [data])
  {
    run := TextHandedOn(Do(s, ReadFrame(Frame(Text, data))), data);
    run := Prepend(s, ReadFrame(Frame(Text, data)), run);
  }

  lemma AudioGetsThrough(s: State, data: Bytes) returns (run: seq<Step>)
    requires Quiet(s)
    ensures Runs(s, run)
    ensures After(s, run) == s.(read := s.read + [Frame(Binary, data)], audio := s.audio + data)
  {
    run := AudioHandedOn(Do(s, ReadFrame(Frame(Binary, data))), data);
    run := Prepend(s, ReadFrame(Frame(Binary, data)), run);
  }

  /** Any other message is passed over. */
  lemma OtherIsIgnored(s: State, f: Frame) returns (run: seq<Step>)
    requires Quiet(s) && f.kind != Text && f.kind != Binary
    ensures Runs(s, run) && After(s, run) == s.(read := s.read + [f])
  {
    var s0 := s.(read := s.read + [f], dispatcher := Got(f));
    var none: seq<Step> := [];
    assert Runs(Do(s0, IgnoreControl), none) && After(Do(s0, IgnoreControl), none) == Do(s0, IgnoreControl);
    run := Prepend(s0, IgnoreControl, none);
    run := MessageArrives(s, f, run);
  }

  /** Closing the control channel with nobody in the mutex; a text message then stops the
      dispatcher. */
  lemma CloseStopsDispatcher(s: State, data: Bytes) returns (run: seq<Step>)
    requires Quiet(s) && s.cc.closer == Away
    ensures Runs(s, run)
    ensures var s' := After(s, run);
            s'.cc.closed && s'.cc.closes == s.cc.closes + 1 && s'.cc.owner == Nobody && s'.dispatcher == Stopped
            && s'.received == s.received && s'.cc.input == []
  {
    var s1 := s.(cc := s.cc.(closed := true, closes := s.cc.closes + 1, closer := Gone));
    var s2 := s1.(read := s.read + [Frame(Text, data)], dispatcher := Got(Frame(Text, data)));
    var none: seq<Step> := [];
    var s3 := Do(s2, LockIn);
    var s4 := Do(s3, CheckIn);
    assert Runs(s4, none) && After(s4, none) == s4;
    run := Prepend(s3, CheckIn, none);
    run := Prepend(s2, LockIn, run);
    run := MessageArrives(s1, Frame(Text, data), run);
    run := CloseFirst(s, s1, run);
  }

  lemma CloseFirst(s: State, s': State, rest: seq<Step>) returns (run: seq<Step>)
    requires s.cc.owner == Nobody && s.cc.closer == Away && Runs(s', rest)
    requires s' == s.(cc := s.cc.(closed := true, closes := s.cc.closes + 1, closer := Gone))
    ensures Runs(s, run) && After(s, run) == After(s', rest)
  {
    var s1 := Do(s, CloserLocks);
    var s2 := Do(s1, CloserMarks);
    var s3 := Do(s2, CloserCloses);
    assert Do(s3, CloserUnlocks) == s';
    run := Prepend(s3, CloserUnlocks, rest);
    run := Prepend(s2, CloserCloses, run);
    run := Prepend(s1, CloserMarks, run);
    run := Prepend(s, CloserLocks, run);
  }
}
