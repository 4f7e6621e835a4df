/**
 The life of one session (session.go, session_state.go): any number of callers of
 Close, the reader that finds the transport closed, context cancellation, the one
 finalizer, and OnBegin, all racing on closeOnce, the two closable channels and the
 state field.

 Each goroutine is a program counter. A setState or State call, a channel operation,
 a handler call and a sync.Once transition are one step each. Run is called at most
 once; callbacks and close handlers return without panicking.
 */
module Lifecycle {
  import opened Wrappers

  datatype SessionState = Inactive | Active | Closing | Closed | Failed

  /** A call of doClose: from Close, or from the reader, which does not wait afterwards. */
  datatype CloserPc = Check | Once | InCallback | Trigger | Await | Done(nil: bool) | Gone

  datatype Closer = Closer(fromReader: bool, hasCallback: bool, pc: CloserPc)

  datatype OnceState = Unused | Held(holder: nat) | Spent

  datatype FinalizerPc =
    | Listening | MarkClosing | Calling(next: nat, upTo: nat) | MarkClosed | Announce | Report | Ended

  datatype BeginPc = Handling | Activating | Failing | Complaining | Finished

  datatype RunPc = NotStarted | Aborted | Started

  datatype DoneValue = NilDone | ErrDone

  /** closeOnce, close(triggerCloseChan) executions, and the closers whose callback started. */
  datatype Gate = Gate(once: OnceState, triggerCloses: nat, callbacks: seq<nat>)

  /** onCloseHandlers: how many, and where Run put transport.Close among them. */
  datatype Handlers = Handlers(registered: nat, transport: Option<nat>)

  /** The finalizer, close(finalizedChan) executions, and the close handlers called, in order. */
  datatype Finalizer = Finalizer(pc: FinalizerPc, closes: nat, calls: seq<nat>)

  /** The state field and every setState so far. */
  datatype Field = Field(now: SessionState, writes: seq<SessionState>)

  /** The one-slot channel Run returns, and everything ever sent on it. */
  datatype DoneChan = DoneChan(slot: seq<DoneValue>, sent: seq<DoneValue>)

  datatype State = State(
    run: RunPc,
    cancelled: bool,
    readerDone: bool,
    closers: seq<Closer>,
    gate: Gate,
    handlers: Handlers,
    fin: Finalizer,
    begin: BeginPc,
    field: Field,
    done: DoneChan)

  datatype Step =
    | Register                        // OnClose
    | StartRun(ok: bool)
    | Cancel
    | NewCloser(hasCallback: bool)
    | ReaderSawClose
    | CheckState(c: nat)
    | EnterOnce(c: nat)
    | CallbackReturns(c: nat)
    | CloseTrigger(c: nat)
    | AwaitFinalized(c: nat)
    | AwaitExpired(c: nat)
    | Finalize
    | BeginReturns(ok: bool)
    | BeginGoesOn
    | TakeDone

  /** NewSession registers the closing of both audio sides. */
  function Initial(): State {
    State(NotStarted, false, false, [], Gate(Unused, 0, []), Handlers(1, None),
          Finalizer(Listening, 0, []), Handling, Field(Inactive, []), DoneChan([], []))
  }

  function SetState(f: Field, x: SessionState): Field {
    Field(x, f.writes + [x])
  }

  function SendDone(d: DoneChan, x: DoneValue): DoneChan {
    DoneChan(d.slot + [x], d.sent + [x])
  }

  predicate At(closers: seq<Closer>, c: nat, pc: CloserPc) {
    c < |closers| && closers[c].pc == pc
  }

  function Goto(closers: seq<Closer>, c: nat, pc: CloserPc): seq<Closer>
    requires c < |closers|
  {
    closers[c := closers[c].(pc := pc)]
  }

  /** Where doClose leaves its caller: Close waits, the reader goroutine ends. */
  function AfterDoClose(x: Closer): CloserPc {
    if x.fromReader then Gone else Await
  }

  predicate CanFinalize(s: State) {
    s.run == Started &&
    match s.fin.pc
    case Listening => s.gate.triggerCloses > 0 || s.cancelled
    case Report => s.done.slot == []
    case Ended => false
    case _ => true
  }

  predicate Enabled(s: State, st: Step) {
    match st
    case Register => true
    case StartRun(_) => s.run == NotStarted
    case Cancel => true
    case NewCloser(_) => true
    case ReaderSawClose => s.run == Started && !s.readerDone
    case CheckState(c) => At(s.closers, c, Check)
    case EnterOnce(c) => At(s.closers, c, Once) && !s.gate.once.Held?
    case CallbackReturns(c) => At(s.closers, c, InCallback)
    case CloseTrigger(c) => At(s.closers, c, Trigger)
    case AwaitFinalized(c) => At(s.closers, c, Await) && s.fin.closes > 0
    case AwaitExpired(c) => At(s.closers, c, Await)
    case Finalize => CanFinalize(s)
    case BeginReturns(_) => s.run == Started && s.begin == Handling
    case BeginGoesOn => CanGoOn(s)
    case TakeDone => s.done.slot != []
  }

  predicate CanGoOn(s: State) {
    s.run == Started && (s.begin == Activating || s.begin == Failing || (s.begin == Complaining && s.done.slot == []))
  }

  /** The listener goroutine: wait, finalize(), done <- nil. */
  function FinalizerStep(s: State): State
    requires CanFinalize(s)
  {
    var fin := s.fin;
    match fin.pc
    case Listening => s.(fin := fin.(pc := MarkClosing))
    case MarkClosing => s.(fin := fin.(pc := Calling(0, s.handlers.registered)), field := SetState(s.field, Closing))
    case Calling(n, upTo) =>
      s.(fin := if n < upTo then fin.(pc := Calling(n + 1, upTo), calls := fin.calls + [n])
                else fin.(pc := MarkClosed))
    case MarkClosed => s.(fin := fin.(pc := Announce), field := SetState(s.field, Closed))
    case Announce => s.(fin := fin.(pc := Report, closes := fin.closes + 1))
    case Report => s.(fin := fin.(pc := Ended), done := SendDone(s.done, NilDone))
    case Ended => s
  }

  /** The OnBegin goroutine once OnBegin has returned. */
  function BeginStep(s: State): State
    requires CanGoOn(s)
  {
    match s.begin
    case Activating => s.(begin := Finished, field := SetState(s.field, Active))
    case Failing => s.(begin := Complaining, field := SetState(s.field, Failed))
    case _ => s.(begin := Finished, done := SendDone(s.done, ErrDone))
  }

  function EnterGate(s: State, c: nat): State
    requires c < |s.closers|
  {
    var x := s.closers[c];
    if s.gate.once.Spent? then s.(closers := Goto(s.closers, c, AfterDoClose(x)))
    else if x.hasCallback then
      s.(closers := Goto(s.closers, c, InCallback),
         gate := s.gate.(once := Held(c), callbacks := s.gate.callbacks + [c]))
    else s.(closers := Goto(s.closers, c, Trigger), gate := s.gate.(once := Held(c)))
  }

  function Do(s: State, st: Step): State
    requires Enabled(s, st)
  {
    match st
    case Register => s.(handlers := s.handlers.(registered := s.handlers.registered + 1))
    case StartRun(ok) =>
      var n := s.handlers.registered;
      if ok then s.(run := Started, handlers := Handlers(n + 1, Some(n)))
      else s.(run := Aborted, done := SendDone(s.done, ErrDone))
    case Cancel => s.(cancelled := true)
    case NewCloser(cb) => s.(closers := s.closers + [Closer(false, cb, Check)])
    case ReaderSawClose => s.(readerDone := true, closers := s.closers + [Closer(true, false, Check)])
    case CheckState(c) =>
      var closing := s.field.now == Closed || s.field.now == Closing;
      s.(closers := Goto(s.closers, c, if closing then AfterDoClose(s.closers[c]) else Once))
    case EnterOnce(c) => EnterGate(s, c)
    case CallbackReturns(c) => s.(closers := Goto(s.closers, c, Trigger))
    case CloseTrigger(c) =>
      s.(closers := Goto(s.closers, c, AfterDoClose(s.closers[c])),
         gate := s.gate.(triggerCloses := s.gate.triggerCloses + 1, once := Spent))
    case AwaitFinalized(c) => s.(closers := Goto(s.closers, c, Done(true)))
    case AwaitExpired(c) => s.(closers := Goto(s.closers, c, Done(false)))
    case Finalize => FinalizerStep(s)
    case BeginReturns(ok) => s.(begin := if ok then Activating else Failing)
    case BeginGoesOn => BeginStep(s)
    case TakeDone => s.(done := s.done.(slot := s.done.slot[1..]))
  }

  predicate Runs(s: State, run: seq<Step>)
    decreases run
  {
    run == [] || (Enabled(s, run[0]) && Runs(Do(s, run[0]), run[1..]))
  }

  function After(s: State, run: seq<Step>): State
    requires Runs(s, run)
    decreases run
  {
    if run == [] then s else After(Do(s, run[0]), run[1..])
  }

  // -------------------------------------------------------------- the invariant

  predicate PastOnce(pc: CloserPc) {
    pc == InCallback || pc == Trigger
  }

  /** closeOnce: the closers inside it are exactly its holder, the trigger channel is
      closed exactly when it is spent, and a callback starts only inside it. */
  predicate OnceOk(gate: Gate, closers: seq<Closer>) {
    && (gate.once.Held? ==> gate.once.holder < |closers| && PastOnce(closers[gate.once.holder].pc))
    && (forall c | 0 <= c < |closers| && PastOnce(closers[c].pc) :: gate.once == Held(c))
    && gate.triggerCloses == (if gate.once.Spent? then 1 else 0)
    && |gate.callbacks| <= (if gate.once.Unused? then 0 else 1)
    && (forall c | 0 <= c < |closers| && closers[c].pc == InCallback :: gate.callbacks == [c])
  }

  /** How many close handlers the finalizer captured and how many of them it called. */
  predicate FinalizerOk(s: State) {
    && (s.fin.pc != Listening ==> s.run == Started && (s.gate.triggerCloses > 0 || s.cancelled))
    && (match s.fin.pc
        case Calling(n, upTo) => n <= upTo <= s.handlers.registered && s.fin.calls == Upto(n)
        case Listening => s.fin.calls == []
        case MarkClosing => s.fin.calls == []
        case _ => |s.fin.calls| <= s.handlers.registered && s.fin.calls == Upto(|s.fin.calls|))
    && s.fin.closes == (if s.fin.pc == Report || s.fin.pc == Ended then 1 else 0)
  }

  predicate ClosersOk(s: State) {
    && (forall c | 0 <= c < |s.closers| && s.closers[c].pc == Done(true) :: s.fin.closes == 1)
    && (if s.run == Started
        then s.handlers.transport.Some? && s.handlers.transport.value < s.handlers.registered
        else s.begin == Handling && s.handlers.transport == None)
  }

  /** The finalizer's share of the state writes, and OnBegin's. */
  function ByFinalizer(ws: seq<SessionState>): seq<SessionState> {
    if ws == [] then []
    else
      var front := ByFinalizer(ws[..|ws| - 1]);
      var last := ws[|ws| - 1];
      if last == Closing || last == Closed then front + [last] else front
  }

  function ByBegin(ws: seq<SessionState>): seq<SessionState> {
    if ws == [] then []
    else
      var front := ByBegin(ws[..|ws| - 1]);
      var last := ws[|ws| - 1];
      if last == Closing || last == Closed then front else front + [last]
  }

  predicate SharesOk(byFinalizer: seq<SessionState>, byBegin: seq<SessionState>, fin: FinalizerPc, begin: BeginPc) {
    && byFinalizer ==
       (match fin
        case Listening => []
        case MarkClosing => []
        case Calling(_, _) => [Closing]
        case MarkClosed => [Closing]
        case _ => [Closing, Closed])
    && (match begin
        case Complaining => byBegin == [Failed]
        case Finished => byBegin == [Active] || byBegin == [Failed]
        case _ => byBegin == [])
  }

  predicate HistoryOk(f: Field, fin: FinalizerPc, begin: BeginPc) {
    && SharesOk(ByFinalizer(f.writes), ByBegin(f.writes), fin, begin)
    && f.now == (if f.writes == [] then Inactive else f.writes[|f.writes| - 1])
  }

  predicate DoneOk(s: State) {
    && |s.done.slot| <= 1
    && (s.run == NotStarted ==> s.done.slot == [] && s.done.sent == [])
    && NoRepeats(s.done.sent)
    && (NilDone in s.done.sent ==> s.fin.pc == Ended)
    && (ErrDone in s.done.sent ==> s.run == Aborted || s.begin == Finished)
    && (s.run != Started ==> s.begin == Handling && s.fin.pc == Listening)
  }

  predicate Good(s: State) {
    && OnceOk(s.gate, s.closers)
    && FinalizerOk(s)
    && ClosersOk(s)
    && HistoryOk(s.field, s.fin.pc, s.begin)
    && DoneOk(s)
  }

  lemma WriteSplits(ws: seq<SessionState>, x: SessionState)
    ensures ByFinalizer(ws + [x]) == if x == Closing || x == Closed then ByFinalizer(ws) + [x] else ByFinalizer(ws)
    ensures ByBegin(ws + [x]) == if x == Closing || x == Closed then ByBegin(ws) else ByBegin(ws) + [x]
  {
    assert (ws + [x])[..|ws|] == ws;
  }

  /** A closer moving outside closeOnce. */
  lemma MoveKeepsOnce(gate: Gate, closers: seq<Closer>, c: nat, pc: CloserPc)
    requires OnceOk(gate, closers) && c < |closers| && !PastOnce(closers[c].pc) && !PastOnce(pc)
    ensures OnceOk(gate, Goto(closers, c, pc))
  {
  }

  lemma StepKeepsOnce(s: State, st: Step)
    requires OnceOk(s.gate, s.closers) && Enabled(s, st)
    ensures OnceOk(Do(s, st).gate, Do(s, st).closers)
  {
    match st
    case CheckState(c) => MoveKeepsOnce(s.gate, s.closers, c, Do(s, st).closers[c].pc);
    case AwaitFinalized(c) => MoveKeepsOnce(s.gate, s.closers, c, Done(true));
    case AwaitExpired(c) => MoveKeepsOnce(s.gate, s.closers, c, Done(false));
    case EnterOnce(c) => EnterKeepsOnce(s, c);
    case CallbackReturns(_) =>
    case CloseTrigger(_) =>
    case NewCloser(_) =>
    case ReaderSawClose =>
    case _ => assert Do(s, st).gate == s.gate && Do(s, st).closers == s.closers;
  }

  lemma EnterKeepsOnce(s: State, c: nat)
    requires OnceOk(s.gate, s.closers) && At(s.closers, c, Once) && !s.gate.once.Held?
    ensures OnceOk(EnterGate(s, c).gate, EnterGate(s, c).closers)
  {
    if s.gate.once.Spent? {
      MoveKeepsOnce(s.gate, s.closers, c, AfterDoClose(s.closers[c]));
    }
  }

  lemma StepKeepsFinalizer(s: State, st: Step)
    requires FinalizerOk(s) && Enabled(s, st)
    ensures FinalizerOk(Do(s, st))
  {
    if st.Finalize? && s.fin.pc.Calling? {
      UptoStep(s.fin.pc.next);
    }
  }

  lemma StepKeepsClosers(s: State, st: Step)
    requires ClosersOk(s) && FinalizerOk(s) && Enabled(s, st)
    ensures ClosersOk(Do(s, st))
  {
    var s' := Do(s, st);
    if st.Finalize? {
      assert s'.closers == s.closers && s'.handlers == s.handlers && s'.begin == s.begin;
    } else {
      assert s'.fin == s.fin;
    }
  }

  lemma WriteKeepsHistory(
      f: Field, fin: FinalizerPc, begin: BeginPc, x: SessionState, fin': FinalizerPc, begin': BeginPc)
    requires HistoryOk(f, fin, begin)
    requires (x == Closing && fin == MarkClosing && fin'.Calling? && begin' == begin)
          || (x == Closed && fin == MarkClosed && fin' == Announce && begin' == begin)
          || (x == Active && begin == Activating && begin' == Finished && fin' == fin)
          || (x == Failed && begin == Failing && begin' == Complaining && fin' == fin)
    ensures HistoryOk(SetState(f, x), fin', begin')
  {
    WriteSplits(f.writes, x);
  }

  lemma StepKeepsHistory(s: State, st: Step)
    requires HistoryOk(s.field, s.fin.pc, s.begin) && Enabled(s, st)
    ensures HistoryOk(Do(s, st).field, Do(s, st).fin.pc, Do(s, st).begin)
  {
    match st
    case Finalize => FinalizerKeepsHistory(s);
    case BeginGoesOn =>
      if s.begin != Complaining {
        var x := if s.begin == Activating then Active else Failed;
        WriteKeepsHistory(s.field, s.fin.pc, s.begin, x, s.fin.pc, Do(s, st).begin);
      }
    case BeginReturns(_) =>
    case _ => assert Do(s, st).fin == s.fin && Do(s, st).begin == s.begin && Do(s, st).field == s.field;
  }

  lemma FinalizerKeepsHistory(s: State)
    requires HistoryOk(s.field, s.fin.pc, s.begin) && CanFinalize(s)
    ensures var s' := FinalizerStep(s); HistoryOk(s'.field, s'.fin.pc, s'.begin)
  {
    if s.fin.pc == MarkClosing {
      WriteKeepsHistory(s.field, MarkClosing, s.begin, Closing, Calling(0, s.handlers.registered), s.begin);
    } else if s.fin.pc == MarkClosed {
      WriteKeepsHistory(s.field, MarkClosed, s.begin, Closed, Announce, s.begin);
    }
  }

  lemma StepKeepsDone(s: State, st: Step)
    requires DoneOk(s) && Enabled(s, st)
    ensures DoneOk(Do(s, st))
  {
    match st
    case StartRun(_) =>
    case Finalize => FinalizerKeepsDone(s);
    case BeginGoesOn => BeginKeepsDone(s);
    case BeginReturns(_) =>
    case TakeDone =>
    case _ =>
      assert Do(s, st).done == s.done && Do(s, st).run == s.run && Do(s, st).fin == s.fin && Do(s, st).begin == s.begin;
  }

  lemma FinalizerKeepsDone(s: State)
    requires DoneOk(s) && CanFinalize(s)
    ensures DoneOk(FinalizerStep(s))
  {
  }

  lemma BeginKeepsDone(s: State)
    requires DoneOk(s) && CanGoOn(s)
    ensures DoneOk(BeginStep(s))
  {
  }

  lemma StepKeepsGood(s: State, st: Step)
    requires Good(s) && Enabled(s, st)
    ensures Good(Do(s, st))
  {
    StepKeepsOnce(s, st);
    StepKeepsFinalizer(s, st);
    StepKeepsClosers(s, st);
    StepKeepsHistory(s, st);
    StepKeepsDone(s, st);
  }

  lemma {:induction false} RunKeepsGood(s: State, run: seq<Step>)
    requires Good(s) && Runs(s, run)
    ensures Good(After(s, run))
    decreases run
  {
    if run != [] {
      StepKeepsGood(s, run[0]);
      RunKeepsGood(Do(s, run[0]), run[1..]);
    }
  }

  lemma InitialIsGood()
    ensures Good(Initial())
  {
    assert Upto(0) == [];
  }

  lemma ReachableIsGood(run: seq<Step>)
    requires Runs(Initial(), run)
    ensures Good(After(Initial(), run))
  {
    InitialIsGood();
    RunKeepsGood(Initial(), run);
  }

  lemma {:induction false} RunsSplit(s: State, run: seq<Step>, more: seq<Step>)
    requires Runs(s, run) && Runs(After(s, run), more)
    ensures Runs(s, run + more) && After(s, run + more) == After(After(s, run), more)
    decreases run
  {
    if run == [] {
      assert run + more == more;
    } else {
      RunsSplit(Do(s, run[0]), run[1..], more);
      assert (run + more)[1..] == run[1..] + more;
    }
  }

  // ------------------------------------------------------------- the main results

  /** In no run does a close of either channel panic, and at most one callback starts. */
  lemma ChannelsCloseOnce(run: seq<Step>)
    requires Runs(Initial(), run)
    ensures var s := After(Initial(), run);
            && s.gate.triggerCloses <= 1 && s.fin.closes <= 1 && |s.gate.callbacks| <= 1
            && (forall c | Enabled(s, CloseTrigger(c)) :: s.gate.triggerCloses == 0)
            && (Enabled(s, Finalize) && s.fin.pc == Announce ==> s.fin.closes == 0)
  {
    ReachableIsGood(run);
  }

  /** While a callback runs nothing has triggered the finalizer but cancellation. */
  lemma CallbackPrecedesFinalizer(run: seq<Step>, c: nat)
    requires Runs(Initial(), run)
    requires At(After(Initial(), run).closers, c, InCallback)
    ensures var s := After(Initial(), run);
            s.gate.callbacks == [c] && s.gate.triggerCloses == 0 && (s.cancelled || s.fin.pc == Listening)
  {
    ReachableIsGood(run);
  }

  /** n handlers were registered before the finalizer took its list. */
  predicate Captured(s: State, n: nat) {
    match s.fin.pc
    case Listening => n <= s.handlers.registered
    case MarkClosing => n <= s.handlers.registered
    case Calling(_, upTo) => n <= upTo
    case _ => n <= |s.fin.calls|
  }

  lemma StepKeepsCaptured(s: State, st: Step, n: nat)
    requires FinalizerOk(s) && Enabled(s, st) && Captured(s, n)
    ensures Captured(Do(s, st), n)
  {
  }

  lemma {:induction false} CapturedStays(s: State, run: seq<Step>, n: nat)
    requires Good(s) && Runs(s, run) && Captured(s, n)
    ensures Captured(After(s, run), n)
    decreases run
  {
    if run != [] {
      StepKeepsGood(s, run[0]);
      StepKeepsCaptured(s, run[0], n);
      CapturedStays(Do(s, run[0]), run[1..], n);
    }
  }

  /** A Close that returns nil returns after every handler registered before
      finalization was called exactly once, in registration order. */
  lemma CloseNilMeansHandlersRan(before: seq<Step>, after: seq<Step>, c: nat, n: nat)
    requires Runs(Initial(), before)
    requires var s := After(Initial(), before);
             (s.fin.pc == Listening || s.fin.pc == MarkClosing) && n < s.handlers.registered && Runs(s, after)
    requires At(After(After(Initial(), before), after).closers, c, Done(true))
    ensures var calls := After(After(Initial(), before), after).fin.calls;
            n < |calls| && multiset(calls)[n] == 1 && Increasing(calls)
  {
    var s := After(Initial(), before);
    ReachableIsGood(before);
    CapturedStays(s, after, n + 1);
    RunKeepsGood(s, after);
    assert s.fin.pc.Listening? || s.fin.pc.MarkClosing?;
    UptoCounts(|After(s, after).fin.calls|, n);
  }

  lemma SharesArePrefixes(
      byFinalizer: seq<SessionState>, byBegin: seq<SessionState>, fin: FinalizerPc, begin: BeginPc)
    requires SharesOk(byFinalizer, byBegin, fin, begin)
    ensures byFinalizer <= [Closing, Closed] && (byBegin <= [Active] || byBegin <= [Failed])
  {
  }

  /** Every history of state writes: the finalizer's closing, closed in that order,
      interleaved with at most one write of OnBegin. */
  lemma StateHistory(run: seq<Step>)
    requires Runs(Initial(), run)
    ensures var f := After(Initial(), run).field;
            && ByFinalizer(f.writes) <= [Closing, Closed]
            && (ByBegin(f.writes) <= [Active] || ByBegin(f.writes) <= [Failed])
            && f.now == (if f.writes == [] then Inactive else f.writes[|f.writes| - 1])
  {
    ReachableIsGood(run);
    var s := After(Initial(), run);
    SharesArePrefixes(ByFinalizer(s.field.writes), ByBegin(s.field.writes), s.fin.pc, s.begin);
  }

  /** OnBegin has returned and its state write is done. */
  predicate BeginWrote(s: State) {
    s.begin == Complaining || s.begin == Finished
  }

  predicate FinalizerWrote(s: State) {
    s.fin.pc == Announce || s.fin.pc == Report || s.fin.pc == Ended
  }

  lemma {:induction false} NoMoreWrites(s: State, run: seq<Step>)
    requires Runs(s, run) && BeginWrote(s) && FinalizerWrote(s)
    ensures After(s, run).field == s.field
    decreases run
  {
    if run != [] {
      NoMoreWrites(Do(s, run[0]), run[1..]);
    }
  }

  lemma ClosedMeansFinalizerWrote(s: State)
    requires Good(s) && s.field.now == Closed
    ensures FinalizerWrote(s) && s.run == Started
  {
    var ws := s.field.writes;
    assert ws[|ws| - 1] == Closed;
    assert Closed in ByFinalizer(ws) by {
      assert ByFinalizer(ws) == ByFinalizer(ws[..|ws| - 1]) + [Closed];
    }
  }

  /** Closed is terminal exactly when OnBegin has made its write. */
  lemma ClosedIsTerminalIff(past: seq<Step>)
    requires Runs(Initial(), past) && After(Initial(), past).field.now == Closed
    ensures var s := After(Initial(), past);
            BeginWrote(s) <==> (forall run | Runs(s, run) :: After(s, run).field.now == Closed)
  {
    ReachableIsGood(past);
    var s := After(Initial(), past);
    ClosedMeansFinalizerWrote(s);
    if BeginWrote(s) {
      forall run | Runs(s, run) ensures After(s, run).field.now == Closed {
        NoMoreWrites(s, run);
      }
    } else {
      var run := LateBegin(s);
      assert After(s, run).field.now != Closed;
    }
  }

  /** A late OnBegin overwrites whatever the finalizer wrote. */
  lemma LateBegin(s: State) returns (run: seq<Step>)
    requires s.run == Started && (s.begin == Handling || s.begin == Activating || s.begin == Failing)
    ensures Runs(s, run)
    ensures var s' := After(s, run);
            s'.fin == s.fin && s'.field.writes == s.field.writes + [s'.field.now] &&
            s'.field.now == (if s.begin == Failing then Failed else Active)
  {
    if s.begin == Handling {
      TwoSteps(s, BeginReturns(true), BeginGoesOn);
      run := [BeginReturns(true), BeginGoesOn];
    } else {
      OneStep(s, BeginGoesOn);
      run := [BeginGoesOn];
    }
  }

  /** The handler loop of finalize with nobody interfering. */
  lemma {:induction false} HandlersAlone(s: State, n: nat, upTo: nat) returns (run: seq<Step>)
    requires s.run == Started && s.fin.pc == Calling(n, upTo) && n <= upTo && s.fin.calls == Upto(n)
    ensures Runs(s, run)
    ensures After(s, run) == s.(fin := s.fin.(pc := MarkClosed, calls := Upto(upTo)))
    decreases upTo - n
  {
    OneStep(s, Finalize);
    var s1 := Do(s, Finalize);
    if n == upTo {
      run := [Finalize];
    } else {
      UptoStep(n);
      var rest := HandlersAlone(s1, n + 1, upTo);
      RunsSplit(s, [Finalize], rest);
      run := [Finalize] + rest;
    }
  }

  /** finalize with nobody interfering. */
  lemma FinalizeAlone(s: State) returns (run: seq<Step>)
    requires Triggered(s) && s.fin == Finalizer(Listening, 0, [])
    ensures Runs(s, run)
    ensures After(s, run) ==
            s.(fin := Finalizer(Report, 1, Upto(s.handlers.registered)),
               field := SetState(SetState(s.field, Closing), Closed))
  {
    TwoSteps(s, Finalize, Finalize);
    var s1 := Do(Do(s, Finalize), Finalize);
    assert Upto(0) == [];
    var r := HandlersAlone(s1, 0, s.handlers.registered);
    var s2 := After(s1, r);
    TwoSteps(s2, Finalize, Finalize);
    RunsSplit(s, [Finalize, Finalize], r);
    RunsSplit(s, [Finalize, Finalize] + r, [Finalize, Finalize]);
    run := [Finalize, Finalize] + r + [Finalize, Finalize];
  }

  /** Where doClose leaves the gate when nobody interferes: untouched if the session is
      closing or the gate spent, else spent with the trigger closed. */
  function GateAfterClose(s: State, hasCallback: bool): Gate {
    if s.field.now == Closing || s.field.now == Closed || s.gate.once.Spent? then s.gate
    else Gate(Spent, s.gate.triggerCloses + 1, s.gate.callbacks + (if hasCallback then [|s.closers|] else []))
  }

  /** doClose with nobody interfering, called by Close. */
  lemma DoCloseAlone(s: State, hasCallback: bool) returns (run: seq<Step>)
    requires !s.gate.once.Held?
    ensures Runs(s, run)
    ensures After(s, run) ==
            s.(closers := s.closers + [Closer(false, hasCallback, Await)], gate := GateAfterClose(s, hasCallback))
  {
    run := CallerAlone(s, s, NewCloser(hasCallback), Closer(false, hasCallback, Check));
  }

  /** doClose with nobody interfering, called by the reader that found the transport closed. */
  lemma ReaderCloseAlone(s: State) returns (run: seq<Step>)
    requires !s.gate.once.Held? && s.run == Started && !s.readerDone
    ensures Runs(s, run)
    ensures After(s, run) ==
            s.(readerDone := true, closers := s.closers + [Closer(true, false, Gone)], gate := GateAfterClose(s, false))
  {
    run := CallerAlone(s, s.(readerDone := true), ReaderSawClose, Closer(true, false, Check));
  }

  lemma CallerAlone(s: State, s1: State, call: Step, x: Closer) returns (run: seq<Step>)
    requires !s.gate.once.Held? && x.pc == Check && Enabled(s, call)
    requires Do(s, call) == s1.(closers := s.closers + [x])
    requires s1.gate == s.gate && s1.field == s.field && s1.closers == s.closers
    ensures Runs(s, run)
    ensures After(s, run) ==
            s1.(closers := s.closers + [x.(pc := AfterDoClose(x))], gate := GateAfterClose(s1, x.hasCallback))
  {
    var c := |s.closers|;
    var start := [call, CheckState(c)];
    TwoSteps(s, call, CheckState(c));
    var s2 := After(s, start);
    assert s2.closers[..c] == s.closers;
    if s.field.now == Closing || s.field.now == Closed {
      run := start;
    } else {
      var rest := ThroughGateAlone(s2, s.closers, x.(pc := Once));
      RunsSplit(s, start, rest);
      run := start + rest;
    }
  }

  /** closeOnce.Do with nobody interfering, for the last of the closers. */
  lemma ThroughGateAlone(s: State, others: seq<Closer>, x: Closer) returns (run: seq<Step>)
    requires !s.gate.once.Held? && x.pc == Once && s.closers == others + [x]
    requires s.field.now != Closing && s.field.now != Closed
    ensures Runs(s, run)
    ensures After(s, run) ==
            s.(closers := others + [x.(pc := AfterDoClose(x))],
               gate := GateAfterClose(s.(closers := others), x.hasCallback))
  {
    var c := |others|;
    OneStep(s, EnterOnce(c));
    if s.gate.once.Spent? {
      run := [EnterOnce(c)];
    } else {
      var rest := if x.hasCallback then [CallbackReturns(c), CloseTrigger(c)] else [CloseTrigger(c)];
      var s1 := EnterGate(s, c);
      if x.hasCallback {
        TwoSteps(s1, CallbackReturns(c), CloseTrigger(c));
      } else {
        OneStep(s1, CloseTrigger(c));
      }
      RunsSplit(s, [EnterOnce(c)], rest);
      run := [EnterOnce(c)] + rest;
    }
  }

  /** The late OnBegin does happen: the session is finalized, then Active again. */
  lemma ActiveOverwritesClosed() returns (run: seq<Step>)
    ensures Runs(Initial(), run)
    ensures var s := After(Initial(), run); s.fin.closes == 1 && s.field.writes == [Closing, Closed, Active]
  {
    TwoSteps(Initial(), StartRun(true), Cancel);
    var s1 := Do(Do(Initial(), StartRun(true)), Cancel);
    var r1 := FinalizeAlone(s1);
    var r2 := LateBegin(After(s1, r1));
    RunsSplit(Initial(), [StartRun(true), Cancel], r1);
    RunsSplit(Initial(), [StartRun(true), Cancel] + r1, r2);
    run := [StartRun(true), Cancel] + r1 + r2;
  }

  lemma OneStep(s: State, x: Step)
    requires Enabled(s, x)
    ensures Runs(s, [x]) && After(s, [x]) == Do(s, x)
  {
    assert Runs(Do(s, x), []) && After(Do(s, x), []) == Do(s, x);
    assert [x][1..] == [];
  }

  lemma TwoSteps(s: State, x: Step, y: Step)
    requires Enabled(s, x) && Enabled(Do(s, x), y)
    ensures Runs(s, [x, y]) && After(s, [x, y]) == Do(Do(s, x), y)
  {
    OneStep(Do(s, x), y);
    assert [x, y][1..] == [y];
  }

  lemma ThreeRepeat(xs: seq<DoneValue>)
    requires |xs| > 2
    ensures !NoRepeats(xs)
  {
    assert xs[0] == xs[1] || xs[0] == xs[2] || xs[1] == xs[2];
  }

  /** done gets at most two values, at most one of them nil. */
  lemma DoneAtMostTwice(run: seq<Step>)
    requires Runs(Initial(), run)
    ensures var sent := After(Initial(), run).done.sent;
            |sent| <= 2 && multiset(sent)[NilDone] <= 1 && multiset(sent)[ErrDone] <= 1
  {
    ReachableIsGood(run);
    var sent := After(Initial(), run).done.sent;
    if |sent| > 2 {
      ThreeRepeat(sent);
    }
    assert sent == [] || sent == [sent[0]] || sent == [sent[0], sent[1]];
  }

  /** Finalizer steps left until finalizedChan is closed. */
  function Work(s: State): nat {
    match s.fin.pc
    case Listening => s.handlers.registered + 5
    case MarkClosing => s.handlers.registered + 4
    case Calling(n, upTo) => (if n <= upTo then upTo - n else 0) + 3
    case MarkClosed => 2
    case Announce => 1
    case _ => 0
  }

  predicate Triggered(s: State) {
    s.run == Started && (s.gate.triggerCloses > 0 || s.cancelled)
  }

  /** Once triggered the finalizer is never blocked before it closes finalizedChan, each
      of its steps brings that closer, and nobody else's step undoes it. */
  lemma FinalizerProgress(s: State, st: Step)
    requires FinalizerOk(s) && Triggered(s) && Work(s) > 0
    ensures Enabled(s, Finalize) && Work(Do(s, Finalize)) == Work(s) - 1
    ensures Enabled(s, st) && !st.Finalize? ==> Work(Do(s, st)) <= Work(s) + (if st.Register? then 1 else 0)
    ensures Enabled(s, st) ==> Triggered(Do(s, st))
  {
    if Enabled(s, st) {
      OthersDoNotUndo(s, st);
    }
  }

  lemma OthersDoNotUndo(s: State, st: Step)
    requires FinalizerOk(s) && Triggered(s) && Enabled(s, st)
    ensures Triggered(Do(s, st))
    ensures !st.Finalize? ==> Work(Do(s, st)) <= Work(s) + (if st.Register? then 1 else 0)
  {
    if !st.Finalize? {
      var s' := Do(s, st);
      assert s'.fin == s.fin;
      assert st.Register? || s'.handlers == s.handlers;
    }
  }

  function Count(run: seq<Step>, x: Step): nat {
    if run == [] then 0 else (if run[0] == x then 1 else 0) + Count(run[1..], x)
  }

  /** Progress of whole runs: however the others are scheduled, and whether or not
      anyone reads done, enough finalizer steps close finalizedChan. */
  lemma {:induction false} EnoughStepsFinalize(s: State, run: seq<Step>)
    requires Good(s) && Triggered(s) && Runs(s, run)
    requires Count(run, Finalize) >= Work(s) + Count(run, Register)
    ensures After(s, run).fin.closes == 1
    decreases run
  {
    if Work(s) == 0 {
      FinalizedStays(s, run);
    } else {
      FinalizerProgress(s, run[0]);
      StepKeepsGood(s, run[0]);
      EnoughStepsFinalize(Do(s, run[0]), run[1..]);
    }
  }

  lemma {:induction false} FinalizedStays(s: State, run: seq<Step>)
    requires Good(s) && Runs(s, run) && s.fin.closes == 1
    ensures After(s, run).fin.closes == 1
    decreases run
  {
    if run != [] {
      StepKeepsGood(s, run[0]);
      FinalizedStays(Do(s, run[0]), run[1..]);
    }
  }
}
