/**
 What a run of one session's life did, and what became of it: the states OnBegin leads to,
 what done is sent, where callers of Close end, and which close handlers there are.
 */
module LifeOutcomes {
  import opened Wrappers
  import opened Lifecycle

  lemma {:induction false} LastStep(s: State, run: seq<Step>, st: Step)
    requires Runs(s, run + [st])
    ensures Runs(s, run) && Enabled(After(s, run), st) && After(s, run + [st]) == Do(After(s, run), st)
    decreases run
  {
    if run == [] {
      assert run + [st] == [st] && [st][1..] == [];
    } else {
      assert (run + [st])[0] == run[0] && (run + [st])[1..] == run[1..] + [st];
      LastStep(Do(s, run[0]), run[1..], st);
    }
  }

  // ------------------------------------------------------------ Run and OnBegin

  predicate RunIs(s: State, run: seq<Step>) {
    && (s.run == Started <==> StartRun(true) in run)
    && (s.run == Aborted <==> StartRun(false) in run)
    && (s.cancelled <==> Cancel in run)
    && (s.readerDone <==> ReaderSawClose in run)
  }

  /** OnBegin's outcome, its state write, and the error it reports. */
  predicate BeginIs(s: State, run: seq<Step>) {
    && (s.begin == Activating || Active in s.field.writes <==> BeginReturns(true) in run)
    && (s.begin == Failing || Failed in s.field.writes <==> BeginReturns(false) in run)
    && !(BeginReturns(true) in run && BeginReturns(false) in run)
    && (s.begin == Handling <==> BeginReturns(true) !in run && BeginReturns(false) !in run)
    && (s.begin == Complaining ==> BeginReturns(false) in run)
  }

  predicate DoneIs(s: State, run: seq<Step>) {
    && (ErrDone in s.done.sent <==> StartRun(false) in run || (BeginReturns(false) in run && s.begin == Finished))
    && (NilDone in s.done.sent <==> s.fin.pc == Ended)
  }

  lemma StepKeepsRunIs(s: State, st: Step, run: seq<Step>)
    requires RunIs(s, run) && Enabled(s, st)
    ensures RunIs(Do(s, st), run + [st])
  {
    var s' := Do(s, st);
    if !st.StartRun? {
      assert s'.run == s.run;
    }
    if !st.Cancel? {
      assert s'.cancelled == s.cancelled;
    }
    if !st.ReaderSawClose? {
      assert s'.readerDone == s.readerDone;
    }
  }

  lemma StepKeepsBeginIs(s: State, st: Step, run: seq<Step>)
    requires BeginIs(s, run) && DoneOk(s) && Enabled(s, st)
    ensures BeginIs(Do(s, st), run + [st])
  {
    match st
    case BeginReturns(_) =>
    case BeginGoesOn => GoesOnKeepsBegin(s, run);
    case Finalize =>
      assert Do(s, st).begin == s.begin;
      assert forall x | x == Active || x == Failed :: x in Do(s, st).field.writes <==> x in s.field.writes;
    case _ => assert Do(s, st).begin == s.begin && Do(s, st).field == s.field;
  }

  lemma GoesOnKeepsBegin(s: State, run: seq<Step>)
    requires BeginIs(s, run) && CanGoOn(s)
    ensures BeginIs(BeginStep(s), run + [BeginGoesOn])
  {
  }

  lemma StepKeepsDoneIs(s: State, st: Step, run: seq<Step>)
    requires RunIs(s, run) && BeginIs(s, run) && DoneOk(s) && DoneIs(s, run) && Enabled(s, st)
    requires s.begin == Finished ==> Active in s.field.writes || Failed in s.field.writes
    ensures DoneIs(Do(s, st), run + [st])
  {
    match st
    case StartRun(_) =>
    case BeginReturns(_) =>
    case BeginGoesOn =>
    case Finalize =>
    case _ =>
      assert Do(s, st).done.sent == s.done.sent && Do(s, st).fin == s.fin && Do(s, st).begin == s.begin;
  }

  // ------------------------------------------------------------ closers

  /** A reader goroutine never waits; a caller of Close always does, and returns nil exactly
      by the finalized channel. */
  predicate CloserIs(x: Closer, c: nat, run: seq<Step>) {
    && (x.fromReader ==> !x.hasCallback && x.pc != Await && !x.pc.Done?)
    && (!x.fromReader ==> x.pc != Gone)
    && (x.pc == Done(true) <==> AwaitFinalized(c) in run)
    && (x.pc == Done(false) <==> AwaitExpired(c) in run)
    && (CloseTrigger(c) in run ==> x.pc == Await || x.pc.Done? || x.pc == Gone)
    && (x.pc == InCallback || CallbackReturns(c) in run ==> x.hasCallback)
  }

  /** The callers of doClose, in order. */
  function Callers(run: seq<Step>): seq<(bool, bool)> {
    if run == [] then []
    else
      var front, st := Callers(run[..|run| - 1]), run[|run| - 1];
      match st
      case NewCloser(hasCallback) => front + [(false, hasCallback)]
      case ReaderSawClose => front + [(true, false)]
      case _ => front
  }

  ghost predicate ClosersAre(s: State, run: seq<Step>) {
    && |s.closers| == |Callers(run)|
    && (forall c | 0 <= c < |s.closers| ::
      CloserIs(s.closers[c], c, run) && (s.closers[c].fromReader, s.closers[c].hasCallback) == Callers(run)[c])
    && (forall c | c >= |s.closers| :: Unmoved(run, c))
  }

  predicate Unmoved(run: seq<Step>, c: nat) {
    && AwaitFinalized(c) !in run && AwaitExpired(c) !in run
    && CloseTrigger(c) !in run && CallbackReturns(c) !in run
  }

  lemma StepKeepsCloser(s: State, st: Step, run: seq<Step>, c: nat)
    requires Enabled(s, st) && c < |s.closers| && CloserIs(s.closers[c], c, run)
    ensures var x, x' := s.closers[c], Do(s, st).closers[c];
            CloserIs(x', c, run + [st]) && x'.fromReader == x.fromReader && x'.hasCallback == x.hasCallback
  {
    var x, x' := s.closers[c], Do(s, st).closers[c];
    if st in {CheckState(c), EnterOnce(c), CallbackReturns(c), CloseTrigger(c), AwaitFinalized(c), AwaitExpired(c)} {
    } else {
      assert x' == x;
    }
  }

  lemma StepKeepsClosersAre(s: State, st: Step, run: seq<Step>)
    requires ClosersAre(s, run) && Enabled(s, st)
    ensures ClosersAre(Do(s, st), run + [st])
  {
    var s', run' := Do(s, st), run + [st];
    assert run'[..|run|] == run;
    assert |s'.closers| == |s.closers| + (if st.NewCloser? || st.ReaderSawClose? then 1 else 0);
    forall c | c >= |s.closers| ensures Unmoved(run', c) {
      assert Unmoved(run, c);
    }
    forall c | 0 <= c < |s'.closers|
      ensures CloserIs(s'.closers[c], c, run')
      ensures (s'.closers[c].fromReader, s'.closers[c].hasCallback) == Callers(run')[c]
    {
      if c < |s.closers| {
        StepKeepsCloser(s, st, run, c);
      } else {
        assert Unmoved(run', c);
      }
    }
  }

  // ------------------------------------------------------------ close handlers

  datatype Handler = AudioClose | User | TransportClose

  /** The list onCloseHandlers. */
  function HandlerList(run: seq<Step>): seq<Handler> {
    if run == [] then [AudioClose]
    else
      var front, st := HandlerList(run[..|run| - 1]), run[|run| - 1];
      if st == Register then front + [User] else if st == StartRun(true) then front + [TransportClose] else front
  }

  predicate HandlersAre(s: State, run: seq<Step>) {
    var list := HandlerList(run);
    && |list| == s.handlers.registered
    && (forall i | 0 <= i < |list| :: list[i] == TransportClose <==> s.handlers.transport == Some(i))
    && (s.handlers.transport.Some? ==> s.handlers.transport.value < |list|)
    && (s.run != Started ==> s.handlers.transport == None)
  }

  lemma StepKeepsHandlersAre(s: State, st: Step, run: seq<Step>)
    requires HandlersAre(s, run) && Enabled(s, st)
    ensures HandlersAre(Do(s, st), run + [st])
  {
    assert (run + [st])[..|run|] == run;
    if !st.Register? && !st.StartRun? {
      assert Do(s, st).handlers == s.handlers && Do(s, st).run == s.run;
    }
  }

  // ------------------------------------------------------------ the main results

  ghost predicate Accounted(s: State, run: seq<Step>) {
    RunIs(s, run) && BeginIs(s, run) && DoneIs(s, run) && ClosersAre(s, run) && HandlersAre(s, run)
  }

  lemma FinishedHasWritten(s: State)
    requires HistoryOk(s.field, s.fin.pc, s.begin) && s.begin == Finished
    ensures Active in s.field.writes || Failed in s.field.writes
  {
    ShareIsWritten(s.field.writes);
  }

  lemma {:induction false} ShareIsWritten(ws: seq<SessionState>)
    ensures forall x | x in ByBegin(ws) :: x in ws
  {
    if ws != [] {
      ShareIsWritten(ws[..|ws| - 1]);
    }
  }

  lemma StepAccounts(s: State, st: Step, run: seq<Step>)
    requires Good(s) && Accounted(s, run) && Enabled(s, st)
    ensures Accounted(Do(s, st), run + [st])
  {
    if s.begin == Finished {
      FinishedHasWritten(s);
    }
    StepKeepsRunIs(s, st, run);
    StepKeepsBeginIs(s, st, run);
    StepKeepsDoneIs(s, st, run);
    StepKeepsClosersAre(s, st, run);
    StepKeepsHandlersAre(s, st, run);
  }

  lemma {:induction false} RunAccounts(run: seq<Step>)
    requires Runs(Initial(), run)
    ensures Accounted(After(Initial(), run), run)
    decreases |run|
  {
    if run != [] {
      var past, st := run[..|run| - 1], run[|run| - 1];
      assert run == past + [st];
      LastStep(Initial(), past, st);
      RunAccounts(past);
      ReachableIsGood(past);
      StepAccounts(After(Initial(), past), st, past);
    }
  }

  /** OnBegin's success alone leads to active, its failure alone to failed; and done is sent
      an error exactly if Run could not start or a failed OnBegin has reported, and nil
      exactly if the finalizer has ended. */
  lemma BeginDecides(run: seq<Step>)
    requires Runs(Initial(), run)
    ensures var s := After(Initial(), run);
            && (Active in s.field.writes ==> BeginReturns(true) in run && Failed !in s.field.writes)
            && (Failed in s.field.writes ==> BeginReturns(false) in run)
            && (s.begin == Finished && BeginReturns(true) in run ==> Active in s.field.writes)
            && (s.begin == Finished && BeginReturns(false) in run ==> Failed in s.field.writes)
            && (ErrDone in s.done.sent <==>
                 StartRun(false) in run || (BeginReturns(false) in run && s.begin == Finished))
            && (NilDone in s.done.sent <==> s.fin.pc == Ended)
  {
    RunAccounts(run);
    ReachableIsGood(run);
    var s := After(Initial(), run);
    BeginWritesOne(s.field.writes);
  }

  lemma {:induction false} BeginWritesOne(ws: seq<SessionState>)
    ensures forall x | x == Active || x == Failed :: x in ws <==> x in ByBegin(ws)
  {
    if ws != [] {
      BeginWritesOne(ws[..|ws| - 1]);
      assert ws == ws[..|ws| - 1] + [ws[|ws| - 1]];
    }
  }

  /** How many values were received from the channel. */
  function Takes(run: seq<Step>): nat {
    if run == [] then 0 else Takes(run[..|run| - 1]) + (if run[|run| - 1].TakeDone? then 1 else 0)
  }

  /** The channel holds what was sent and not received, in order. */
  lemma {:induction false} DoneIsQueued(run: seq<Step>)
    requires Runs(Initial(), run)
    ensures var done := After(Initial(), run).done; Takes(run) <= |done.sent| && done.slot == done.sent[Takes(run)..]
    decreases |run|
  {
    if run != [] {
      var past, st := run[..|run| - 1], run[|run| - 1];
      assert run == past + [st];
      LastStep(Initial(), past, st);
      DoneIsQueued(past);
      StepQueuesDone(After(Initial(), past), st, Takes(past));
    }
  }

  lemma StepQueuesDone(s: State, st: Step, n: nat)
    requires Enabled(s, st) && n <= |s.done.sent| && s.done.slot == s.done.sent[n..]
    ensures var done, m := Do(s, st).done, if st.TakeDone? then n + 1 else n;
            m <= |done.sent| && done.slot == done.sent[m..]
  {
  }

  /** Every caller of doClose is where its steps put it: the reader never waits, Close always
      does, and Close returns nil exactly through the finalized channel. */
  lemma ClosersEndAsRun(run: seq<Step>)
    requires Runs(Initial(), run)
    ensures var s := After(Initial(), run);
            |s.closers| == |Callers(run)| &&
            forall c | 0 <= c < |s.closers| ::
              && CloserIs(s.closers[c], c, run)
              && (s.closers[c].fromReader, s.closers[c].hasCallback) == Callers(run)[c]
  {
    RunAccounts(run);
  }

  /** The reader stops once it found the transport closed: at most one caller is it. */
  predicate OneReader(s: State) {
    && (s.readerDone <==> exists c :: 0 <= c < |s.closers| && s.closers[c].fromReader)
    && (forall c, d | 0 <= c < d < |s.closers| :: !(s.closers[c].fromReader && s.closers[d].fromReader))
  }

  lemma StepKeepsOneReader(s: State, st: Step)
    requires OneReader(s) && Enabled(s, st)
    ensures OneReader(Do(s, st))
  {
    var s' := Do(s, st);
    SameCallers(s, st);
    if st.ReaderSawClose? {
      assert s'.closers[|s.closers|].fromReader;
    } else if s.readerDone {
      var c :| 0 <= c < |s.closers| && s.closers[c].fromReader;
      assert s'.closers[c].fromReader;
    }
  }

  /** A step adds a caller at most, and changes none of those there. */
  lemma SameCallers(s: State, st: Step)
    requires Enabled(s, st)
    ensures var s' := Do(s, st);
            && |s.closers| <= |s'.closers| <= |s.closers| + 1
            && (forall c | 0 <= c < |s.closers| :: s'.closers[c].fromReader == s.closers[c].fromReader)
            && (|s'.closers| > |s.closers| ==> s'.closers[|s.closers|].fromReader == st.ReaderSawClose?)
            && (s'.readerDone <==> s.readerDone || st.ReaderSawClose?)
  {
  }

  lemma {:induction false} ReaderClosesOnce(run: seq<Step>)
    requires Runs(Initial(), run)
    ensures OneReader(After(Initial(), run))
    decreases |run|
  {
    if run != [] {
      var past, st := run[..|run| - 1], run[|run| - 1];
      assert run == past + [st];
      LastStep(Initial(), past, st);
      ReaderClosesOnce(past);
      StepKeepsOneReader(After(Initial(), past), st);
    }
  }

  /** A Close that waits may give up at any moment, finalized or not; it may return nil as
      soon as the session is finalized, and not before. */
  lemma WaitingMayReturn(s: State, c: nat)
    requires c < |s.closers| && s.closers[c].pc == Await
    ensures Enabled(s, AwaitExpired(c))
    ensures Do(s, AwaitExpired(c)).closers == s.closers[c := s.closers[c].(pc := Done(false))]
    ensures Enabled(s, AwaitFinalized(c)) <==> s.fin.closes > 0
    ensures s.fin.closes > 0 ==> Do(s, AwaitFinalized(c)).closers == s.closers[c := s.closers[c].(pc := Done(true))]
  {
  }

  /** The transport's handler was registered before the finalizer took its list. */
  predicate TransportCaptured(s: State) {
    s.handlers.transport.Some? ==> Captured(s, s.handlers.transport.value + 1)
  }

  lemma StepKeepsTransportCaptured(s: State, st: Step)
    requires Good(s) && TransportCaptured(s) && Enabled(s, st)
    ensures TransportCaptured(Do(s, st))
  {
    if st.StartRun? {
      assert s.fin.pc == Listening;
    } else {
      assert Do(s, st).handlers.transport == s.handlers.transport;
      if s.handlers.transport.Some? {
        StepKeepsCaptured(s, st, s.handlers.transport.value + 1);
      }
    }
  }

  lemma {:induction false} TransportIsCaptured(run: seq<Step>)
    requires Runs(Initial(), run)
    ensures TransportCaptured(After(Initial(), run))
    decreases |run|
  {
    if run != [] {
      var past, st := run[..|run| - 1], run[|run| - 1];
      assert run == past + [st];
      LastStep(Initial(), past, st);
      TransportIsCaptured(past);
      ReachableIsGood(past);
      StepKeepsTransportCaptured(After(Initial(), past), st);
    }
  }

  /** The finalizer is past its handlers. */
  predicate HandlersCalled(s: State) {
    s.fin.pc == MarkClosed || FinalizerWrote(s)
  }

  /** The close handlers are the audio's, then those registered, in order, with the transport's
      where Run put it; and once the finalizer is past them it has called the audio's first
      and the transport's among the rest. */
  lemma TransportIsClosed(run: seq<Step>)
    requires Runs(Initial(), run) && HandlersCalled(After(Initial(), run))
    ensures var s, list := After(Initial(), run), HandlerList(run);
            && |s.fin.calls| <= |list| == s.handlers.registered
            && s.fin.calls != [] && s.fin.calls[0] == 0 && list[0] == AudioClose
            && exists i :: i in s.fin.calls && i < |list| && list[i] == TransportClose
  {
    RunAccounts(run);
    ReachableIsGood(run);
    TransportIsCaptured(run);
    AudioIsFirst(run);
    var s := After(Initial(), run);
    var i := s.handlers.transport.value;
    assert s.fin.calls[i] == i;
  }

  lemma {:induction false} AudioIsFirst(run: seq<Step>)
    ensures HandlerList(run) != [] && HandlerList(run)[0] == AudioClose
  {
    if run != [] {
      AudioIsFirst(run[..|run| - 1]);
    }
  }
}
