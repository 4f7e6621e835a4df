/**
 A session on a WebSocket transport: the lifecycle and the outbound queue together,
 with the handlers that answer a request and then, in their after-reply hook, close the
 session with a callback that sends session.terminate (request.go, session.go,
 proto/protov1/handler.go, transport/ws/transport.go).
 */
module ReplyOrder {
  import opened Wrappers
  import Frames
  import Lifecycle
  import Outbound

  /** Whether the session.terminate of a callback was answered, and if so whether the context
      had ended before. */
  datatype Answer = Pending | InTime | AfterCancel

  /** A handler goroutine past its reply: where the queue accepted the reply, the closer
      its hook became, and where the queue accepted that closer's session.terminate. */
  datatype Hook = Hook(reply: nat, closer: Option<nat>, terminate: Option<nat>, answer: Answer)

  datatype State = State(life: Lifecycle.State, out: Outbound.State, hooks: seq<Hook>)

  datatype Step =
    | Life(l: Lifecycle.Step)
    | Transport(o: Outbound.Step)
    | Reply(data: Frames.Bytes)
    | HookCloses(h: nat)
    | SendTerminate(h: nat, data: Frames.Bytes)
    | TerminateAnswered(h: nat)

  function Initial(): State {
    State(Lifecycle.Initial(), Outbound.Initial(), [])
  }

  /** The finalizer is about to call transport.Close. */
  predicate CallsTransportClose(life: Lifecycle.State, l: Lifecycle.Step) {
    && l.Finalize?
    && life.fin.pc.Calling?
    && life.fin.pc.next < life.fin.pc.upTo
    && life.handlers.transport == Some(life.fin.pc.next)
  }

  predicate Enabled(s: State, st: Step) {
    match st
    case Life(l) => Lifecycle.Enabled(s.life, l)
    // transport.Close is called by the finalizer only, and the session's context is the transport's
    case Transport(o) => !o.CallClose? && !o.Cancel? && Outbound.Enabled(s.out, o)
    case Reply(data) => Outbound.Enabled(s.out, Outbound.WriteText(data))
    case HookCloses(h) => h < |s.hooks| && s.hooks[h].closer == None
    case SendTerminate(h, data) =>
      && h < |s.hooks| && s.hooks[h].closer.Some? && s.hooks[h].terminate == None
      && Lifecycle.At(s.life.closers, s.hooks[h].closer.value, Lifecycle.InCallback)
      && Outbound.Enabled(s.out, Outbound.WriteText(data))
    // the callback waits for the answer, and the peer answers what came over the wire
    case TerminateAnswered(h) =>
      && h < |s.hooks| && s.hooks[h].terminate.Some? && s.hooks[h].answer == Pending
      && s.hooks[h].closer.Some? && Lifecycle.At(s.life.closers, s.hooks[h].closer.value, Lifecycle.InCallback)
      && s.hooks[h].terminate.value in s.out.sent
  }

  function Do(s: State, st: Step): State
    requires Enabled(s, st)
  {
    match st
    case Life(l) =>
      var out' :=
        if CallsTransportClose(s.life, l) then Outbound.Do(s.out, Outbound.CallClose)
        else if l.Cancel? then Outbound.Do(s.out, Outbound.Cancel)
        else s.out;
      s.(life := Lifecycle.Do(s.life, l), out := out')
    case Transport(o) => s.(out := Outbound.Do(s.out, o))
    case Reply(data) =>
      s.(out := Outbound.Do(s.out, Outbound.WriteText(data)),
         hooks := s.hooks + [Hook(|s.out.accepted|, None, None, Pending)])
    case HookCloses(h) =>
      s.(life := Lifecycle.Do(s.life, Lifecycle.NewCloser(true)),
         hooks := s.hooks[h := s.hooks[h].(closer := Some(|s.life.closers|))])
    case SendTerminate(h, data) =>
      s.(out := Outbound.Do(s.out, Outbound.WriteText(data)),
         hooks := s.hooks[h := s.hooks[h].(terminate := Some(|s.out.accepted|))])
    case TerminateAnswered(h) =>
      s.(hooks := s.hooks[h := s.hooks[h].(answer := if s.life.cancelled then AfterCancel else InTime)])
  }

  predicate Runs(s: State, run: seq<Step>)
    decreases run
  {
    run == [] || (Enabled(s, run[0]) && Runs(Do(s, run[0]), run[1..]))
  }

  function After(s: State, run: seq<Step>): State
    requires Runs(s, run)
    decreases run
  {
    if run == [] then s else After(Do(s, run[0]), run[1..])
  }

  /** transport.Close has not begun unless the finalizer has, or the context ended. */
  predicate CloseOk(s: State) {
    && s.out.conn.cancelled == s.life.cancelled
    && (Outbound.Undisturbed(s.out) || s.life.cancelled || s.life.fin.pc != Lifecycle.Listening)
  }

  /** Within one goroutine the reply is accepted before the terminate. */
  predicate HooksOk(s: State) {
    forall h | 0 <= h < |s.hooks| ::
      && s.hooks[h].reply < |s.out.accepted|
      && (s.hooks[h].terminate.Some? ==> s.hooks[h].reply < s.hooks[h].terminate.value < |s.out.accepted|)
  }

  /** Frame i is on the wire, and so is frame j, behind it. */
  predicate OnWireInOrder(sent: seq<nat>, i: nat, j: nat) {
    i < j < |sent| && sent[i] == i && sent[j] == j
  }

  /** An answer in time was to a terminate behind its reply. */
  predicate AnswersOk(s: State) {
    forall h | 0 <= h < |s.hooks| && s.hooks[h].answer == InTime ::
      s.hooks[h].terminate.Some? && OnWireInOrder(s.out.sent, s.hooks[h].reply, s.hooks[h].terminate.value)
  }

  predicate Good(s: State) {
    Lifecycle.Good(s.life) && Outbound.Good(s.out) && CloseOk(s) && HooksOk(s) && AnswersOk(s)
  }

  lemma OutKeepsUndisturbed(out: Outbound.State, o: Outbound.Step)
    requires Outbound.Enabled(out, o)
    ensures |Outbound.Do(out, o).accepted| >= |out.accepted|
    ensures o.WriteText? ==> |Outbound.Do(out, o).accepted| == |out.accepted| + 1
    ensures !o.CallClose? && Outbound.Undisturbed(out) && !out.conn.cancelled ==>
              Outbound.Undisturbed(Outbound.Do(out, o))
    ensures !o.Cancel? ==> Outbound.Do(out, o).conn.cancelled == out.conn.cancelled
  {
  }

  lemma FinalizerKeepsGoing(life: Lifecycle.State, l: Lifecycle.Step)
    requires Lifecycle.Enabled(life, l)
    ensures life.fin.pc != Lifecycle.Listening ==> Lifecycle.Do(life, l).fin.pc != Lifecycle.Listening
    ensures CallsTransportClose(life, l) ==> Lifecycle.Do(life, l).fin.pc != Lifecycle.Listening
    ensures Lifecycle.Do(life, l).cancelled == (life.cancelled || l.Cancel?)
  {
  }

  lemma LifeKeepsGood(s: State, l: Lifecycle.Step)
    requires Good(s) && Lifecycle.Enabled(s.life, l)
    ensures var s' := Do(s, Life(l)); Lifecycle.Good(s'.life) && Outbound.Good(s'.out) && CloseOk(s')
  {
    Lifecycle.StepKeepsGood(s.life, l);
    FinalizerKeepsGoing(s.life, l);
    if CallsTransportClose(s.life, l) {
      Outbound.StepKeepsGood(s.out, Outbound.CallClose);
      OutKeepsUndisturbed(s.out, Outbound.CallClose);
    } else if l.Cancel? {
      Outbound.StepKeepsGood(s.out, Outbound.Cancel);
    }
  }

  lemma StepKeepsHooks(s: State, st: Step)
    requires HooksOk(s) && Enabled(s, st)
    ensures HooksOk(Do(s, st))
  {
    match st
    case Life(l) => assert Do(s, st).hooks == s.hooks && Do(s, st).out.accepted == s.out.accepted;
    case Transport(o) => OutKeepsUndisturbed(s.out, o);
    case Reply(data) => OutKeepsUndisturbed(s.out, Outbound.WriteText(data));
    case SendTerminate(_, data) => OutKeepsUndisturbed(s.out, Outbound.WriteText(data));
    case HookCloses(_) =>
    case TerminateAnswered(_) => assert Do(s, st).out == s.out;
  }

  lemma OutGrows(s: State, st: Step)
    requires Enabled(s, st)
    ensures s.out.sent <= Do(s, st).out.sent
  {
    match st
    case Transport(o) => assert s.out.sent <= Outbound.Do(s.out, o).sent;
    case _ =>
  }

  /** A terminate on the wire while its callback runs. */
  lemma InTimeIsInOrder(s: State, h: nat)
    requires Good(s) && Enabled(s, TerminateAnswered(h)) && !s.life.cancelled
    ensures OnWireInOrder(s.out.sent, s.hooks[h].reply, s.hooks[h].terminate.value)
  {
    CallbackMeansUndisturbed(s.life, s.hooks[h].closer.value);
    assert Outbound.WireOk(s.out);
  }

  lemma StepKeepsAnswers(s: State, st: Step)
    requires Good(s) && Enabled(s, st)
    ensures AnswersOk(Do(s, st))
  {
    var s' := Do(s, st);
    OutGrows(s, st);
    if st.TerminateAnswered? && !s.life.cancelled {
      InTimeIsInOrder(s, st.h);
    }
    forall h | 0 <= h < |s'.hooks| && s'.hooks[h].answer == InTime
      ensures s'.hooks[h].terminate.Some?
              && OnWireInOrder(s'.out.sent, s'.hooks[h].reply, s'.hooks[h].terminate.value)
    {
      assert h < |s.hooks| && s'.hooks[h].reply == s.hooks[h].reply && s'.hooks[h].terminate == s.hooks[h].terminate;
    }
  }

  lemma OutKeepsClose(s: State, o: Outbound.Step)
    requires CloseOk(s) && Outbound.Enabled(s.out, o) && !o.CallClose? && !o.Cancel?
    ensures CloseOk(s.(out := Outbound.Do(s.out, o)))
  {
    OutKeepsUndisturbed(s.out, o);
  }

  lemma StepKeepsGood(s: State, st: Step)
    requires Good(s) && Enabled(s, st)
    ensures Good(Do(s, st))
  {
    StepKeepsHooks(s, st);
    StepKeepsAnswers(s, st);
    match st
    case Life(l) => LifeKeepsGood(s, l);
    case Transport(o) =>
      Outbound.StepKeepsGood(s.out, o);
      OutKeepsClose(s, o);
    case Reply(data) =>
      Outbound.StepKeepsGood(s.out, Outbound.WriteText(data));
      OutKeepsClose(s, Outbound.WriteText(data));
    case SendTerminate(_, data) =>
      Outbound.StepKeepsGood(s.out, Outbound.WriteText(data));
      OutKeepsClose(s, Outbound.WriteText(data));
    case HookCloses(h) =>
      Lifecycle.StepKeepsGood(s.life, Lifecycle.NewCloser(true));
      FinalizerKeepsGoing(s.life, Lifecycle.NewCloser(true));
    case TerminateAnswered(_) =>
  }

  lemma {:induction false} RunKeepsGood(s: State, run: seq<Step>)
    requires Good(s) && Runs(s, run)
    ensures Good(After(s, run))
    decreases run
  {
    if run != [] {
      StepKeepsGood(s, run[0]);
      RunKeepsGood(Do(s, run[0]), run[1..]);
    }
  }

  /** In every run without cancellation: while a close callback runs, no transport close
      or drain has begun, so the wire is a prefix of acceptance order; and a terminate the
      callback sent is on the wire only behind the reply that triggered its hook. */
  lemma ReplyBeforeTerminate(run: seq<Step>, c: nat)
    requires Runs(Initial(), run)
    requires var s := After(Initial(), run); !s.life.cancelled && Lifecycle.At(s.life.closers, c, Lifecycle.InCallback)
    ensures var s := After(Initial(), run);
            && Outbound.Undisturbed(s.out)
            && s.out.sent == Upto(|s.out.sent|)
            && (forall h | 0 <= h < |s.hooks| && s.hooks[h].terminate.Some? ::
                 && s.hooks[h].reply < s.hooks[h].terminate.value
                 && (s.hooks[h].terminate.value in s.out.sent ==>
                      s.hooks[h].terminate.value < |s.out.sent|
                      && s.out.sent[s.hooks[h].terminate.value] == s.hooks[h].terminate.value
                      && s.out.sent[s.hooks[h].reply] == s.hooks[h].reply))
  {
    Lifecycle.InitialIsGood();
    Outbound.InitialIsGood();
    RunKeepsGood(Initial(), run);
    WireDuringCallback(After(Initial(), run), c);
  }

  lemma WireDuringCallback(s: State, c: nat)
    requires Good(s) && !s.life.cancelled && Lifecycle.At(s.life.closers, c, Lifecycle.InCallback)
    ensures Outbound.Undisturbed(s.out) && s.out.sent == Upto(|s.out.sent|)
    ensures forall h | 0 <= h < |s.hooks| && s.hooks[h].terminate.Some? ::
              && s.hooks[h].reply < s.hooks[h].terminate.value
              && (s.hooks[h].terminate.value in s.out.sent ==>
                   s.hooks[h].terminate.value < |s.out.sent|
                   && s.out.sent[s.hooks[h].terminate.value] == s.hooks[h].terminate.value
                   && s.out.sent[s.hooks[h].reply] == s.hooks[h].reply)
  {
    CallbackMeansUndisturbed(s.life, c);
    assert Outbound.WireOk(s.out);
  }

  lemma CallbackMeansUndisturbed(life: Lifecycle.State, c: nat)
    requires Lifecycle.Good(life) && !life.cancelled && Lifecycle.At(life.closers, c, Lifecycle.InCallback)
    ensures life.fin.pc == Lifecycle.Listening
  {
  }

  lemma {:induction false} WireStays(s: State, run: seq<Step>, h: nat)
    requires Runs(s, run) && h < |s.hooks| && s.hooks[h].terminate.Some?
    ensures s.out.sent <= After(s, run).out.sent && h < |After(s, run).hooks|
    ensures After(s, run).hooks[h].reply == s.hooks[h].reply
    ensures After(s, run).hooks[h].terminate == s.hooks[h].terminate
    decreases run
  {
    if run != [] {
      OutGrows(s, run[0]);
      WireStays(Do(s, run[0]), run[1..], h);
    }
  }

  /** A terminate that is on the wire while its callback runs stands behind its reply for
      good, whatever happens afterwards: drains, failures, cancellation. */
  lemma ReplyStaysBeforeTerminate(run: seq<Step>, c: nat, h: nat, more: seq<Step>)
    requires Runs(Initial(), run)
    requires var s := After(Initial(), run);
             && !s.life.cancelled && Lifecycle.At(s.life.closers, c, Lifecycle.InCallback)
             && h < |s.hooks| && s.hooks[h].terminate.Some? && s.hooks[h].terminate.value in s.out.sent
             && Runs(s, more)
    ensures var s' := After(After(Initial(), run), more);
            && h < |s'.hooks| && s'.hooks[h].terminate.Some?
            && OnWireInOrder(s'.out.sent, s'.hooks[h].reply, s'.hooks[h].terminate.value)
  {
    ReplyBeforeTerminate(run, c);
    WireStays(After(Initial(), run), more, h);
  }

  /** In every run: each session.terminate that was answered while its callback waited, and
      before any cancellation, is on the wire behind the reply that triggered it. */
  lemma AnsweredTerminateFollowsReply(run: seq<Step>, h: nat)
    requires Runs(Initial(), run)
    requires h < |After(Initial(), run).hooks| && After(Initial(), run).hooks[h].answer == InTime
    ensures var s := After(Initial(), run);
            s.hooks[h].terminate.Some? && OnWireInOrder(s.out.sent, s.hooks[h].reply, s.hooks[h].terminate.value)
  {
    Lifecycle.InitialIsGood();
    Outbound.InitialIsGood();
    RunKeepsGood(Initial(), run);
  }

  // ------------------------------------------------------------ transport.Close

  /** The finalizer has called the handler that is transport.Close. */
  predicate TransportCalled(life: Lifecycle.State) {
    life.handlers.transport.Some? &&
    match life.fin.pc
    case Listening => false
    case MarkClosing => false
    case Calling(n, _) => life.handlers.transport.value < n
    case _ => life.handlers.transport.value < |life.fin.calls|
  }

  predicate CloseBegun(s: State) {
    TransportCalled(s.life) ==> s.out.conn.closeCloses > 0 || s.out.conn.doneCloses > 0
  }

  lemma LifeKeepsCloseBegun(s: State, l: Lifecycle.Step)
    requires Lifecycle.FinalizerOk(s.life) && Lifecycle.DoneOk(s.life) && CloseBegun(s) && Lifecycle.Enabled(s.life, l)
    ensures CloseBegun(Do(s, Life(l)))
  {
    if !CallsTransportClose(s.life, l) {
      TransportCalledBefore(s.life, l);
    }
  }

  lemma TransportCalledBefore(life: Lifecycle.State, l: Lifecycle.Step)
    requires Lifecycle.FinalizerOk(life) && Lifecycle.DoneOk(life) && Lifecycle.Enabled(life, l)
    requires !CallsTransportClose(life, l)
    ensures TransportCalled(Lifecycle.Do(life, l)) ==> TransportCalled(life)
  {
    if !l.Finalize? {
      assert Lifecycle.Do(life, l).fin == life.fin;
    }
  }

  lemma OutKeepsBegun(out: Outbound.State, o: Outbound.Step)
    requires Outbound.Enabled(out, o)
    ensures out.conn.closeCloses > 0 ==> Outbound.Do(out, o).conn.closeCloses > 0
    ensures out.conn.doneCloses > 0 ==> Outbound.Do(out, o).conn.doneCloses > 0
  {
  }

  lemma StepKeepsCloseBegun(s: State, st: Step)
    requires Good(s) && CloseBegun(s) && Enabled(s, st)
    ensures CloseBegun(Do(s, st))
  {
    match st
    case Life(l) => LifeKeepsCloseBegun(s, l);
    case Transport(o) => OutKeepsBegun(s.out, o);
    case Reply(data) => OutKeepsBegun(s.out, Outbound.WriteText(data));
    case SendTerminate(_, data) => OutKeepsBegun(s.out, Outbound.WriteText(data));
    case HookCloses(_) => TransportCalledBefore(s.life, Lifecycle.NewCloser(true));
    case TerminateAnswered(_) =>
  }

  lemma {:induction false} RunKeepsCloseBegun(s: State, run: seq<Step>)
    requires Good(s) && CloseBegun(s) && Runs(s, run)
    ensures CloseBegun(After(s, run))
    decreases run
  {
    if run != [] {
      StepKeepsGood(s, run[0]);
      StepKeepsCloseBegun(s, run[0]);
      RunKeepsCloseBegun(Do(s, run[0]), run[1..]);
    }
  }

  /** In every run, once the finalizer has called transport.Close, the transport's teardown
      has been triggered, or was over before. */
  lemma FinalizerClosesTransport(run: seq<Step>)
    requires Runs(Initial(), run) && TransportCalled(After(Initial(), run).life)
    ensures var conn := After(Initial(), run).out.conn; conn.closeCloses > 0 || conn.doneCloses > 0
  {
    Lifecycle.InitialIsGood();
    Outbound.InitialIsGood();
    RunKeepsCloseBegun(Initial(), run);
  }
}
