/**
 The outbound side of the WebSocket transport (transport/ws/transport.go,
 transport/ws/control.go): one bounded queue, fed by sessions, the audio pump, pings
 and farewells, and emptied by the sender loop and by one drainer per call of Close,
 all writing to one socket that may fail at any call.

 Each queue operation, each socket write under connMu and each close of a channel is
 one step. Frames are named by the position at which the queue accepted them.
 */
module Outbound {
  import opened Wrappers
  import opened Frames

  datatype ConsumerPc =
    | Ready                          // at the select of the loop
    | Pinging                        // committed to enqueue a ping
    | Holding(i: nat, frame: Frame)  // took frame i, about to hand it to the socket
    | Farewell                       // drained, about to enqueue the close frame
    | Waiting                        // in the final select of Close
    | Stopped

  /** The sender loop (not draining) or a call of Close. `log` is what it handed to the
      socket, in order. */
  datatype Consumer = Consumer(draining: bool, pc: ConsumerPc, log: seq<nat>)

  datatype TeardownPc = Running | ConnClosed | ControlClosed | Over

  /** The connection and whether a close frame went out on it, cc.closed, closes of closeChan
      and doneChan, and the deferred cleanup of process. */
  datatype Conn = Conn(
    open: bool,
    closeSent: bool,
    ccClosed: bool,
    closeCloses: nat,
    doneCloses: nat,
    teardown: TeardownPc,
    cancelled: bool)

  datatype State = State(
    accepted: seq<Frame>,    // everything ever enqueued in msgOutChan
    queue: seq<Frame>,       // msgOutChan
    taken: nat,
    consumers: seq<Consumer>, // consumers[0] is the sender loop
    sent: seq<nat>,          // socket writes that succeeded
    failed: seq<nat>,        // socket writes that failed
    conn: Conn)

  datatype Step =
    | WriteText(data: Bytes)
    | WriteAudio(data: Bytes)
    | PingTick
    | EnqueuePing
    | Take(c: nat)
    | SendOk(c: nat)
    | SendFails(c: nat, connGone: bool)
    | DrainedEmpty(c: nat)
    | SayGoodbye(c: nat)
    | CloseReturns(c: nat)
    | CallClose
    | SenderSawDone
    | SenderSawCancel
    | PeerCloses // and the connection answers with a close frame of its own
    | ReaderStops
    | Cancel
    | TearDown

  function Initial(): State {
    State([], [], 0, [Consumer(false, Ready, [])], [], [], Conn(true, false, false, 0, 0, Running, false))
  }

  predicate At(s: State, c: nat, pc: ConsumerPc) {
    c < |s.consumers| && s.consumers[c].pc == pc
  }

  predicate HoldsAny(s: State, c: nat) {
    c < |s.consumers| && s.consumers[c].pc.Holding?
  }

  predicate SenderAt(s: State, pc: ConsumerPc) {
    At(s, 0, pc) && !s.consumers[0].draining
  }

  predicate HasSlot(s: State) {
    |s.queue| < CAPACITY
  }

  /** net.ErrClosed comes from a closed connection, ErrCloseSent after a close frame. */
  predicate IsGone(conn: Conn) {
    !conn.open || conn.closeSent
  }

  predicate Enabled(s: State, st: Step) {
    match st
    case WriteText(_) => !s.conn.ccClosed && HasSlot(s)
    case WriteAudio(_) => HasSlot(s)
    case PingTick => SenderAt(s, Ready)
    case EnqueuePing => SenderAt(s, Pinging) && HasSlot(s)
    case Take(c) => At(s, c, Ready) && s.queue != []
    case SendOk(c) => HoldsAny(s, c) && s.conn.open
    case SendFails(c, connGone) => HoldsAny(s, c) && (connGone ==> IsGone(s.conn))
    case DrainedEmpty(c) => At(s, c, Ready) && s.consumers[c].draining && s.queue == []
    case SayGoodbye(c) => At(s, c, Farewell) && HasSlot(s)
    case CloseReturns(c) => At(s, c, Waiting)
    case CallClose => true
    case SenderSawDone => SenderAt(s, Ready) && s.conn.doneCloses > 0
    case SenderSawCancel => SenderAt(s, Ready) && s.conn.cancelled
    case PeerCloses => s.conn.open
    case ReaderStops => true
    case Cancel => true
    case TearDown =>
      (match s.conn.teardown
       case Running => s.conn.cancelled || s.conn.closeCloses > 0
       case Over => false
       case _ => true)
  }

  function Accept(s: State, f: Frame): State {
    s.(accepted := s.accepted + [f], queue := s.queue + [f])
  }

  function Goto(s: State, c: nat, pc: ConsumerPc): State
    requires c < |s.consumers|
  {
    s.(consumers := s.consumers[c := s.consumers[c].(pc := pc)])
  }

  /** doClose: closeOnce guards close(closeChan). */
  function CloseOnce(conn: Conn): Conn {
    if conn.closeCloses > 0 then conn else conn.(closeCloses := conn.closeCloses + 1)
  }

  /** Consumer c hands frame i to the socket and goes on at pc. */
  function Hand(s: State, c: nat, i: nat, pc: ConsumerPc): State
    requires c < |s.consumers|
  {
    var x := s.consumers[c];
    s.(consumers := s.consumers[c := x.(pc := pc, log := x.log + [i])])
  }

  /** Where a failed write leaves a consumer: the sender loop ends; a drain goes on
      unless the connection is gone. */
  function AfterFailure(x: Consumer, connGone: bool): ConsumerPc {
    if !x.draining then Stopped else if connGone then Farewell else Ready
  }

  function Do(s: State, st: Step): State
    requires Enabled(s, st)
  {
    match st
    case WriteText(data) => Accept(s, Frame(Text, data))
    case WriteAudio(data) => Accept(s, Frame(Binary, data))
    case PingTick => Goto(s, 0, Pinging)
    case EnqueuePing => Goto(Accept(s, Frame(Ping, [])), 0, Ready)
    case Take(c) => Goto(s, c, Holding(s.taken, s.queue[0])).(queue := s.queue[1..], taken := s.taken + 1)
    case SendOk(c) =>
      var i := s.consumers[c].pc.i;
      var said := s.consumers[c].pc.frame.kind == CloseFrame;
      Hand(s, c, i, Ready).(sent := s.sent + [i], conn := s.conn.(closeSent := s.conn.closeSent || said))
    case SendFails(c, connGone) =>
      var i := s.consumers[c].pc.i;
      Hand(s, c, i, AfterFailure(s.consumers[c], connGone)).(failed := s.failed + [i])
    case DrainedEmpty(c) => Goto(s, c, Farewell)
    case SayGoodbye(c) => Goto(Accept(s, Frame(CloseFrame, [])), c, Waiting)
    case CloseReturns(c) => Goto(s, c, Stopped)
    case CallClose => StartClose(s)
    case SenderSawDone => Goto(s, 0, Stopped)
    case SenderSawCancel =>
      if s.conn.doneCloses > 0 then Goto(s, 0, Stopped)
      else s.(consumers := s.consumers[0 := s.consumers[0].(draining := true)], conn := CloseOnce(s.conn))
    case PeerCloses => s.(conn := s.conn.(closeSent := true))
    case ReaderStops => s.(conn := CloseOnce(s.conn))
    case Cancel => s.(conn := s.conn.(cancelled := true))
    case TearDown => s.(conn := TearDownStep(s.conn))
  }

  /** Close: nothing to do when done, else trigger the teardown and start draining. */
  function StartClose(s: State): State {
    if s.conn.doneCloses > 0 then s
    else s.(consumers := s.consumers + [Consumer(true, Ready, [])], conn := CloseOnce(s.conn))
  }

  function TearDownStep(conn: Conn): Conn {
    match conn.teardown
    case Running => conn.(open := false, teardown := ConnClosed)
    case ConnClosed => conn.(ccClosed := true, teardown := ControlClosed)
    case ControlClosed => conn.(doneCloses := conn.doneCloses + 1, teardown := Over)
    case Over => conn
  }

  predicate Runs(s: State, run: seq<Step>)
    decreases run
  {
    run == [] || (Enabled(s, run[0]) && Runs(Do(s, run[0]), run[1..]))
  }

  function After(s: State, run: seq<Step>): State
    requires Runs(s, run)
    decreases run
  {
    if run == [] then s else After(Do(s, run[0]), run[1..])
  }

  // -------------------------------------------------------------- the invariant

  function HeldBy(x: Consumer): seq<nat> {
    if x.pc.Holding? then [x.pc.i] else []
  }

  /** What the consumers took and have not handed on. */
  function Held(cs: seq<Consumer>): seq<nat> {
    if cs == [] then [] else HeldBy(cs[0]) + Held(cs[1..])
  }

  lemma {:induction false} HeldSplits(xs: seq<Consumer>, ys: seq<Consumer>)
    ensures Held(xs + ys) == Held(xs) + Held(ys)
  {
    if xs == [] {
      assert xs + ys == ys;
    } else {
      calc {
        Held(xs + ys);
        { assert (xs + ys)[0] == xs[0] && (xs + ys)[1..] == xs[1..] + ys; }
        HeldBy(xs[0]) + Held(xs[1..] + ys);
        { HeldSplits(xs[1..], ys); }
        HeldBy(xs[0]) + (Held(xs[1..]) + Held(ys));
        HeldBy(xs[0]) + Held(xs[1..]) + Held(ys);
        Held(xs) + Held(ys);
      }
    }
  }

  lemma HeldAround(cs: seq<Consumer>, c: nat, x: Consumer)
    requires c < |cs|
    ensures Held(cs[c := x]) == Held(cs[..c]) + HeldBy(x) + Held(cs[c + 1..])
  {
    var before, after := cs[..c], cs[c + 1..];
    assert Held([x]) == HeldBy(x) by {
      assert [x][1..] == [];
      assert Held([]) == [];
    }
    calc {
      Held(cs[c := x]);
      { assert cs[c := x] == before + [x] + after; }
      Held(before + [x] + after);
      { HeldSplits(before + [x], after); }
      Held(before + [x]) + Held(after);
      { HeldSplits(before, [x]); }
      Held(before) + HeldBy(x) + Held(after);
    }
  }

  /** The queue is the untaken rest of what was accepted. */
  predicate QueueOk(s: State) {
    && s.taken <= |s.accepted|
    && s.queue == s.accepted[s.taken..]
    && |s.queue| <= CAPACITY
  }

  /** The frames no consumer has any more. */
  function Gone(s: State): multiset<nat> {
    multiset(s.sent) + multiset(s.failed)
  }

  /** Each taken frame is, once, sent, failed or held. */
  predicate TakenOk(s: State) {
    Gone(s) + multiset(Held(s.consumers)) == multiset(Upto(s.taken))
  }

  /** A consumer hands frames on in the order the queue accepted them. */
  predicate ConsumerOk(x: Consumer, s: State) {
    && Increasing(x.log)
    && (forall j | 0 <= j < |x.log| :: x.log[j] < (if x.pc.Holding? then x.pc.i else s.taken))
    && (x.pc.Holding? ==> x.pc.i < s.taken <= |s.accepted| && x.pc.frame == s.accepted[x.pc.i])
    && (x.pc.Pinging? ==> !x.draining)
  }

  predicate ConsumersOk(s: State) {
    && s.consumers != []
    && forall c | 0 <= c < |s.consumers| :: ConsumerOk(s.consumers[c], s)
  }

  /** No call of Close has begun and the sender did not turn to draining. */
  predicate Undisturbed(s: State) {
    |s.consumers| == 1 && !s.consumers[0].draining
  }

  /** Until then the wire is a prefix of acceptance order. */
  predicate WireOk(s: State) {
    Undisturbed(s) ==>
      && s.sent == Upto(|s.sent|)
      && match s.consumers[0].pc
         case Holding(i, _) => s.failed == [] && i == |s.sent| && s.taken == |s.sent| + 1
         case Stopped => s.taken == |s.sent| + |s.failed| && (s.failed == [] || s.failed == [|s.sent|])
         case _ => s.failed == [] && s.taken == |s.sent|
  }

  predicate ConnOk(conn: Conn) {
    && conn.closeCloses <= 1
    && conn.doneCloses == (if conn.teardown == Over then 1 else 0)
    && conn.open == (conn.teardown == Running)
    && conn.ccClosed == (conn.teardown == ControlClosed || conn.teardown == Over)
  }

  /** Whoever drains has triggered the teardown. */
  predicate DrainersOk(s: State) {
    forall c | 0 <= c < |s.consumers| && s.consumers[c].draining :: s.conn.closeCloses > 0
  }

  predicate Good(s: State) {
    QueueOk(s) && TakenOk(s) && ConsumersOk(s) && WireOk(s) && ConnOk(s.conn) && DrainersOk(s)
  }

  lemma StepKeepsQueue(s: State, st: Step)
    requires QueueOk(s) && Enabled(s, st)
    ensures QueueOk(Do(s, st))
  {
    var s' := Do(s, st);
    if st.Take? {
      assert s.accepted[s.taken + 1..] == s.queue[1..];
    } else if s'.accepted != s.accepted {
      var f := s'.accepted[|s.accepted|];
      assert s'.accepted == s.accepted + [f] && s'.queue == s.queue + [f] && s'.taken == s.taken;
      assert (s.accepted + [f])[s.taken..] == s.accepted[s.taken..] + [f];
    } else {
      assert s'.queue == s.queue && s'.taken == s.taken;
    }
  }

  /** What all consumers but c hold. */
  function Others(cs: seq<Consumer>, c: nat): multiset<nat>
    requires c < |cs|
  {
    multiset(Held(cs[..c])) + multiset(Held(cs[c + 1..]))
  }

  lemma HeldCounts(cs: seq<Consumer>, c: nat, x: Consumer)
    requires c < |cs|
    ensures multiset(Held(cs[c := x])) == Others(cs, c) + multiset(HeldBy(x))
  {
    HeldAround(cs, c, x);
  }

  /** What is held before and after consumer c moved. */
  lemma HeldMoves(cs: seq<Consumer>, cs': seq<Consumer>, c: nat)
    requires c < |cs| == |cs'| && cs' == cs[c := cs'[c]]
    ensures multiset(Held(cs)) == Others(cs, c) + multiset(HeldBy(cs[c]))
    ensures multiset(Held(cs')) == Others(cs, c) + multiset(HeldBy(cs'[c]))
  {
    HeldCounts(cs, c, cs[c]);
    HeldCounts(cs, c, cs'[c]);
    assert cs[c := cs[c]] == cs;
  }

  /** It is the same whether something is counted with what is gone or with what is held. */
  lemma Balances(gone: multiset<nat>, others: multiset<nat>, x: multiset<nat>)
    ensures gone + x + others == gone + (others + x) == gone + others + x
  {
  }

  /** Consumer c moves without a frame. */
  lemma MoveKeepsTaken(s: State, s': State, c: nat)
    requires TakenOk(s) && c < |s.consumers| == |s'.consumers|
    requires s'.consumers == s.consumers[c := s'.consumers[c]]
    requires !s.consumers[c].pc.Holding? && !s'.consumers[c].pc.Holding?
    requires s'.sent == s.sent && s'.failed == s.failed && s'.taken == s.taken
    ensures TakenOk(s')
  {
    HeldMoves(s.consumers, s'.consumers, c);
    assert Gone(s') == Gone(s);
  }

  lemma OthersKeepTaken(s: State, st: Step)
    requires TakenOk(s) && Enabled(s, st) && !st.Take? && !st.SendOk? && !st.SendFails? && !st.CallClose?
    ensures TakenOk(Do(s, st))
  {
    var s' := Do(s, st);
    assert s'.sent == s.sent && s'.failed == s.failed && s'.taken == s.taken;
    if s'.consumers != s.consumers {
      var c :=
        match st
        case DrainedEmpty(c) => c
        case SayGoodbye(c) => c
        case CloseReturns(c) => c
        case _ => 0;
      MoveKeepsTaken(s, s', c);
    }
  }

  lemma StepKeepsTaken(s: State, st: Step)
    requires TakenOk(s) && Enabled(s, st)
    ensures TakenOk(Do(s, st))
  {
    match st
    case Take(c) => TakeKeepsTaken(s, Do(s, st), c);
    case SendOk(c) => HandKeepsTaken(s, Do(s, st), c, [s.consumers[c].pc.i], []);
    case SendFails(c, _) => HandKeepsTaken(s, Do(s, st), c, [], [s.consumers[c].pc.i]);
    case CallClose => CloseKeepsTaken(s);
    case _ => OthersKeepTaken(s, st);
  }

  lemma TakeKeepsTaken(s: State, s': State, c: nat)
    requires TakenOk(s) && c < |s.consumers| == |s'.consumers| && s.consumers[c].pc == Ready
    requires s'.consumers == s.consumers[c := s'.consumers[c]] && HeldBy(s'.consumers[c]) == [s.taken]
    requires s'.sent == s.sent && s'.failed == s.failed && s'.taken == s.taken + 1
    ensures TakenOk(s')
  {
    var others := Others(s.consumers, c);
    HeldMoves(s.consumers, s'.consumers, c);
    assert others + multiset(HeldBy(s.consumers[c])) == others;
    UptoStep(s.taken);
    assert multiset(Upto(s.taken + 1)) == multiset(Upto(s.taken)) + multiset{s.taken};
    assert multiset([s.taken]) == multiset{s.taken};
    Balances(Gone(s), others, multiset{s.taken});
  }

  /** What consumer c held is now sent, or failed. */
  lemma HandKeepsTaken(s: State, s': State, c: nat, sent: seq<nat>, failed: seq<nat>)
    requires TakenOk(s) && c < |s.consumers| == |s'.consumers|
    requires s'.consumers == s.consumers[c := s'.consumers[c]] && HeldBy(s'.consumers[c]) == []
    requires s'.sent == s.sent + sent && s'.failed == s.failed + failed && s'.taken == s.taken
    requires HeldBy(s.consumers[c]) == sent + failed
    ensures TakenOk(s')
  {
    var others := Others(s.consumers, c);
    HeldMoves(s.consumers, s'.consumers, c);
    assert others + multiset(HeldBy(s'.consumers[c])) == others;
    GoneAdds(s.sent, s.failed, sent, failed);
    Balances(Gone(s), others, multiset(sent + failed));
  }

  lemma GoneAdds(sent: seq<nat>, failed: seq<nat>, more: seq<nat>, less: seq<nat>)
    ensures multiset(sent + more) + multiset(failed + less) == multiset(sent) + multiset(failed) + multiset(more + less)
  {
    assert multiset(sent + more) == multiset(sent) + multiset(more);
    assert multiset(failed + less) == multiset(failed) + multiset(less);
    assert multiset(more + less) == multiset(more) + multiset(less);
  }

  lemma CloseKeepsTaken(s: State)
    requires TakenOk(s)
    ensures TakenOk(StartClose(s))
  {
    HeldSplits(s.consumers, [Consumer(true, Ready, [])]);
    assert Held([Consumer(true, Ready, [])]) == [];
    assert Held(s.consumers) + [] == Held(s.consumers);
  }

  lemma StepKeepsConsumers(s: State, st: Step)
    requires ConsumersOk(s) && QueueOk(s) && Enabled(s, st)
    ensures ConsumersOk(Do(s, st))
  {
    forall c | 0 <= c < |Do(s, st).consumers| ensures ConsumerOk(Do(s, st).consumers[c], Do(s, st)) {
      StepKeepsConsumer(s, st, c);
    }
  }

  lemma StepKeepsConsumer(s: State, st: Step, c: nat)
    requires ConsumersOk(s) && QueueOk(s) && Enabled(s, st) && c < |Do(s, st).consumers|
    ensures ConsumerOk(Do(s, st).consumers[c], Do(s, st))
  {
    var s' := Do(s, st);
    assert s.accepted <= s'.accepted && s.taken <= s'.taken;
    if c < |s.consumers| {
      var x, x' := s.consumers[c], s'.consumers[c];
      assert ConsumerOk(x, s);
      if !(st.Take? && st.c == c) {
        MoveKeepsConsumer(x, x', s, s');
      }
    }
  }

  /** A consumer hands on what it holds, or takes nothing new. */
  lemma MoveKeepsConsumer(x: Consumer, x': Consumer, s: State, s': State)
    requires ConsumerOk(x, s) && s.accepted <= s'.accepted && s.taken <= s'.taken <= |s'.accepted|
    requires x'.log == x.log || (x.pc.Holding? && x'.log == x.log + [x.pc.i] && !x'.pc.Holding?)
    requires x'.pc.Holding? ==> x'.pc == x.pc
    requires x'.pc.Pinging? ==> !x'.draining
    ensures ConsumerOk(x', s')
  {
  }

  lemma StepKeepsWire(s: State, st: Step)
    requires WireOk(s) && ConsumersOk(s) && Enabled(s, st)
    ensures WireOk(Do(s, st))
  {
    UptoStep(|s.sent|);
  }

  lemma StepKeepsConn(s: State, st: Step)
    requires ConnOk(s.conn) && Enabled(s, st)
    ensures ConnOk(Do(s, st).conn)
  {
  }

  lemma StepKeepsDrainers(s: State, st: Step)
    requires DrainersOk(s) && Enabled(s, st)
    ensures DrainersOk(Do(s, st))
  {
    var s' := Do(s, st);
    assert s.conn.closeCloses > 0 ==> s'.conn.closeCloses > 0;
    if !st.CallClose? && !st.SenderSawCancel? {
      assert |s'.consumers| == |s.consumers|;
      assert forall c | 0 <= c < |s.consumers| :: s'.consumers[c].draining == s.consumers[c].draining;
    }
  }

  lemma StepKeepsGood(s: State, st: Step)
    requires Good(s) && Enabled(s, st)
    ensures Good(Do(s, st))
  {
    StepKeepsDrainers(s, st);
    StepKeepsQueue(s, st);
    StepKeepsTaken(s, st);
    StepKeepsConsumers(s, st);
    StepKeepsWire(s, st);
    StepKeepsConn(s, st);
  }

  lemma {:induction false} RunKeepsGood(s: State, run: seq<Step>)
    requires Good(s) && Runs(s, run)
    ensures Good(After(s, run))
    decreases run
  {
    if run != [] {
      StepKeepsGood(s, run[0]);
      RunKeepsGood(Do(s, run[0]), run[1..]);
    }
  }

  lemma InitialIsGood()
    ensures Good(Initial())
  {
    assert Upto(0) == [];
    assert Held(Initial().consumers) == [];
  }

  lemma ReachableIsGood(run: seq<Step>)
    requires Runs(Initial(), run)
    ensures Good(After(Initial(), run))
  {
    InitialIsGood();
    RunKeepsGood(Initial(), run);
  }

  // ------------------------------------------------------------- the main results

  /** The frames at the given positions. */
  function FramesAt(accepted: seq<Frame>, at: seq<nat>): seq<Frame>
    requires InRange(at, |accepted|)
  {
    seq(|at|, j requires 0 <= j < |at| => accepted[at[j]])
  }

  predicate InRange(at: seq<nat>, n: nat) {
    forall j | 0 <= j < |at| :: at[j] < n
  }

  lemma RemoveOne(xs: seq<nat>, ys: seq<nat>, j: nat)
    requires xs != [] && multiset(xs) == multiset(ys) && j < |ys| && ys[j] == xs[0]
    ensures multiset(xs[1..]) == multiset(ys[..j] + ys[j + 1..])
  {
    assert xs == [xs[0]] + xs[1..] && ys == ys[..j] + [ys[j]] + ys[j + 1..];
    assert multiset(xs) == multiset{xs[0]} + multiset(xs[1..]);
    assert multiset(ys) == multiset{xs[0]} + multiset(ys[..j] + ys[j + 1..]);
    forall x ensures multiset(xs[1..])[x] == multiset(ys[..j] + ys[j + 1..])[x] {
      assert multiset(xs)[x] == multiset(ys)[x];
    }
  }

  lemma FramesWithout(accepted: seq<Frame>, at: seq<nat>, j: nat)
    requires InRange(at, |accepted|) && j < |at|
    ensures InRange(at[..j] + at[j + 1..], |accepted|)
    ensures multiset(FramesAt(accepted, at)) ==
            multiset{accepted[at[j]]} + multiset(FramesAt(accepted, at[..j] + at[j + 1..]))
  {
    var before, after := FramesAt(accepted, at[..j]), FramesAt(accepted, at[j + 1..]);
    assert FramesAt(accepted, at) == before + [accepted[at[j]]] + after;
    assert FramesAt(accepted, at[..j] + at[j + 1..]) == before + after;
  }

  /** Permuting positions permutes frames. */
  lemma {:induction false} FramesPermute(accepted: seq<Frame>, xs: seq<nat>, ys: seq<nat>)
    requires InRange(xs, |accepted|) && InRange(ys, |accepted|)
    requires multiset(xs) == multiset(ys)
    ensures multiset(FramesAt(accepted, xs)) == multiset(FramesAt(accepted, ys))
    decreases |xs|
  {
    if xs == [] {
      assert |multiset(ys)| == 0;
      assert ys == [];
    } else {
      assert xs[0] in multiset(ys);
      var j :| 0 <= j < |ys| && ys[j] == xs[0];
      RemoveOne(xs, ys, j);
      FramesWithout(accepted, xs, 0);
      FramesWithout(accepted, ys, j);
      assert xs[..0] + xs[1..] == xs[1..];
      FramesPermute(accepted, xs[1..], ys[..j] + ys[j + 1..]);
    }
  }

  lemma PermutedUpto(at: seq<nat>, n: nat)
    requires multiset(at) == multiset(Upto(n))
    ensures NoRepeats(at) && InRange(at, n)
  {
    forall x | x in at ensures multiset(at)[x] <= 1 && x < n {
      UptoCounts(n, x);
      assert multiset(at)[x] > 0;
    }
    CountedOnce(at);
    forall j | 0 <= j < |at| ensures at[j] < n {
      assert at[j] in at;
    }
  }

  /** Outbound conservation: the frames accepted are, as a multiset, those sent, failed,
      held by a consumer and still queued; nothing reaches the socket twice, and each
      consumer hands on in acceptance order. */
  lemma FramesAreConserved(run: seq<Step>)
    requires Runs(Initial(), run)
    ensures var s := After(Initial(), run);
            && InRange(s.sent + s.failed + Held(s.consumers), |s.accepted|)
            && multiset(s.accepted) ==
               multiset(FramesAt(s.accepted, s.sent + s.failed + Held(s.consumers))) + multiset(s.queue)
            && NoRepeats(s.sent + s.failed + Held(s.consumers))
            && (forall c | 0 <= c < |s.consumers| :: Increasing(s.consumers[c].log))
  {
    ReachableIsGood(run);
    var s := After(Initial(), run);
    var gone := s.sent + s.failed + Held(s.consumers);
    assert multiset(gone) == multiset(Upto(s.taken));
    PermutedUpto(gone, s.taken);
    FramesPermute(s.accepted, gone, Upto(s.taken));
    assert FramesAt(s.accepted, Upto(s.taken)) == s.accepted[..s.taken];
    assert s.accepted == s.accepted[..s.taken] + s.accepted[s.taken..];
    forall c | 0 <= c < |s.consumers| ensures Increasing(s.consumers[c].log) {
      assert ConsumerOk(s.consumers[c], s);
    }
  }

  /** While no Close has begun, what is on the wire is a prefix of what was accepted. */
  lemma WireIsPrefix(run: seq<Step>)
    requires Runs(Initial(), run) && Undisturbed(After(Initial(), run))
    ensures var s := After(Initial(), run);
            InRange(s.sent, |s.accepted|) && FramesAt(s.accepted, s.sent) <= s.accepted
  {
    ReachableIsGood(run);
    var s := After(Initial(), run);
    FramesAreConserved(run);
    assert forall j | 0 <= j < |s.sent| :: s.sent[j] == (s.sent + s.failed + Held(s.consumers))[j];
    assert InRange(s.sent, |s.accepted|);
    assert |s.sent| <= |s.accepted| by {
      if |s.sent| > 0 {
        assert s.sent[|s.sent| - 1] == |s.sent| - 1;
      }
    }
  }

  /** When a drain finds the queue empty, everything accepted so far has been sent exactly
      if no write failed and no other consumer is still holding a frame. */
  lemma DrainDeliversIff(run: seq<Step>, c: nat)
    requires Runs(Initial(), run) && Enabled(After(Initial(), run), DrainedEmpty(c))
    ensures var s := After(Initial(), run);
            InRange(s.sent, |s.accepted|) &&
            (multiset(FramesAt(s.accepted, s.sent)) == multiset(s.accepted) <==>
              s.failed == [] && Held(s.consumers) == [])
  {
    FramesAreConserved(run);
    var s := After(Initial(), run);
    var rest := s.failed + Held(s.consumers);
    var gone := s.sent + s.failed + Held(s.consumers);
    assert gone == s.sent + rest;
    SentAmong(s.accepted, s.sent, rest);
  }

  lemma SentAmong(accepted: seq<Frame>, sent: seq<nat>, rest: seq<nat>)
    requires InRange(sent + rest, |accepted|)
    requires multiset(accepted) == multiset(FramesAt(accepted, sent + rest))
    ensures InRange(sent, |accepted|)
    ensures multiset(FramesAt(accepted, sent)) == multiset(accepted) <==> rest == []
  {
    forall j | 0 <= j < |sent| ensures sent[j] < |accepted| {
      assert (sent + rest)[j] == sent[j];
    }
    forall j | 0 <= j < |rest| ensures rest[j] < |accepted| {
      assert (sent + rest)[|sent| + j] == rest[j];
    }
    assert FramesAt(accepted, sent + rest) == FramesAt(accepted, sent) + FramesAt(accepted, rest);
    assert |multiset(FramesAt(accepted, rest))| == |rest|;
  }

  // What a drain owes the frames accepted before it began, by all ways it can end.

  /** Consumer c is at the head of its drain. */
  predicate Drains(s: State, c: nat) {
    At(s, c, Ready) && s.consumers[c].draining
  }

  predicate LeftLoop(s: State, c: nat) {
    At(s, c, Farewell) || At(s, c, Waiting) || At(s, c, Stopped)
  }

  /** The first n frames accepted are on the wire. */
  predicate OnWire(s: State, n: nat) {
    forall i | 0 <= i < n :: i in s.sent
  }

  /** Everything accepted so far was sent already. */
  predicate AllSentBefore(s: State) {
    s.queue == [] && s.failed == [] && Held(s.consumers) == []
  }

  lemma LostIsNotSent(s: State, i: nat)
    requires TakenOk(s) && (i in s.failed || i in Held(s.consumers))
    ensures i !in s.sent && i < s.taken
  {
    UptoCounts(s.taken, i);
    var sent, failed, held := multiset(s.sent), multiset(s.failed), multiset(Held(s.consumers));
    assert sent[i] + failed[i] + held[i] == multiset(Upto(s.taken))[i];
    assert failed[i] + held[i] > 0;
  }

  /** Each accepted frame not on the wire failed, is held or is queued, and only those. */
  lemma Missing(s: State, i: nat)
    requires QueueOk(s) && TakenOk(s) && i < |s.accepted|
    ensures i !in s.sent <==> i in s.failed || i in Held(s.consumers) || s.taken <= i
  {
    UptoCounts(s.taken, i);
    var sent, failed, held := multiset(s.sent), multiset(s.failed), multiset(Held(s.consumers));
    assert sent[i] + failed[i] + held[i] == multiset(Upto(s.taken))[i];
  }

  lemma {:induction false} RunGrows(s: State, run: seq<Step>)
    requires Runs(s, run)
    ensures s.sent <= After(s, run).sent && s.accepted <= After(s, run).accepted
    decreases run
  {
    if run != [] {
      assert s.sent <= Do(s, run[0]).sent && s.accepted <= Do(s, run[0]).accepted;
      RunGrows(Do(s, run[0]), run[1..]);
    }
  }

  /** A drain that may not deliver, if anything was left to deliver: its first frame meets a
      dead connection, or others already lost or hold one. */
  lemma LosingDrain(s: State, c: nat) returns (run: seq<Step>)
    requires Good(s) && Drains(s, c) && !AllSentBefore(s)
    ensures Runs(s, run) && LeftLoop(After(s, run), c) && !OnWire(After(s, run), |s.accepted|)
  {
    if s.queue == [] {
      run := IdleDrain(s, c);
    } else {
      run := BrokenDrain(s, c);
    }
  }

  lemma IdleDrain(s: State, c: nat) returns (run: seq<Step>)
    requires Good(s) && Drains(s, c) && s.queue == [] && (s.failed != [] || Held(s.consumers) != [])
    ensures Runs(s, run) && LeftLoop(After(s, run), c) && !OnWire(After(s, run), |s.accepted|)
  {
    var lost := if s.failed != [] then s.failed[0] else Held(s.consumers)[0];
    assert lost in s.failed || lost in Held(s.consumers);
    LostIsNotSent(s, lost);
    var s1 := Do(s, DrainedEmpty(c));
    assert s1.sent == s.sent && s.taken <= |s.accepted| && LeftLoop(s1, c);
    run := Single(s, DrainedEmpty(c));
  }

  /** The teardown the drain has triggered comes first. */
  lemma BrokenDrain(s: State, c: nat) returns (run: seq<Step>)
    requires Good(s) && Drains(s, c) && s.queue != []
    ensures Runs(s, run) && LeftLoop(After(s, run), c) && !OnWire(After(s, run), |s.accepted|)
  {
    if s.conn.open {
      StepKeepsGood(s, TearDown);
      var rest := DrainIntoDead(Do(s, TearDown), c);
      run := Prepend(s, TearDown, rest);
    } else {
      run := DrainIntoDead(s, c);
    }
  }

  lemma DrainIntoDead(s: State, c: nat) returns (run: seq<Step>)
    requires QueueOk(s) && TakenOk(s) && Drains(s, c) && s.queue != [] && !s.conn.open
    ensures Runs(s, run) && LeftLoop(After(s, run), c) && !OnWire(After(s, run), |s.accepted|)
  {
    var s1 := Do(s, Take(c));
    var s2 := Do(s1, SendFails(c, true));
    StepKeepsTaken(s, Take(c));
    StepKeepsTaken(s1, SendFails(c, true));
    assert s2.failed[|s.failed|] == s.taken < |s.accepted|;
    LostIsNotSent(s2, s.taken);
    run := Single(s1, SendFails(c, true));
    run := Prepend(s, Take(c), run);
  }

  lemma Single(s: State, st: Step) returns (run: seq<Step>)
    requires Enabled(s, st)
    ensures Runs(s, run) && After(s, run) == Do(s, st)
  {
    var none: seq<Step> := [];
    assert Runs(Do(s, st), none) && After(Do(s, st), none) == Do(s, st);
    run := Prepend(s, st, none);
  }

  /** A drain is sure to have everything on the wire when it leaves its loop, however the
      others are scheduled and writes fare, exactly if there was nothing left to send. */
  lemma DrainIsSureIff(s: State, c: nat)
    requires Good(s) && Drains(s, c)
    ensures AllSentBefore(s) <==>
            (forall more | Runs(s, more) && LeftLoop(After(s, more), c) :: OnWire(After(s, more), |s.accepted|))
  {
    if AllSentBefore(s) {
      forall more | Runs(s, more) && LeftLoop(After(s, more), c) ensures OnWire(After(s, more), |s.accepted|) {
        RunGrows(s, more);
        forall i | 0 <= i < |s.accepted| ensures i in After(s, more).sent {
          Missing(s, i);
          var j :| 0 <= j < |s.sent| && s.sent[j] == i;
          assert After(s, more).sent[j] == i;
        }
      }
    } else {
      var more := LosingDrain(s, c);
      assert !OnWire(After(s, more), |s.accepted|);
    }
  }

  /** Close on a transport that is not done: every continuation in which its drain has left
      the loop has all frames accepted before on the wire, exactly if they all were there,
      none failed and nobody held one, before the call. */
  lemma CloseDeliversIff(past: seq<Step>)
    requires Runs(Initial(), past) && After(Initial(), past).conn.doneCloses == 0
    ensures var s := After(Initial(), past);
            var s1 := Do(s, CallClose);
            AllSentBefore(s) <==>
            (forall more | Runs(s1, more) && LeftLoop(After(s1, more), |s.consumers|) ::
              OnWire(After(s1, more), |s.accepted|))
  {
    ReachableIsGood(past);
    var s := After(Initial(), past);
    StepKeepsGood(s, CallClose);
    HeldSplits(s.consumers, [Consumer(true, Ready, [])]);
    assert Held([Consumer(true, Ready, [])]) == [];
    DrainIsSureIff(Do(s, CallClose), |s.consumers|);
  }

  /** If a drain stopped before it had taken the first n frames, it was at a failed write. */
  predicate DrainOk(s: State, c: nat, n: nat) {
    && c < |s.consumers| && s.consumers[c].draining && n <= |s.accepted|
    && (LeftLoop(s, c) && s.taken < n ==>
         var log := s.consumers[c].log; log != [] && log[|log| - 1] in s.failed)
  }

  lemma StepKeepsDrain(s: State, st: Step, c: nat, n: nat)
    requires QueueOk(s) && DrainOk(s, c, n) && Enabled(s, st)
    ensures DrainOk(Do(s, st), c, n)
  {
    var s' := Do(s, st);
    assert s.taken <= s'.taken && s.failed <= s'.failed && |s.accepted| <= |s'.accepted|;
    if st == DrainedEmpty(c) {
      assert s.taken == |s.accepted|;
    } else if st.SendFails? && st.c == c {
      var log := s'.consumers[c].log;
      assert log[|log| - 1] == s'.failed[|s.failed|];
    } else {
      assert LeftLoop(s', c) ==> LeftLoop(s, c) && s'.consumers[c].log == s.consumers[c].log;
    }
  }

  lemma {:induction false} RunKeepsDrain(s: State, run: seq<Step>, c: nat, n: nat)
    requires Good(s) && DrainOk(s, c, n) && Runs(s, run)
    ensures DrainOk(After(s, run), c, n)
    decreases run
  {
    if run != [] {
      StepKeepsGood(s, run[0]);
      StepKeepsDrain(s, run[0], c, n);
      RunKeepsDrain(Do(s, run[0]), run[1..], c, n);
    }
  }

  /** All the ways a drain ends: of the frames accepted before it, those missing on the wire
      failed, are held by another consumer, or are still queued; queued ones only if the
      drain stopped at a failed write. So if no write has failed, what is missing is exactly
      what other consumers hold. */
  lemma HowDrainsEnd(past: seq<Step>, c: nat, more: seq<Step>)
    requires Runs(Initial(), past)
    requires var s := After(Initial(), past); Drains(s, c) && Runs(s, more) && LeftLoop(After(s, more), c)
    ensures var s := After(Initial(), past);
            Accounted(After(s, more), c, |s.accepted|)
  {
    ReachableIsGood(past);
    var s := After(Initial(), past);
    RunKeepsDrain(s, more, c, |s.accepted|);
    RunKeepsGood(s, more);
    DrainIsAccounted(After(s, more), c, |s.accepted|);
  }

  predicate Accounted(s: State, c: nat, n: nat) {
    && c < |s.consumers| && HeldBy(s.consumers[c]) == []
    && (forall i | 0 <= i < n :: i !in s.sent <==> i in s.failed || i in Held(s.consumers) || s.taken <= i)
    && (s.taken < n ==> var log := s.consumers[c].log; log != [] && log[|log| - 1] in s.failed)
    && (s.failed == [] ==> forall i | 0 <= i < n :: i !in s.sent <==> i in Held(s.consumers))
  }

  lemma DrainIsAccounted(s: State, c: nat, n: nat)
    requires QueueOk(s) && TakenOk(s) && DrainOk(s, c, n) && LeftLoop(s, c)
    ensures Accounted(s, c, n)
  {
    forall i | 0 <= i < n
      ensures i !in s.sent <==> i in s.failed || i in Held(s.consumers) || s.taken <= i
    {
      Missing(s, i);
    }
  }

  /** Close does not always send what is buffered: the teardown it triggers may close the
      connection before the drain has taken the first frame. */
  lemma CloseCanLoseFrames(data: Bytes) returns (run: seq<Step>)
    ensures Runs(Initial(), run)
    ensures var s := After(Initial(), run);
            && s.accepted == [Frame(Text, data), Frame(CloseFrame, [])] && s.sent == [] && s.failed == [0]
            && |s.consumers| == 2 && s.consumers[1].draining && s.consumers[1].pc == Waiting
  {
    var s1 := Do(Initial(), WriteText(data));
    var s2 := Do(s1, CallClose);
    var s3 := Do(s2, TearDown);
    assert s3.consumers == [Consumer(false, Ready, []), Consumer(true, Ready, [])];
    run := DrainIntoClosed(s3);
    run := Prepend(s2, TearDown, run);
    run := Prepend(s1, CallClose, run);
    run := Prepend(Initial(), WriteText(data), run);
  }

  /** The last consumer drains one frame into a connection already closed. */
  lemma DrainIntoClosed(s: State) returns (run: seq<Step>)
    requires |s.queue| == 1 && |s.consumers| == 2 && s.consumers[1] == Consumer(true, Ready, []) && !s.conn.open
    ensures Runs(s, run)
    ensures var s' := After(s, run);
            && s'.accepted == s.accepted + [Frame(CloseFrame, [])]
            && s'.sent == s.sent && s'.failed == s.failed + [s.taken]
            && |s'.consumers| == 2 && s'.consumers[1].draining && s'.consumers[1].pc == Waiting
  {
    var s1 := Do(s, Take(1));
    var s2 := Do(s1, SendFails(1, true));
    var s3 := Do(s2, SayGoodbye(1));
    var none: seq<Step> := [];
    assert Runs(s3, none) && After(s3, none) == s3;
    run := Prepend(s2, SayGoodbye(1), none);
    run := Prepend(s1, SendFails(1, true), run);
    run := Prepend(s, Take(1), run);
  }

  lemma Prepend(s: State, st: Step, rest: seq<Step>) returns (run: seq<Step>)
    requires Enabled(s, st) && Runs(Do(s, st), rest)
    ensures Runs(s, run) && After(s, run) == After(Do(s, st), rest)
  {
    run := [st] + rest;
    assert run[1..] == rest;
  }

  /** In no run does a close of a channel of the transport panic. */
  lemma ChannelsCloseOnce(run: seq<Step>)
    requires Runs(Initial(), run)
    ensures var conn := After(Initial(), run).conn;
            conn.closeCloses <= 1 && conn.doneCloses <= 1 && (conn.teardown == ControlClosed ==> conn.doneCloses == 0)
  {
    ReachableIsGood(run);
  }
}
