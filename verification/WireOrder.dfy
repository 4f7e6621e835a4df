/**
 The order of frames on the wire (transport/ws/transport.go): frames go out in the order in
 which the queue accepted them as long as one consumer takes from it, and exactly then.
 */
module WireOrder {
  import opened Wrappers
  import opened Frames
  import opened Outbound

  predicate WithoutClose(run: seq<Step>) {
    forall i | 0 <= i < |run| :: !run[i].CallClose?
  }

  /** Everything sent lies before what this consumer holds, or would take next. */
  predicate AllBefore(s: State, c: nat)
    requires c < |s.consumers|
  {
    var pc := s.consumers[c].pc;
    && (pc.Holding? ==> pc.i < s.taken)
    && forall j | 0 <= j < |s.sent| :: s.sent[j] < (if pc.Holding? then pc.i else s.taken)
  }

  /** Consumer c is the only one still taking frames, and the wire is in order. */
  predicate Alone(s: State, c: nat) {
    && c < |s.consumers|
    && (forall d | 0 <= d < |s.consumers| && d != c :: LeftLoop(s, d))
    && Increasing(s.sent) && AllBefore(s, c)
  }

  lemma OthersStayOut(s: State, st: Step, c: nat)
    requires Alone(s, c) && Enabled(s, st) && (st.CallClose? ==> s.conn.doneCloses > 0)
    ensures var s' := Do(s, st);
            |s'.consumers| == |s.consumers| && forall d | 0 <= d < |s'.consumers| && d != c :: LeftLoop(s', d)
  {
    var s' := Do(s, st);
    forall d | 0 <= d < |s'.consumers| && d != c ensures LeftLoop(s', d) {
      assert LeftLoop(s, d);
    }
  }

  lemma StepKeepsAlone(s: State, st: Step, c: nat)
    requires Alone(s, c) && Enabled(s, st) && (st.CallClose? ==> s.conn.doneCloses > 0)
    ensures Alone(Do(s, st), c)
  {
    OthersStayOut(s, st, c);
    match st
    case Take(d) => assert d == c || LeftLoop(s, d);
    case SendOk(d) => assert d == c || LeftLoop(s, d);
    case SendFails(d, _) => assert d == c || LeftLoop(s, d);
    case _ => assert Do(s, st).sent == s.sent && Do(s, st).taken == s.taken;
  }

  lemma {:induction false} RunKeepsAlone(s: State, run: seq<Step>, c: nat)
    requires Alone(s, c) && Runs(s, run) && WithoutClose(run)
    ensures Alone(After(s, run), c)
    decreases run
  {
    if run != [] {
      StepKeepsAlone(s, run[0], c);
      assert forall i | 0 <= i < |run[1..]| :: run[1..][i] == run[i + 1];
      RunKeepsAlone(Do(s, run[0]), run[1..], c);
    }
  }

  /** The sender loop is alone until a Close starts a second consumer. */
  lemma {:induction false} SenderIsAlone(s: State, run: seq<Step>)
    requires Runs(s, run) && s.consumers != [] && (|s.consumers| == 1 ==> Alone(s, 0))
    ensures |s.consumers| <= |After(s, run).consumers|
    ensures |After(s, run).consumers| == 1 ==> Alone(After(s, run), 0)
    decreases run
  {
    if run != [] {
      var s' := Do(s, run[0]);
      assert |s.consumers| <= |s'.consumers|;
      if |s'.consumers| == 1 {
        StepKeepsAlone(s, run[0], 0);
      }
      SenderIsAlone(s', run[1..]);
    }
  }

  lemma InitialIsAlone()
    ensures Alone(Initial(), 0)
  {
  }

  /** In every run without a Close, cancelled or not, whatever fails, the wire is in the order
      of acceptance. */
  lemma OrderWithoutClose(run: seq<Step>)
    requires Runs(Initial(), run) && WithoutClose(run)
    ensures Increasing(After(Initial(), run).sent)
  {
    InitialIsAlone();
    RunKeepsAlone(Initial(), run, 0);
  }

  // ------------------------------------------------------------ overtaking

  lemma {:induction false} ClosedSendsNothing(s: State, run: seq<Step>)
    requires Runs(s, run) && !s.conn.open
    ensures After(s, run).sent == s.sent
    decreases run
  {
    if run != [] {
      assert Do(s, run[0]).sent == s.sent && !Do(s, run[0]).conn.open;
      ClosedSendsNothing(Do(s, run[0]), run[1..]);
    }
  }

  /** A run without Close that ends out of order. */
  predicate Overtakes(s: State, run: seq<Step>) {
    Runs(s, run) && WithoutClose(run) && !Increasing(After(s, run).sent)
  }

  lemma Before(s: State, st: Step, rest: seq<Step>) returns (run: seq<Step>)
    requires Enabled(s, st) && !st.CallClose? && Overtakes(Do(s, st), rest)
    ensures Overtakes(s, run) && run == [st] + rest
  {
    run := [st] + rest;
    assert run[1..] == rest;
    assert forall i | 0 < i < |run| :: run[i] == rest[i - 1];
  }

  /** Consumer b takes a frame after the one a holds and sends it first. */
  lemma Overtake(s: State, a: nat, b: nat) returns (run: seq<Step>)
    requires a < |s.consumers| && b < |s.consumers| && a != b && s.conn.open && s.queue != []
    requires s.consumers[a].pc.Holding? && s.consumers[a].pc.i < s.taken && s.consumers[b].pc == Ready
    ensures Overtakes(s, run) && run == [Take(b), SendOk(b), SendOk(a)]
    ensures After(s, run).accepted == s.accepted && After(s, run).sent == s.sent + [s.taken, s.consumers[a].pc.i]
  {
    var i := s.consumers[a].pc.i;
    var s1 := Do(s, Take(b));
    var s2 := Do(s1, SendOk(b));
    var s3 := Do(s2, SendOk(a));
    assert s3.sent == s.sent + [s.taken, i];
    assert s3.sent[|s.sent|] == s.taken && s3.sent[|s.sent| + 1] == i;
    var none: seq<Step> := [];
    assert Runs(s3, none) && After(s3, none) == s3;
    run := Before(s2, SendOk(a), none);
    run := Before(s1, SendOk(b), run);
    run := Before(s, Take(b), run);
  }

  /** The sender and one drain at the head of its loop, with two frames queued. */
  predicate Contended(s: State) {
    && |s.consumers| == 2 && ConsumersOk(s) && QueueOk(s) && s.conn.open
    && !LeftLoop(s, 0) && Drains(s, 1) && |s.queue| >= 2
  }

  lemma ContendedOvertakes(s: State) returns (run: seq<Step>)
    requires Contended(s)
    ensures Overtakes(s, run)
  {
    assert ConsumerOk(s.consumers[0], s);
    match s.consumers[0].pc {
      case Holding(_, _) => run := Overtake(s, 0, 1);
      case Ready =>
        var rest := Overtake(Do(s, Take(0)), 0, 1);
        run := Before(s, Take(0), rest);
      case Pinging =>
        var s1 := Do(s, Take(1));
        var s2 := Do(s1, EnqueuePing);
        var rest := Overtake(s2, 1, 0);
        rest := Before(s1, EnqueuePing, rest);
        run := Before(s, Take(1), rest);
      case _ => assert false;
    }
  }

  /** Audio keeps arriving until two frames are queued. */
  lemma StockedOvertakes(s: State) returns (run: seq<Step>)
    requires |s.consumers| == 2 && ConsumersOk(s) && QueueOk(s) && s.conn.open && !LeftLoop(s, 0) && Drains(s, 1)
    ensures Overtakes(s, run)
    decreases 2 - |s.queue|
  {
    if |s.queue| >= 2 {
      run := ContendedOvertakes(s);
    } else {
      StepKeepsQueue(s, WriteAudio([]));
      StepKeepsConsumers(s, WriteAudio([]));
      var rest := StockedOvertakes(Do(s, WriteAudio([])));
      run := Before(s, WriteAudio([]), rest);
    }
  }

  /** Whatever happens from s on, further calls of Close apart, the wire is in order. */
  ghost predicate StaysInOrder(s: State) {
    forall more | Runs(s, more) && WithoutClose(more) :: Increasing(After(s, more).sent)
  }

  lemma AloneStaysInOrder(s: State, c: nat)
    requires Alone(s, c)
    ensures StaysInOrder(s)
  {
    forall more | Runs(s, more) && WithoutClose(more) ensures Increasing(After(s, more).sent) {
      RunKeepsAlone(s, more, c);
    }
  }

  lemma ClosedStaysInOrder(s: State)
    requires !s.conn.open && Increasing(s.sent)
    ensures StaysInOrder(s)
  {
    forall more | Runs(s, more) && WithoutClose(more) ensures Increasing(After(s, more).sent) {
      ClosedSendsNothing(s, more);
    }
  }

  /** The state after the call. */
  lemma CloseStarts(s: State)
    requires |s.consumers| == 1 && s.conn.doneCloses == 0 && Alone(s, 0)
    ensures var s1 := Do(s, CallClose);
            && s1.sent == s.sent && s1.conn.open == s.conn.open && |s1.consumers| == 2 && Drains(s1, 1)
            && (LeftLoop(s1, 0) <==> LeftLoop(s, 0)) && (LeftLoop(s, 0) ==> Alone(s1, 1))
  {
  }

  /** The first Close on a transport that is not done: every continuation keeps the wire in
      the order of acceptance if and only if the sender loop had left its loop before, or the
      connection was closed. */
  lemma CloseKeepsOrderIff(past: seq<Step>)
    requires Runs(Initial(), past)
    requires |After(Initial(), past).consumers| == 1 && After(Initial(), past).conn.doneCloses == 0
    ensures var s := After(Initial(), past);
            LeftLoop(s, 0) || !s.conn.open <==> StaysInOrder(Do(s, CallClose))
  {
    var s := After(Initial(), past);
    InitialIsAlone();
    SenderIsAlone(Initial(), past);
    CloseStarts(s);
    if LeftLoop(s, 0) {
      AloneStaysInOrder(Do(s, CallClose), 1);
    } else if !s.conn.open {
      ClosedStaysInOrder(Do(s, CallClose));
    } else {
      ReachableIsGood(past);
      StepKeepsQueue(s, CallClose);
      StepKeepsConsumers(s, CallClose);
      var more := StockedOvertakes(Do(s, CallClose));
      assert !Increasing(After(Do(s, CallClose), more).sent);
    }
  }

  /** For instance: a drain sends the second of two frames while the sender holds the first. */
  lemma DrainCanOvertake(first: Bytes, second: Bytes) returns (run: seq<Step>)
    ensures Runs(Initial(), run)
    ensures var s := After(Initial(), run); s.accepted == [Frame(Text, first), Frame(Text, second)] && s.sent == [1, 0]
  {
    var s1 := Do(Initial(), WriteText(first));
    var s2 := Do(s1, WriteText(second));
    var s3 := Do(s2, Take(0));
    var s4 := Do(s3, CallClose);
    assert s4.consumers == [Consumer(false, Holding(0, Frame(Text, first)), []), Consumer(true, Ready, [])];
    run := Overtake(s4, 0, 1);
    run := Prepend(s3, CallClose, run);
    run := Prepend(s2, Take(0), run);
    run := Prepend(s1, WriteText(second), run);
    run := Prepend(Initial(), WriteText(first), run);
  }
}
