/**
 What a run of the outbound side did, and what came of it: which frames the queue accepted,
 why its consumers left their loops, what triggered the teardown, and how one frame goes out.
 */
module OutboundFlow {
  import opened Frames
  import opened Outbound

  lemma {:induction false} LastStep(s: State, run: seq<Step>, st: Step)
    requires Runs(s, run + [st])
    ensures Runs(s, run) && Enabled(After(s, run), st) && After(s, run + [st]) == Do(After(s, run), st)
    decreases run
  {
    if run == [] {
      assert run + [st] == [st] && [st][1..] == [];
    } else {
      assert (run + [st])[0] == run[0] && (run + [st])[1..] == run[1..] + [st];
      LastStep(Do(s, run[0]), run[1..], st);
    }
  }

  lemma {:induction false} RunsExtend(s: State, run: seq<Step>, st: Step)
    requires Runs(s, run) && Enabled(After(s, run), st)
    ensures Runs(s, run + [st]) && After(s, run + [st]) == Do(After(s, run), st)
    decreases run
  {
    if run == [] {
      assert run + [st] == [st] && [st][1..] == [];
      assert Runs(Do(s, st), []) && After(Do(s, st), []) == Do(s, st);
    } else {
      assert (run + [st])[0] == run[0] && (run + [st])[1..] == run[1..] + [st];
      RunsExtend(Do(s, run[0]), run[1..], st);
    }
  }

  // ------------------------------------------------------------ what was accepted

  /** The texts sessions wrote, in order, and the audio the pump read. */
  function TextsWritten(run: seq<Step>): seq<Bytes> {
    if run == [] then []
    else
      var st := run[|run| - 1];
      TextsWritten(run[..|run| - 1]) + (if st.WriteText? then [st.data] else [])
  }

  function AudioPumped(run: seq<Step>): seq<Bytes> {
    if run == [] then []
    else
      var st := run[|run| - 1];
      AudioPumped(run[..|run| - 1]) + (if st.WriteAudio? then [st.data] else [])
  }

  /** The pings and farewells enqueued. */
  function Pings(run: seq<Step>): nat {
    if run == [] then 0 else Pings(run[..|run| - 1]) + (if run[|run| - 1].EnqueuePing? then 1 else 0)
  }

  function Farewells(run: seq<Step>): nat {
    if run == [] then 0 else Farewells(run[..|run| - 1]) + (if run[|run| - 1].SayGoodbye? then 1 else 0)
  }

  predicate AcceptedIs(accepted: seq<Frame>, run: seq<Step>) {
    && Select(accepted, Text) == TextsWritten(run)
    && Select(accepted, Binary) == AudioPumped(run)
    && |Select(accepted, Ping)| == Pings(run)
    && |Select(accepted, CloseFrame)| == Farewells(run)
    && Select(accepted, Pong) == []
  }

  lemma OneMore(accepted: seq<Frame>, f: Frame, kind: Kind)
    ensures Select(accepted + [f], kind) == Select(accepted, kind) + (if f.kind == kind then [f.data] else [])
  {
    SelectSplits(accepted, [f], kind);
    assert [f][1..] == [];
  }

  lemma StepKeepsAccepted(s: State, st: Step, run: seq<Step>)
    requires Enabled(s, st) && AcceptedIs(s.accepted, run)
    ensures AcceptedIs(Do(s, st).accepted, run + [st])
  {
    var accepted := Do(s, st).accepted;
    assert (run + [st])[..|run|] == run;
    if accepted != s.accepted {
      var f := accepted[|s.accepted|];
      assert accepted == s.accepted + [f];
      OneMore(s.accepted, f, Text);
      OneMore(s.accepted, f, Binary);
      OneMore(s.accepted, f, Ping);
      OneMore(s.accepted, f, CloseFrame);
      OneMore(s.accepted, f, Pong);
    }
  }

  /** In every run the queue accepted exactly the texts written, the audio pumped, one ping for
      each enqueued and one close frame for each farewell, each kind in order. */
  lemma {:induction false} AcceptedIsWritten(run: seq<Step>)
    requires Runs(Initial(), run)
    ensures AcceptedIs(After(Initial(), run).accepted, run)
    decreases |run|
  {
    if run != [] {
      var past, st := run[..|run| - 1], run[|run| - 1];
      assert run == past + [st];
      LastStep(Initial(), past, st);
      AcceptedIsWritten(past);
      StepKeepsAccepted(After(Initial(), past), st, past);
    }
  }

  // ------------------------------------------------------------ why consumers stop

  predicate SenderFailed(run: seq<Step>) {
    SendFails(0, true) in run || SendFails(0, false) in run
  }

  /** The sender loop goes on until it sees the end, the cancellation, or a failed write; a
      drain until the queue is empty or the connection gone, then says goodbye, then waits. */
  predicate ConsumerIs(x: Consumer, c: nat, run: seq<Step>) {
    var left := x.pc == Farewell || x.pc == Waiting || x.pc == Stopped;
    if x.draining then
      && x.pc != Pinging
      && (left <==> DrainedEmpty(c) in run || SendFails(c, true) in run)
      && (x.pc == Waiting || x.pc == Stopped <==> SayGoodbye(c) in run)
      && (x.pc == Stopped <==> CloseReturns(c) in run)
    else
      && c == 0 && x.pc != Farewell && x.pc != Waiting
      && (x.pc == Stopped <==> SenderSawDone in run || SenderSawCancel in run || SenderFailed(run))
      && Unused(run, c)
  }

  /** No step that only a drain takes. */
  predicate Unused(run: seq<Step>, c: nat) {
    DrainedEmpty(c) !in run && SayGoodbye(c) !in run && CloseReturns(c) !in run
  }

  ghost predicate ConsumersAre(s: State, run: seq<Step>) {
    && s.consumers != []
    && (forall c | 0 <= c < |s.consumers| :: ConsumerIs(s.consumers[c], c, run))
    && (forall c | c >= |s.consumers| :: Unused(run, c) && SendFails(c, true) !in run && SendFails(c, false) !in run)
  }

  lemma StepKeepsConsumerIs(s: State, st: Step, run: seq<Step>, c: nat)
    requires Enabled(s, st) && c < |s.consumers| && ConsumerIs(s.consumers[c], c, run)
    ensures ConsumerIs(Do(s, st).consumers[c], c, run + [st])
  {
    var x, x' := s.consumers[c], Do(s, st).consumers[c];
    if c == 0 && (st.PingTick? || st.EnqueuePing? || st.SenderSawDone? || st.SenderSawCancel?) {
    } else if st == Take(c) || st == SendOk(c) || st == SendFails(c, true) || st == SendFails(c, false) {
    } else if st == DrainedEmpty(c) || st == SayGoodbye(c) || st == CloseReturns(c) {
    } else {
      assert x' == x;
    }
  }

  lemma StepKeepsConsumersAre(s: State, st: Step, run: seq<Step>)
    requires Enabled(s, st) && ConsumersAre(s, run)
    ensures ConsumersAre(Do(s, st), run + [st])
  {
    var s' := Do(s, st);
    forall c | 0 <= c < |s'.consumers| ensures ConsumerIs(s'.consumers[c], c, run + [st]) {
      if c < |s.consumers| {
        StepKeepsConsumerIs(s, st, run, c);
      } else {
        assert s'.consumers[c] == Consumer(true, Ready, []);
        assert Unused(run, c);
      }
    }
    forall c | c >= |s'.consumers|
      ensures Unused(run + [st], c) && SendFails(c, true) !in run + [st] && SendFails(c, false) !in run + [st]
    {
      assert Unused(run, c);
    }
  }

  // ------------------------------------------------------------ what triggers the teardown

  ghost predicate ConnIs(conn: Conn, run: seq<Step>) {
    && (conn.cancelled <==> Cancel in run)
    && (conn.closeCloses > 0 ==> CallClose in run || ReaderStops in run || SenderSawCancel in run)
    && (ReaderStops in run ==> conn.closeCloses > 0)
    && (CallClose in run && conn.doneCloses == 0 ==> conn.closeCloses > 0)
    && (SenderSawCancel in run && conn.doneCloses == 0 ==> conn.closeCloses > 0)
    && (conn.teardown != Running <==> TearDown in run)
    && (TearDown in run ==> conn.cancelled || conn.closeCloses > 0)
    && (SenderSawDone in run ==> conn.doneCloses > 0)
    && (forall c :: SendFails(c, true) in run ==> IsGone(conn))
  }

  lemma StepKeepsConnIs(s: State, st: Step, run: seq<Step>)
    requires Enabled(s, st) && ConnIs(s.conn, run)
    ensures ConnIs(Do(s, st).conn, run + [st])
  {
  }

  /** In every run: each consumer left its loop for one of the reasons above and no other, a
      drain gave up only on a connection that was gone, and the teardown was triggered by Close,
      the reader's end or the cancelled sender alone. */
  lemma {:induction false} ConsumersEndAsRun(run: seq<Step>)
    requires Runs(Initial(), run)
    ensures ConsumersAre(After(Initial(), run), run) && ConnIs(After(Initial(), run).conn, run)
    decreases |run|
  {
    if run != [] {
      var past, st := run[..|run| - 1], run[|run| - 1];
      assert run == past + [st];
      LastStep(Initial(), past, st);
      ConsumersEndAsRun(past);
      StepKeepsConsumersAre(After(Initial(), past), st, past);
      StepKeepsConnIs(After(Initial(), past), st, past);
    }
  }

  /** Once the control channel is closed no text is accepted any more. */
  lemma {:induction false} NoTextAfterTearDown(s: State, run: seq<Step>)
    requires Runs(s, run) && s.conn.ccClosed
    ensures Select(After(s, run).accepted, Text) == Select(s.accepted, Text)
    decreases run
  {
    if run != [] {
      var s' := Do(s, run[0]);
      if s'.accepted != s.accepted {
        OneMore(s.accepted, s'.accepted[|s.accepted|], Text);
      }
      NoTextAfterTearDown(s', run[1..]);
    }
  }

  /** A close frame of this side is on the socket. */
  predicate SaidGoodbye(s: State) {
    exists j :: 0 <= j < |s.sent| && s.sent[j] < |s.accepted| && s.accepted[s.sent[j]].kind == CloseFrame
  }

  predicate ClosureIs(s: State, run: seq<Step>) {
    s.conn.closeSent <==> PeerCloses in run || SaidGoodbye(s)
  }

  lemma SendKeepsClosure(s: State, c: nat, run: seq<Step>)
    requires Good(s) && Enabled(s, SendOk(c)) && ClosureIs(s, run)
    ensures ClosureIs(Do(s, SendOk(c)), run + [SendOk(c)])
  {
    var s' := Do(s, SendOk(c));
    assert ConsumerOk(s.consumers[c], s);
    var n := |s.sent|;
    assert s'.sent[n] == s.consumers[c].pc.i && s'.accepted == s.accepted;
    if SaidGoodbye(s) {
      var j :| 0 <= j < |s.sent| && s.sent[j] < |s.accepted| && s.accepted[s.sent[j]].kind == CloseFrame;
      assert s'.sent[j] == s.sent[j];
    }
  }

  lemma OthersKeepClosure(s: State, st: Step, run: seq<Step>)
    requires Good(s) && Enabled(s, st) && !st.SendOk? && ClosureIs(s, run)
    requires InRange(s.sent, |s.accepted|)
    ensures ClosureIs(Do(s, st), run + [st])
  {
    var s' := Do(s, st);
    assert s'.sent == s.sent && s.accepted <= s'.accepted;
    forall j | 0 <= j < |s.sent| ensures s'.accepted[s.sent[j]] == s.accepted[s.sent[j]] {
    }
  }

  /** The connection refuses as closed exactly once the peer has closed it, or a close frame of
      this side is on the socket. */
  lemma {:induction false} ClosureEndsAsRun(run: seq<Step>)
    requires Runs(Initial(), run)
    ensures ClosureIs(After(Initial(), run), run)
    decreases |run|
  {
    if run != [] {
      var past, st := run[..|run| - 1], run[|run| - 1];
      assert run == past + [st];
      LastStep(Initial(), past, st);
      ClosureEndsAsRun(past);
      ReachableIsGood(past);
      var s := After(Initial(), past);
      if st.SendOk? {
        SendKeepsClosure(s, st.c, past);
      } else {
        FramesAreConserved(past);
        assert forall j | 0 <= j < |s.sent| :: s.sent[j] == (s.sent + s.failed + Held(s.consumers))[j];
        OthersKeepClosure(s, st, past);
      }
    }
  }

  // ------------------------------------------------------------ one frame on its own

  /** The sender loop alone, with nothing queued, on a live connection. */
  predicate Calm(s: State) {
    && |s.consumers| == 1 && s.consumers[0].pc == Ready && !s.consumers[0].draining
    && s.queue == [] && s.taken == |s.accepted| && s.conn.open && !s.conn.ccClosed
  }

  /** The state after frame f was accepted and sent. */
  function SentOut(s: State, f: Frame): State
    requires Calm(s)
  {
    var i := |s.accepted|;
    s.(accepted := s.accepted + [f], taken := i + 1, sent := s.sent + [i],
       consumers := [Consumer(false, Ready, s.consumers[0].log + [i])])
  }

  lemma QueuedGoesOut(s: State, f: Frame, rest: seq<Step>) returns (run: seq<Step>)
    requires Calm(s) && f.kind != CloseFrame && Runs(SentOut(s, f), rest)
    ensures Runs(Accept(s, f), run) && After(Accept(s, f), run) == After(SentOut(s, f), rest)
  {
    var s1 := Accept(s, f);
    var s2 := Do(s1, Take(0));
    assert s2.consumers == [Consumer(false, Holding(|s.accepted|, f), s.consumers[0].log)];
    assert Do(s2, SendOk(0)) == SentOut(s, f);
    run := Prepend(s2, SendOk(0), rest);
    run := Prepend(s1, Take(0), run);
  }

  /** A text, a piece of audio, and a ping each go out, and the sender is ready again. */
  lemma TextGoesOut(s: State, data: Bytes) returns (run: seq<Step>)
    requires Calm(s)
    ensures Runs(s, run) && After(s, run) == SentOut(s, Frame(Text, data))
  {
    var none: seq<Step> := [];
    var f := Frame(Text, data);
    assert Runs(SentOut(s, f), none) && After(SentOut(s, f), none) == SentOut(s, f);
    run := QueuedGoesOut(s, f, none);
    run := Prepend(s, WriteText(data), run);
  }

  lemma AudioGoesOut(s: State, data: Bytes) returns (run: seq<Step>)
    requires Calm(s)
    ensures Runs(s, run) && After(s, run) == SentOut(s, Frame(Binary, data))
  {
    var none: seq<Step> := [];
    var f := Frame(Binary, data);
    assert Runs(SentOut(s, f), none) && After(SentOut(s, f), none) == SentOut(s, f);
    run := QueuedGoesOut(s, f, none);
    run := Prepend(s, WriteAudio(data), run);
  }

  lemma PingGoesOut(s: State) returns (run: seq<Step>)
    requires Calm(s)
    ensures Runs(s, run) && After(s, run) == SentOut(s, Frame(Ping, []))
  {
    var none: seq<Step> := [];
    var f := Frame(Ping, []);
    assert Runs(SentOut(s, f), none) && After(SentOut(s, f), none) == SentOut(s, f);
    run := QueuedGoesOut(s, f, none);
    var s1 := Do(s, PingTick);
    assert Do(s1, EnqueuePing) == Accept(s, f);
    run := Prepend(s1, EnqueuePing, run);
    run := Prepend(s, PingTick, run);
  }

  /** The teardown once triggered: connection, control channel and doneChan are closed. */
  lemma TearDownAlone(s: State) returns (run: seq<Step>)
    requires ConnOk(s.conn) && s.conn.teardown == Running && (s.conn.cancelled || s.conn.closeCloses > 0)
    ensures Runs(s, run)
    ensures After(s, run) == s.(conn := s.conn.(open := false, ccClosed := true, doneCloses := 1, teardown := Over))
  {
    var s1 := Do(s, TearDown);
    var s2 := Do(s1, TearDown);
    var s3 := Do(s2, TearDown);
    var none: seq<Step> := [];
    assert Runs(s3, none) && After(s3, none) == s3;
    run := Prepend(s2, TearDown, none);
    run := Prepend(s1, TearDown, run);
    run := Prepend(s, TearDown, run);
  }

  /** A cancelled sender becomes a drain, says goodbye, and its Close returns. */
  lemma CancelDrains(s: State) returns (run: seq<Step>)
    requires Calm(s) && s.conn.doneCloses == 0
    ensures Runs(s, run)
    ensures After(s, run) ==
            Accept(s, Frame(CloseFrame, [])).(
              consumers := [Consumer(true, Stopped, s.consumers[0].log)],
              conn := CloseOnce(s.conn.(cancelled := true)))
  {
    var s1 := Do(s, Cancel);
    var s2 := Do(s1, SenderSawCancel);
    assert s2.consumers == [Consumer(true, Ready, s.consumers[0].log)];
    run := DrainEnds(s2);
    run := Prepend(s1, SenderSawCancel, run);
    run := Prepend(s, Cancel, run);
  }

  /** A drain that finds the queue empty. */
  lemma DrainEnds(s: State) returns (run: seq<Step>)
    requires |s.consumers| == 1 && s.queue == [] && Drains(s, 0)
    ensures Runs(s, run)
    ensures After(s, run) ==
            Accept(s, Frame(CloseFrame, [])).(consumers := [Consumer(true, Stopped, s.consumers[0].log)])
  {
    var s1 := Do(s, DrainedEmpty(0));
    var s2 := Do(s1, SayGoodbye(0));
    var s3 := Do(s2, CloseReturns(0));
    assert s3.consumers == [Consumer(true, Stopped, s.consumers[0].log)];
    var none: seq<Step> := [];
    assert Runs(s3, none) && After(s3, none) == s3;
    run := Prepend(s2, CloseReturns(0), none);
    run := Prepend(s1, SayGoodbye(0), run);
    run := Prepend(s, DrainedEmpty(0), run);
  }
}
