/**
 What a run did to the handlers that close the session after their reply: which frames their
 replies and terminates are, and how the terminates were answered.
 */
module HookFates {
  import opened Wrappers
  import opened Frames
  import opened ReplyOrder
  import Lifecycle
  import Outbound

  lemma {:induction false} LastStep(s: State, run: seq<Step>, st: Step)
    requires Runs(s, run + [st])
    ensures Runs(s, run) && Enabled(After(s, run), st) && After(s, run + [st]) == Do(After(s, run), st)
    decreases run
  {
    if run == [] {
      assert run + [st] == [st] && [st][1..] == [];
    } else {
      assert (run + [st])[0] == run[0] && (run + [st])[1..] == run[1..] + [st];
      LastStep(Do(s, run[0]), run[1..], st);
    }
  }

  /** The replies given, in order. */
  function Replies(run: seq<Step>): seq<Bytes> {
    if run == [] then []
    else
      var st := run[|run| - 1];
      Replies(run[..|run| - 1]) + (if st.Reply? then [st.data] else [])
  }

  /** The queue accepted that text at that position. */
  predicate IsText(accepted: seq<Frame>, i: nat, data: Bytes) {
    i < |accepted| && accepted[i] == Frame(Text, data)
  }

  /** How hook h stands, by the steps of the run. */
  ghost predicate HookIs(x: Hook, h: nat, s: State, run: seq<Step>) {
    && h < |Replies(run)| && IsText(s.out.accepted, x.reply, Replies(run)[h])
    && (x.closer.Some? <==> HookCloses(h) in run)
    && (x.closer.Some? ==> x.closer.value < |s.life.closers| && s.life.closers[x.closer.value].hasCallback)
    && (match x.terminate
        case None => forall data :: SendTerminate(h, data) !in run
        case Some(t) => exists data :: SendTerminate(h, data) in run && IsText(s.out.accepted, t, data))
    && (x.answer == Pending <==> TerminateAnswered(h) !in run)
    && (x.answer == AfterCancel ==> s.life.cancelled)
  }

  predicate Unused(h: nat, run: seq<Step>) {
    && HookCloses(h) !in run && TerminateAnswered(h) !in run
    && forall i | 0 <= i < |run| && run[i].SendTerminate? :: run[i].h != h
  }

  ghost predicate HooksAre(s: State, run: seq<Step>) {
    && |s.hooks| == |Replies(run)|
    && (forall h | 0 <= h < |s.hooks| :: HookIs(s.hooks[h], h, s, run))
    && (forall h | h >= |s.hooks| :: Unused(h, run))
  }

  /** Nothing accepted changes, closers stay, and a cancellation is final. */
  lemma StepExtends(s: State, st: Step)
    requires Enabled(s, st)
    ensures s.out.accepted <= Do(s, st).out.accepted
    ensures |s.life.closers| <= |Do(s, st).life.closers|
    ensures forall c | 0 <= c < |s.life.closers| ::
              Do(s, st).life.closers[c].hasCallback == s.life.closers[c].hasCallback
    ensures s.life.cancelled ==> Do(s, st).life.cancelled
  {
    match st
    case Life(l) => LifeExtends(s.life, l);
    case Transport(o) => assert s.out.accepted <= Outbound.Do(s.out, o).accepted;
    case _ =>
  }

  lemma LifeExtends(life: Lifecycle.State, l: Lifecycle.Step)
    requires Lifecycle.Enabled(life, l)
    ensures var life' := Lifecycle.Do(life, l);
            && |life.closers| <= |life'.closers|
            && (forall c | 0 <= c < |life.closers| :: life'.closers[c].hasCallback == life.closers[c].hasCallback)
            && (life.cancelled ==> life'.cancelled)
  {
  }

  /** The step is one of hook h itself. */
  predicate Concerns(st: Step, h: nat) {
    st == HookCloses(h) || st == TerminateAnswered(h) || (st.SendTerminate? && st.h == h)
  }

  lemma OthersKeepHook(s: State, st: Step, h: nat, run: seq<Step>)
    requires Enabled(s, st) && h < |s.hooks| && HookIs(s.hooks[h], h, s, run) && !Concerns(st, h)
    ensures HookIs(Do(s, st).hooks[h], h, Do(s, st), run + [st])
  {
    var s' := Do(s, st);
    StepExtends(s, st);
    assert (run + [st])[..|run|] == run;
    assert s'.hooks[h] == s.hooks[h];
    if s.hooks[h].terminate.Some? {
      var data :| SendTerminate(h, data) in run && IsText(s.out.accepted, s.hooks[h].terminate.value, data);
      assert SendTerminate(h, data) in run + [st] && IsText(s'.out.accepted, s.hooks[h].terminate.value, data);
    }
  }

  lemma OwnKeepsHook(s: State, st: Step, h: nat, run: seq<Step>)
    requires Enabled(s, st) && h < |s.hooks| && HookIs(s.hooks[h], h, s, run) && Concerns(st, h)
    ensures HookIs(Do(s, st).hooks[h], h, Do(s, st), run + [st])
  {
    var s' := Do(s, st);
    StepExtends(s, st);
    assert (run + [st])[..|run|] == run;
    if st.SendTerminate? {
      assert st in run + [st] && IsText(s'.out.accepted, |s.out.accepted|, st.data);
    } else if s.hooks[h].terminate.Some? {
      var data :| SendTerminate(h, data) in run && IsText(s.out.accepted, s.hooks[h].terminate.value, data);
      assert SendTerminate(h, data) in run + [st] && IsText(s'.out.accepted, s.hooks[h].terminate.value, data);
    }
  }

  lemma StepKeepsHooksAre(s: State, st: Step, run: seq<Step>)
    requires Enabled(s, st) && HooksAre(s, run)
    ensures HooksAre(Do(s, st), run + [st])
  {
    var s' := Do(s, st);
    assert (run + [st])[..|run|] == run;
    forall h | 0 <= h < |s'.hooks| ensures HookIs(s'.hooks[h], h, s', run + [st]) {
      if h >= |s.hooks| {
        assert Unused(h, run);
      } else if Concerns(st, h) {
        OwnKeepsHook(s, st, h, run);
      } else {
        OthersKeepHook(s, st, h, run);
      }
    }
    forall h | h >= |s'.hooks| ensures Unused(h, run + [st]) {
      assert Unused(h, run);
    }
  }

  /** In every run: each hook is one reply, whose text the queue accepted; its closer runs a
      callback; its terminate is a text accepted too; and an answer to it counts as late only
      after a cancellation. */
  lemma {:induction false} HooksEndAsRun(run: seq<Step>)
    requires Runs(Initial(), run)
    ensures HooksAre(After(Initial(), run), run)
    decreases |run|
  {
    if run != [] {
      var past, st := run[..|run| - 1], run[|run| - 1];
      assert run == past + [st];
      LastStep(Initial(), past, st);
      HooksEndAsRun(past);
      StepKeepsHooksAre(After(Initial(), past), st, past);
    }
  }

  lemma Prepend(s: State, st: Step, rest: seq<Step>) returns (run: seq<Step>)
    requires Enabled(s, st) && Runs(Do(s, st), rest)
    ensures Runs(s, run) && After(s, run) == After(Do(s, st), rest)
  {
    run := [st] + rest;
    assert run[0] == st && run[1..] == rest;
  }

  /** The sender loop alone takes a text and writes it. */
  lemma TextIsSent(s: State, rest: seq<Step>) returns (run: seq<Step>)
    requires |s.out.consumers| == 1 && s.out.consumers[0].pc == Outbound.Ready
    requires |s.out.queue| == 1 && s.out.conn.open && s.out.queue[0].kind == Text
    requires Runs(s.(out := Sent(s.out)), rest)
    ensures Runs(s, run) && After(s, run) == After(s.(out := Sent(s.out)), rest)
  {
    var s1 := Do(s, Transport(Outbound.Take(0)));
    assert s1.out.queue == [];
    assert Do(s1, Transport(Outbound.SendOk(0))).out == Sent(s.out);
    run := Prepend(s1, Transport(Outbound.SendOk(0)), rest);
    run := Prepend(s, Transport(Outbound.Take(0)), run);
  }

  function Sent(out: Outbound.State): Outbound.State
    requires out.consumers != []
  {
    var x := out.consumers[0];
    out.(queue := [], taken := out.taken + 1, sent := out.sent + [out.taken],
         consumers := out.consumers[0 := x.(pc := Outbound.Ready, log := x.log + [out.taken])])
  }

  /** A fresh session whose first closer is in its callback. */
  function InCallback(): Lifecycle.State {
    Lifecycle.Initial().(
      closers := [Lifecycle.Closer(false, true, Lifecycle.InCallback)],
      gate := Lifecycle.Gate(Lifecycle.Held(0), 0, [0]))
  }

  /** The first hook closes the session and its callback starts. */
  lemma CallbackStarts(s: State, rest: seq<Step>) returns (run: seq<Step>)
    requires s.life == Lifecycle.Initial() && s.hooks == [Hook(0, None, None, Pending)]
    requires Runs(s.(life := InCallback(), hooks := [Hook(0, Some(0), None, Pending)]), rest)
    ensures Runs(s, run)
    ensures After(s, run) == After(s.(life := InCallback(), hooks := [Hook(0, Some(0), None, Pending)]), rest)
  {
    var s1 := Do(s, HookCloses(0));
    var s2 := Do(s1, Life(Lifecycle.CheckState(0)));
    assert Do(s2, Life(Lifecycle.EnterOnce(0))) ==
           s.(life := InCallback(), hooks := [Hook(0, Some(0), None, Pending)]);
    run := Prepend(s2, Life(Lifecycle.EnterOnce(0)), rest);
    run := Prepend(s1, Life(Lifecycle.CheckState(0)), run);
    run := Prepend(s, HookCloses(0), run);
  }

  /** Its terminate is sent, written and answered. */
  lemma TerminateGoesOut(s: State, data: Bytes) returns (run: seq<Step>)
    requires s.life == InCallback() && s.hooks == [Hook(0, Some(0), None, Pending)]
    requires |s.out.consumers| == 1 && s.out.consumers[0].pc == Outbound.Ready && s.out.queue == []
    requires s.out.conn.open && !s.out.conn.ccClosed && s.out.taken == |s.out.accepted|
    ensures Runs(s, run)
    ensures var s' := After(s, run);
            && s'.hooks == [Hook(0, Some(0), Some(|s.out.accepted|), InTime)]
            && s'.out.accepted == s.out.accepted + [Frame(Text, data)]
            && s'.out.sent == s.out.sent + [|s.out.accepted|]
  {
    var s1 := Do(s, SendTerminate(0, data));
    var s2 := s1.(out := Sent(s1.out));
    assert s2.out.sent[|s.out.sent|] == |s.out.accepted|;
    var none: seq<Step> := [];
    assert Runs(Do(s2, TerminateAnswered(0)), none);
    run := Prepend(s2, TerminateAnswered(0), none);
    run := TextIsSent(s1, run);
    run := Prepend(s, SendTerminate(0, data), run);
  }

  /** It does happen: a reply, its hook's Close, the callback's terminate, and its answer. */
  lemma TerminateIsAnswered(reply: Bytes, terminate: Bytes) returns (run: seq<Step>)
    ensures Runs(Initial(), run)
    ensures var s := After(Initial(), run);
            && s.hooks == [Hook(0, Some(0), Some(1), InTime)]
            && s.out.accepted == [Frame(Text, reply), Frame(Text, terminate)] && s.out.sent == [0, 1]
  {
    var s0 := Initial();
    var s1 := Do(s0, Reply(reply));
    var s2 := s1.(out := Sent(s1.out));
    var s3 := s2.(life := InCallback(), hooks := [Hook(0, Some(0), None, Pending)]);
    run := TerminateGoesOut(s3, terminate);
    run := CallbackStarts(s2, run);
    run := TextIsSent(s1, run);
    run := Prepend(s0, Reply(reply), run);
  }
}
