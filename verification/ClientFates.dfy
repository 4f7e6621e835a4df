/**
 What a run did and how the threads of the client's handler ended: the one initialization, the
 terminations, and the audio reports.
 */
module ClientFates {
  import opened Wrappers
  import opened ClientHandler

  lemma {:induction false} LastStep(ops: Ops, s: State, run: seq<Step>, st: Step)
    requires Runs(ops, s, run + [st])
    ensures Runs(ops, s, run) && Enabled(After(ops, s, run), st)
    ensures After(ops, s, run + [st]) == Do(ops, After(ops, s, run), st)
    decreases run
  {
    if run == [] {
      assert run + [st] == [st] && [st][1..] == [];
    } else {
      assert (run + [st])[0] == run[0] && (run + [st])[1..] == run[1..] + [st];
      LastStep(ops, Do(ops, s, run[0]), run[1..], st);
    }
  }

  /** The initialization whose request succeeded. */
  predicate Won(t: Thread) {
    t.InitReplied? || t.InitFlagged? || t.InitStored? || t == InitDone(true)
  }

  /** How a thread stands, by the log and by what its steps were told. */
  predicate EndOk(t: Thread, i: nat, log: seq<Entry>, run: seq<Step>) {
    && (Won(t) ==> Go(i, true) in run && Initialized in log)
    && (t == InitDone(false) ==> Go(i, false) in run || Initialized in log)
    && (t == TermDone(true) <==> Terminated(i) in log)
    && (t == TermDone(false) <==> TerminateRefused(i) in log)
    && (t == InfoDone(true) <==> Reported(i) in log)
    && (t == InfoDone(false) <==> ReportDropped(i) in log)
  }

  predicate Unlogged(i: nat, log: seq<Entry>) {
    Terminated(i) !in log && TerminateRefused(i) !in log && Reported(i) !in log && ReportDropped(i) !in log
  }

  ghost predicate EndsOk(s: State, run: seq<Step>) {
    && (forall i | 0 <= i < |s.threads| :: EndOk(s.threads[i], i, s.log, run))
    && (forall i | i >= |s.threads| :: Unlogged(i, s.log))
  }

  /** The success in the log is that of exactly one thread. */
  predicate OneWinner(s: State) {
    && (forall i, j | 0 <= i < |s.threads| && 0 <= j < |s.threads| && Won(s.threads[i]) && Won(s.threads[j]) :: i == j)
    && (Initialized in s.log <==> exists i :: 0 <= i < |s.threads| && Won(s.threads[i]))
  }

  lemma OthersKeepEnd(t: Thread, i: nat, log: seq<Entry>, log': seq<Entry>, run: seq<Step>, st: Step)
    requires EndOk(t, i, log, run) && (st.Go? ==> st.i != i)
    requires LogsFor(log, log', st)
    ensures EndOk(t, i, log', run + [st])
  {
  }

  predicate LogsFor(log: seq<Entry>, log': seq<Entry>, st: Step) {
    || log' == log
    || (st.Go? && |log'| == |log| + 1 && log' == log + [log'[|log|]] && IsOf(log'[|log|], st.i))
  }

  /** A step logs at most one entry, of its own thread. */
  lemma LogsOne(ops: Ops, s: State, st: Step)
    requires Enabled(s, st)
    ensures LogsFor(s.log, Do(ops, s, st).log, st)
  {
  }

  predicate IsOf(e: Entry, i: nat) {
    match e
    case Terminated(t) => t == i
    case TerminateRefused(t) => t == i
    case Reported(t) => t == i
    case ReportDropped(t) => t == i
    case _ => true
  }

  lemma OwnEnd(ops: Ops, s: State, i: nat, ok: bool, run: seq<Step>)
    requires Enabled(s, Go(i, ok)) && EndOk(s.threads[i], i, s.log, run)
    requires s.initialized ==> Initialized in s.log
    requires MutexOk(s) && FlagsOk(s)
    ensures EndOk(Do(ops, s, Go(i, ok)).threads[i], i, Do(ops, s, Go(i, ok)).log, run + [Go(i, ok)])
  {
    var s' := Do(ops, s, Go(i, ok));
    LogsOne(ops, s, Go(i, ok));
    assert Go(i, ok) in run + [Go(i, ok)];
    if s'.log != s.log {
      assert s'.log[|s.log|] in s'.log;
    }
  }

  lemma StepKeepsEnds(ops: Ops, s: State, st: Step, run: seq<Step>)
    requires EndsOk(s, run) && Enabled(s, st) && MutexOk(s) && FlagsOk(s) && (s.initialized ==> Initialized in s.log)
    ensures EndsOk(Do(ops, s, st), run + [st])
  {
    var s' := Do(ops, s, st);
    LogsOne(ops, s, st);
    forall i | 0 <= i < |s'.threads| ensures EndOk(s'.threads[i], i, s'.log, run + [st]) {
      if i < |s.threads| {
        if st.Go? && st.i == i {
          OwnEnd(ops, s, i, st.ok, run);
        } else {
          OthersKeepEnd(s.threads[i], i, s.log, s'.log, run, st);
        }
      } else {
        assert Unlogged(i, s.log);
      }
    }
    forall i | i >= |s'.threads| ensures Unlogged(i, s'.log) {
      assert Unlogged(i, s.log);
    }
  }

  /** A thread wins only where nobody has, and then logs it; a winner stays one. */
  lemma WinsOnce(ops: Ops, s: State, i: nat, ok: bool)
    requires Enabled(s, Go(i, ok)) && MutexOk(s) && FlagsOk(s)
    ensures var s' := Do(ops, s, Go(i, ok));
            if Won(s.threads[i]) then Won(s'.threads[i]) && s'.log == s.log
            else if Won(s'.threads[i]) then !Succeeded(s) && s'.log == s.log + [Initialized]
            else Initialized in s'.log <==> Initialized in s.log
  {
  }

  lemma StepKeepsOneWinner(ops: Ops, s: State, st: Step)
    requires OneWinner(s) && Enabled(s, st) && MutexOk(s) && FlagsOk(s) && (Initialized in s.log ==> Succeeded(s))
    ensures OneWinner(Do(ops, s, st))
  {
    var s' := Do(ops, s, st);
    if st.Go? {
      LocksAndUnlocks(ops, s, st);
      WinsOnce(ops, s, st.i, st.ok);
      WinnerMoves(s, s', st.i);
    } else {
      assert !Won(st.t);
      assert forall j | 0 <= j < |s.threads| :: s'.threads[j] == s.threads[j];
    }
  }

  lemma WinnerMoves(s: State, s': State, i: nat)
    requires OneWinner(s) && i < |s.threads| == |s'.threads| && s'.threads == s.threads[i := s'.threads[i]]
    requires if Won(s.threads[i]) then Won(s'.threads[i]) && s'.log == s.log
             else if Won(s'.threads[i]) then Initialized !in s.log && s'.log == s.log + [Initialized]
             else Initialized in s'.log <==> Initialized in s.log
    ensures OneWinner(s')
  {
    assert forall j | 0 <= j < |s.threads| && j != i :: s'.threads[j] == s.threads[j];
    if Won(s'.threads[i]) && !Won(s.threads[i]) {
      assert s'.log[|s.log|] == Initialized;
      assert forall j | 0 <= j < |s.threads| :: !Won(s.threads[j]);
    } else {
      assert forall j | 0 <= j < |s.threads| :: Won(s'.threads[j]) == Won(s.threads[j]);
    }
  }

  /** In every run: the success in the log is that of one thread, whose request succeeded; an
      initialization fails only by its request or because there was one before; a termination
      goes through, and an audio report is sent, exactly where the log has it; and it does so
      exactly if initialization had stored the session context. */
  lemma {:induction false} ThreadsEndAsRun(ops: Ops, run: seq<Step>)
    requires Runs(ops, Initial(), run)
    ensures var s := After(ops, Initial(), run);
            EndsOk(s, run) && OneWinner(s) && Gated(s.log)
    decreases |run|
  {
    if run != [] {
      var past, st := run[..|run| - 1], run[|run| - 1];
      assert run == past + [st];
      LastStep(ops, Initial(), past, st);
      ThreadsEndAsRun(ops, past);
      RunKeepsGood(ops, Initial(), past);
      RunKeepsGood(ops, Initial(), run);
      var s := After(ops, Initial(), past);
      SuccessIsLogged(s.log);
      StepKeepsEnds(ops, s, st, past);
      StepKeepsOneWinner(ops, s, st);
    }
  }

  lemma Prepend(ops: Ops, s: State, st: Step, rest: seq<Step>) returns (run: seq<Step>)
    requires Enabled(s, st) && Runs(ops, Do(ops, s, st), rest)
    ensures Runs(ops, s, run) && After(ops, s, run) == After(ops, Do(ops, s, st), rest)
  {
    run := [st] + rest;
    assert run[0] == st && run[1..] == rest;
  }

  /** The first initialization, undisturbed and granted, sets the flag and stores the context. */
  lemma InitializeAlone(ops: Ops, s: State, i: nat) returns (run: seq<Step>)
    requires i < |s.threads| && s.threads[i] == InitWants && s.mu == None && !s.initialized
    ensures Runs(ops, s, run)
    ensures After(ops, s, run) ==
            s.(threads := s.threads[i := InitDone(true)], initialized := true, stored := true,
               log := s.log + [Initialized])
  {
    var go := Go(i, true);
    var s1 := Do(ops, s, go);
    var s2 := Do(ops, s1, go);
    var s3 := Do(ops, s2, go);
    var s4 := Do(ops, s3, go);
    var s5 := Do(ops, s4, go);
    var s6 := Do(ops, s5, go);
    assert s6.threads == s.threads[i := InitDone(true)];
    var none: seq<Step> := [];
    assert Runs(ops, s6, none) && After(ops, s6, none) == s6;
    run := Prepend(ops, s5, go, none);
    run := Prepend(ops, s4, go, run);
    run := Prepend(ops, s3, go, run);
    run := Prepend(ops, s2, go, run);
    run := Prepend(ops, s1, go, run);
    run := Prepend(ops, s, go, run);
  }
}
