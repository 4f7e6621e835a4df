/**
 The client's handler (proto/protov1/handler.go): session.initialize, the guard in front
 of the telephony requests, termination, and the audio reports, all sharing one mutex.
 */
module ClientHandler {
  import opened Wrappers
  import opened Proto
  import opened Handlers

  /** The request methods of NewClientHandler, in the order they are registered. */
  const NAMES: seq<string> := [
    "ping", "call.hangup", "application.move", "session.terminate", "audio.buffer.clear",
    "session.set", "session.get", "recording.start", "recording.stop"]

  lemma NamesDiffer()
    ensures NoRepeats(NAMES)
  {
    // three names have eleven letters; all others differ in length
    assert |NAMES[0]| == 4 && |NAMES[1]| == 11 && |NAMES[2]| == 16 && |NAMES[3]| == 17 && |NAMES[4]| == 18
           && |NAMES[5]| == 11 && |NAMES[6]| == 11 && |NAMES[7]| == 15 && |NAMES[8]| == 14;
    assert NAMES[1][0] == 'c' && NAMES[5][0] == 's' && NAMES[6][0] == 's';
    assert NAMES[5][8] == 's' && NAMES[6][8] == 'g';
  }

  // ------------------------------------------------------------- the dispatch table

  /** The middleware: whether the session was initialized when it looked. */
  function Check(initialized: bool): Request -> Option<GoError> {
    (_: Request) => if initialized then None else Some(Plain("session not initialized"))
  }

  /** HandleWithError: parameters are still checked first. */
  function WithError(t: Handler, err: GoError): Handler
    requires t.Typed?
  {
    t.(handle := (_: Payload) => Err(err), hook := None)
  }

  const TERMINATE_REFUSAL := NotImplemented(
    "session.terminate is not supported. please use application.move or call.hangup instead")

  /** The telephony operations and the ping handler, by method name. */
  ghost predicate Named(typed: string -> Handler) {
    forall name :: typed(name).Typed? && typed(name).name == name
  }

  /** The arguments NewClientHandler passes to NewHandler. */
  function ClientArgs(typed: string -> Handler, check: Request -> Option<GoError>, names: seq<string>): seq<Arg>
    requires |names| == 9 && typed(names[3]).Typed?
  {
    [ RequestArg(typed(names[0])),
      RequestArg(Guarded(check, typed(names[1]))),
      RequestArg(Guarded(check, typed(names[2]))),
      RequestArg(WithError(typed(names[3]), TERMINATE_REFUSAL)),
      RequestArg(Guarded(check, typed(names[4]))),
      RequestArg(Guarded(check, typed(names[5]))),
      RequestArg(Guarded(check, typed(names[6]))),
      RequestArg(Guarded(check, typed(names[7]))),
      RequestArg(Guarded(check, typed(names[8]))) ]
  }

  /** Every operation of the telephony adapter and the buffer clear sits behind the guard,
      ping does not, and session.terminate is refused. */
  ghost predicate IsClientTable(
      table: HandlerTable, names: seq<string>, typed: string -> Handler, check: Request -> Option<GoError>)
    requires |names| == 9 && Named(typed)
  {
    && (forall name :: name in table <==> name in names)
    && table[names[0]] == typed(names[0])
    && table[names[3]] == WithError(typed(names[3]), TERMINATE_REFUSAL)
    && (forall i | 0 <= i < 9 && i != 0 && i != 3 :: table[names[i]] == Guarded(check, typed(names[i])))
  }

  /** NewClientHandler. */
  method NewClientTable(typed: string -> Handler, initialized: bool) returns (table: HandlerTable)
    requires Named(typed)
    ensures IsClientTable(table, NAMES, typed, Check(initialized))
  {
    var check, names := Check(initialized), NAMES;
    var args := ClientArgs(typed, check, names);
    var events;
    table, events := NewHandler(args);
    NamesDiffer();
    DistinctNamesAreKept(typed, check, names, table);
  }

  lemma DistinctNamesAreKept(
      typed: string -> Handler, check: Request -> Option<GoError>, names: seq<string>, table: HandlerTable)
    requires |names| == 9 && NoRepeats(names) && Named(typed)
    requires var args := ClientArgs(typed, check, names);
             && (forall name :: name in table <==> exists i :: 0 <= i < |args| && Registers(args[i], name))
             && (forall name, i: nat | LastRegistration(args, i, name) :: name in table && table[name] == args[i].h)
    ensures IsClientTable(table, names, typed, check)
  {
    var args := ClientArgs(typed, check, names);
    forall i | 0 <= i < 9 ensures args[i].RequestArg? && MethodName(args[i].h) == names[i] {
    }
    forall i | 0 <= i < 9 ensures names[i] in table && table[names[i]] == args[i].h {
      assert LastRegistration(args, i, names[i]);
    }
  }

  /** Before initialization a guarded method is answered by one 500 and its operation is not
      called; afterwards the guard changes nothing. session.terminate never succeeds: valid
      parameters give 501, invalid ones 400. */
  lemma ClientAnswers(
      table: HandlerTable, names: seq<string>, typed: string -> Handler, initialized: bool,
      req: Request, write: Option<GoError>, errorWrite: Option<GoError>)
    requires |names| == 9 && Named(typed) && IsClientTable(table, names, typed, Check(initialized))
    ensures var answers := Answered(table, req, write, errorWrite);
            var t := typed(req.methodName);
            && (req.methodName in names && req.methodName != names[0] && req.methodName != names[3] ==>
                 if initialized then Handled(table[req.methodName], req, write) == Handled(t, req, write)
                 else
                   && Dispatched(table, req, write).calls == []
                   && answers == [RespondAttempt(
                        NotOkTo(req, ResponseError(INTERNAL, "session not initialized", Nil)), errorWrite)])
            && (req.methodName == names[3] && Encodable(req.params) && t.unmarshal(req.params).None? ==>
                 |answers| == 1 && answers[0].resp.error.Some? &&
                 answers[0].resp.error.value.code ==
                   (if t.validate(req.params).None? then 501 else 400))
  {
    if req.methodName == names[3] {
      ErrorCodes(table, req, write, errorWrite);
    } else if req.methodName in names && req.methodName != names[0] {
      var i :| 0 <= i < |names| && names[i] == req.methodName;
      assert table[names[i]] == Guarded(Check(initialized), typed(names[i]));
    }
  }

  // --------------------------------------------------------------- the shared mutex

  datatype Thread =
    // sessionInitialize, called from OnBegin
    | InitWants | InitLocked | InitRequesting | InitReplied | InitFlagged | InitStored | InitDone(ok: bool)
    // a request behind the guard
    | GuardWants(req: Request)
    | GuardLocked(req: Request)
    | Operating(req: Request)
    | GuardDone(req: Request, admitted: bool, called: bool)
    // Terminate
    | TermWants | TermLocked | TermClosing | TermDone(ok: bool)
    // audioInfoTracker.dispatch, at its lock
    | InfoWants | InfoLocked | InfoDone(sent: bool)

  /** What the outside sees, in order. */
  datatype Entry =
    | Initialized
    | Operated(req: Request)
    | Refused(req: Request)
    | Terminated(thread: nat)
    | TerminateRefused(thread: nat)
    | Reported(thread: nat)     // an audio report is sent
    | ReportDropped(thread: nat)

  datatype State = State(
    mu: Option<nat>,     // the thread inside the mutex
    initialized: bool,
    stored: bool,        // ch.shc is set
    threads: seq<Thread>,
    log: seq<Entry>)

  /** `ok` is the outcome of the session.initialize request and its reply's decoding. */
  datatype Step = Spawn(t: Thread) | Go(i: nat, ok: bool)

  predicate IsNew(t: Thread) {
    t.InitWants? || t.TermWants? || t.InfoWants? || t.GuardWants?
  }

  predicate Wants(t: Thread) {
    t.InitWants? || t.GuardWants? || t.TermWants? || t.InfoWants?
  }

  predicate Inside(t: Thread) {
    t.InitLocked? || t.InitRequesting? || t.InitReplied? || t.InitFlagged? || t.InitStored?
    || t.GuardLocked? || t.TermLocked? || t.TermClosing? || t.InfoLocked?
  }

  predicate Finished(t: Thread) {
    t.InitDone? || t.GuardDone? || t.TermDone? || t.InfoDone?
  }

  predicate Enabled(s: State, st: Step) {
    match st
    case Spawn(t) => IsNew(t)
    case Go(i, _) =>
      i < |s.threads| && !Finished(s.threads[i]) && (Wants(s.threads[i]) ==> s.mu == None)
  }

  function At(s: State, i: nat, t: Thread): State
    requires i < |s.threads|
  {
    s.(threads := s.threads[i := t])
  }

  function Lock(s: State, i: nat, t: Thread): State
    requires i < |s.threads|
  {
    At(s, i, t).(mu := Some(i))
  }

  function Unlock(s: State, i: nat, t: Thread): State
    requires i < |s.threads|
  {
    At(s, i, t).(mu := None)
  }

  function Log(s: State, e: Entry): State {
    s.(log := s.log + [e])
  }

  /** The telephony operations, by method name. */
  type Ops = string -> Handler

  /** Past the guard, the operation is called if its parameters decode and are valid. */
  predicate Calls(ops: Ops, req: Request) {
    ops(req.methodName).Typed? && CallsOf(ops(req.methodName), req) != []
  }

  function Do(ops: Ops, s: State, st: Step): State
    requires Enabled(s, st)
  {
    match st
    case Spawn(t) => s.(threads := s.threads + [t])
    case Go(i, ok) =>
      match s.threads[i]
      case InitWants => Lock(s, i, InitLocked)
      case InitLocked => if s.initialized then Unlock(s, i, InitDone(false)) else At(s, i, InitRequesting)
      case InitRequesting => if ok then Log(At(s, i, InitReplied), Initialized) else Unlock(s, i, InitDone(false))
      case InitReplied => At(s, i, InitFlagged).(initialized := true)
      case InitFlagged => At(s, i, InitStored).(stored := true)
      case InitStored => Unlock(s, i, InitDone(true))
      case GuardWants(req) => Lock(s, i, GuardLocked(req))
      case GuardLocked(req) =>
        if s.initialized then Unlock(s, i, Operating(req))
        else Log(Unlock(s, i, GuardDone(req, false, false)), Refused(req))
      case Operating(req) =>
        if Calls(ops, req) then Log(At(s, i, GuardDone(req, true, true)), Operated(req))
        else At(s, i, GuardDone(req, true, false))
      case TermWants => Lock(s, i, TermLocked)
      case TermLocked =>
        if s.initialized then At(s, i, TermClosing) else Log(Unlock(s, i, TermDone(false)), TerminateRefused(i))
      case TermClosing => Log(Unlock(s, i, TermDone(true)), Terminated(i))
      case InfoWants => Lock(s, i, InfoLocked)
      case InfoLocked =>
        if s.stored then Log(Unlock(s, i, InfoDone(true)), Reported(i))
        else Log(Unlock(s, i, InfoDone(false)), ReportDropped(i))
      case _ => s
  }

  function Initial(): State {
    State(None, false, false, [], [])
  }

  predicate Runs(ops: Ops, s: State, run: seq<Step>)
    decreases run
  {
    run == [] || (Enabled(s, run[0]) && Runs(ops, Do(ops, s, run[0]), run[1..]))
  }

  function After(ops: Ops, s: State, run: seq<Step>): State
    requires Runs(ops, s, run)
    decreases run
  {
    if run == [] then s else After(ops, Do(ops, s, run[0]), run[1..])
  }

  // -------------------------------------------------------------- the invariant

  predicate MutexOk(s: State) {
    && (s.mu.Some? ==> s.mu.value < |s.threads|)
    && (forall i | 0 <= i < |s.threads| :: Inside(s.threads[i]) <==> s.mu == Some(i))
  }

  /** How far the initialization under way has come. */
  predicate FlagsOk(s: State) {
    && (s.stored ==> s.initialized)
    && (s.initialized && !s.stored ==> s.mu.Some? && s.mu.value < |s.threads| && s.threads[s.mu.value].InitFlagged?)
    && (forall i | 0 <= i < |s.threads| ::
      && (s.threads[i].InitFlagged? ==> s.initialized && !s.stored)
      && (s.threads[i].InitStored? ==> s.stored)
      && (s.threads[i].InitRequesting? || s.threads[i].InitReplied? ==> !s.initialized)
      && (s.threads[i].Operating? || s.threads[i].TermClosing? || s.threads[i] == InitDone(true) ==> s.initialized))
  }

  function Successes(log: seq<Entry>): nat {
    if log == [] then 0 else Successes(log[..|log| - 1]) + (if log[|log| - 1].Initialized? then 1 else 0)
  }

  /** What happens only after the initialization, and what only before it. */
  predicate IsGated(e: Entry) {
    e.Operated? || e.Terminated? || e.Reported?
  }

  predicate IsRefusal(e: Entry) {
    e.Refused? || e.TerminateRefused? || e.ReportDropped?
  }

  predicate Gated(log: seq<Entry>) {
    forall j | 0 <= j < |log| ::
      && (IsGated(log[j]) ==> Initialized in log[..j])
      && (IsRefusal(log[j]) ==> Initialized !in log[..j])
  }

  predicate Replied(s: State) {
    s.mu.Some? && s.mu.value < |s.threads| && s.threads[s.mu.value].InitReplied?
  }

  predicate LogOk(s: State) {
    && Successes(s.log) == (if Succeeded(s) then 1 else 0)
    && Gated(s.log)
  }

  /** What became of the guarded requests that are done. */
  predicate GuardsOk(ops: Ops, s: State) {
    && (forall i | 0 <= i < |s.threads| :: GuardOk(ops, s.threads[i], s.log, s.initialized))
    && (forall e | e in s.log && e.Operated? :: Calls(ops, e.req))
  }

  predicate GuardOk(ops: Ops, t: Thread, log: seq<Entry>, initialized: bool) {
    t.GuardDone? ==>
      && t.called == (t.admitted && Calls(ops, t.req))
      && (t.admitted ==> initialized)
      && (t.called ==> Operated(t.req) in log)
      && (!t.admitted ==> Refused(t.req) in log)
  }

  predicate Good(ops: Ops, s: State) {
    MutexOk(s) && FlagsOk(s) && LogOk(s) && GuardsOk(ops, s)
  }

  lemma StepKeepsMutex(ops: Ops, s: State, st: Step)
    requires MutexOk(s) && Enabled(s, st)
    ensures MutexOk(Do(ops, s, st))
  {
    if st.Go? {
      LocksAndUnlocks(ops, s, st);
    }
  }

  /** A step moves one thread, and takes or frees the mutex just as it enters or leaves. */
  lemma LocksAndUnlocks(ops: Ops, s: State, st: Step)
    requires st.Go? && Enabled(s, st)
    ensures var s' := Do(ops, s, st);
            && |s'.threads| == |s.threads| && s'.threads == s.threads[st.i := s'.threads[st.i]]
            && (Inside(s'.threads[st.i]) && !Inside(s.threads[st.i]) ==> s.mu == None && s'.mu == Some(st.i))
            && (Inside(s'.threads[st.i]) == Inside(s.threads[st.i]) ==> s'.mu == s.mu)
            && (!Inside(s'.threads[st.i]) && Inside(s.threads[st.i]) ==> s'.mu == None)
  {
    if Wants(s.threads[st.i]) {
      assert s.mu == None && Do(ops, s, st).mu == Some(st.i);
    } else if Inside(s.threads[st.i]) {
      assert Do(ops, s, st).mu == s.mu || Do(ops, s, st).mu == None;
    } else {
      assert Do(ops, s, st).mu == s.mu;
    }
  }

  lemma StepKeepsFlags(ops: Ops, s: State, st: Step)
    requires MutexOk(s) && FlagsOk(s) && Enabled(s, st)
    ensures FlagsOk(Do(ops, s, st))
  {
  }

  lemma StepKeepsLog(ops: Ops, s: State, st: Step)
    requires MutexOk(s) && FlagsOk(s) && LogOk(s) && Enabled(s, st)
    ensures LogOk(Do(ops, s, st))
  {
    var s' := Do(ops, s, st);
    LogShape(ops, s, st);
    SuccessIsLogged(s.log);
    if s'.log != s.log {
      LogGrows(s.log, s'.log[|s.log|]);
    }
  }

  predicate Succeeded(s: State) {
    s.initialized || Replied(s)
  }

  /** A step logs at most one entry: the success, or something that fits the flag. */
  lemma LogShape(ops: Ops, s: State, st: Step)
    requires MutexOk(s) && FlagsOk(s) && Enabled(s, st)
    ensures var s' := Do(ops, s, st);
            if s'.log == s.log then Succeeded(s') == Succeeded(s)
            else
              && |s'.log| == |s.log| + 1 && s'.log == s.log + [s'.log[|s.log|]]
              && var e := s'.log[|s.log|];
              && (Succeeded(s') == (Succeeded(s) || e.Initialized?)) && (e.Initialized? ==> !Succeeded(s))
              && (IsGated(e) ==> s.initialized) && (IsRefusal(e) ==> !Succeeded(s))
  {
    if st.Go? {
      LocksAndUnlocks(ops, s, st);
    }
  }

  lemma LogGrows(log: seq<Entry>, e: Entry)
    requires Gated(log)
    ensures (IsGated(e) ==> Initialized in log) && (IsRefusal(e) ==> Initialized !in log) ==> Gated(log + [e])
    ensures Successes(log + [e]) == Successes(log) + (if e.Initialized? then 1 else 0)
  {
    var grown := log + [e];
    assert grown[..|log|] == log;
    forall j | 0 <= j < |log| ensures grown[..j] == log[..j] {
    }
  }

  lemma {:induction false} SuccessIsLogged(log: seq<Entry>)
    ensures Successes(log) > 0 <==> Initialized in log
  {
    if log != [] {
      SuccessIsLogged(log[..|log| - 1]);
      assert log == log[..|log| - 1] + [log[|log| - 1]];
    }
  }

  lemma StepKeepsGood(ops: Ops, s: State, st: Step)
    requires Good(ops, s) && Enabled(s, st)
    ensures Good(ops, Do(ops, s, st))
  {
    StepKeepsMutex(ops, s, st);
    StepKeepsFlags(ops, s, st);
    StepKeepsLog(ops, s, st);
    StepKeepsGuards(ops, s, st);
  }

  lemma StepKeepsGuards(ops: Ops, s: State, st: Step)
    requires FlagsOk(s) && GuardsOk(ops, s) && Enabled(s, st)
    ensures GuardsOk(ops, Do(ops, s, st))
  {
    var s' := Do(ops, s, st);
    StepKeepsHistory(ops, s, st);
    forall i | 0 <= i < |s'.threads| ensures GuardOk(ops, s'.threads[i], s'.log, s'.initialized) {
      if i < |s.threads| && s'.threads[i] == s.threads[i] {
        assert GuardOk(ops, s.threads[i], s.log, s.initialized);
      } else if st.Go? {
        assert i == st.i;
        EntryIsLast(ops, s, i, st.ok);
      }
    }
    if s'.log != s.log {
      assert st.Go?;
      EntryIsLast(ops, s, st.i, st.ok);
    }
  }

  /** What a thread logs on ending at the guard. */
  lemma EntryIsLast(ops: Ops, s: State, i: nat, ok: bool)
    requires FlagsOk(s) && Enabled(s, Go(i, ok))
    ensures var s' := Do(ops, s, Go(i, ok));
            && (s'.threads[i].GuardDone? ==> GuardOk(ops, s'.threads[i], s'.log, s'.initialized))
            && (s'.log == s.log ||
                 (s'.log == s.log + [s'.log[|s'.log| - 1]] &&
                   (s'.log[|s'.log| - 1].Operated? ==> Calls(ops, s'.log[|s'.log| - 1].req))))
  {
    var s' := Do(ops, s, Go(i, ok));
    if s'.log != s.log {
      assert s'.log[|s'.log| - 1] in s'.log;
    }
  }

  lemma StepKeepsHistory(ops: Ops, s: State, st: Step)
    requires Enabled(s, st)
    ensures s.initialized ==> Do(ops, s, st).initialized
    ensures s.log <= Do(ops, s, st).log
  {
  }

  lemma {:induction false} RunKeepsGood(ops: Ops, s: State, run: seq<Step>)
    requires Good(ops, s) && Runs(ops, s, run)
    ensures Good(ops, After(ops, s, run))
    ensures s.initialized ==> After(ops, s, run).initialized
    ensures s.log <= After(ops, s, run).log
    decreases run
  {
    if run != [] {
      StepKeepsGood(ops, s, run[0]);
      StepKeepsHistory(ops, s, run[0]);
      RunKeepsGood(ops, Do(ops, s, run[0]), run[1..]);
    }
  }

  // ------------------------------------------------------------- the main results

  /** In every run: initialization succeeds at most once; what the guard lets through and a
      termination come after it, what is refused came before it; and with the mutex free,
      the flag is set exactly when the session context is stored. */
  lemma InitializationGates(ops: Ops, run: seq<Step>)
    requires Runs(ops, Initial(), run)
    ensures var s := After(ops, Initial(), run);
            && Successes(s.log) <= 1
            && Gated(s.log)
            && (forall e | e in s.log && e.Operated? :: Calls(ops, e.req))
            && (s.mu == None ==> (s.initialized <==> s.stored) && (s.initialized <==> Initialized in s.log))
  {
    RunKeepsGood(ops, Initial(), run);
    SuccessIsLogged(After(ops, Initial(), run).log);
  }

  /** In every run, each guarded request that is done was dispatched with the flag it met in
      the lock: its operation was called exactly if that dispatch calls it, and then logged;
      the flag was set only after initialization had succeeded; and where it was not, the
      request was refused, and is answered by one 500. */
  lemma GuardedRequestsAreDispatched(
      ops: Ops, run: seq<Step>, i: nat, write: Option<GoError>, errorWrite: Option<GoError>)
    requires Named(ops) && Runs(ops, Initial(), run)
    requires i < |After(ops, Initial(), run).threads| && After(ops, Initial(), run).threads[i].GuardDone?
    ensures var s := After(ops, Initial(), run);
            var t := s.threads[i];
            var h := Guarded(Check(t.admitted), ops(t.req.methodName));
            && |Handled(h, t.req, write).calls| == (if t.called then 1 else 0)
            && (t.called ==> Operated(t.req) in s.log)
            && (t.admitted ==> Initialized in s.log)
            && (!t.admitted ==>
                 && Refused(t.req) in s.log
                 && Answered(map[t.req.methodName := h], t.req, write, errorWrite) ==
                    [RespondAttempt(
                       NotOkTo(t.req, ResponseError(INTERNAL, "session not initialized", Nil)), errorWrite)])
  {
    RunKeepsGood(ops, Initial(), run);
    var s := After(ops, Initial(), run);
    assert GuardOk(ops, s.threads[i], s.log, s.initialized);
    SuccessIsLogged(s.log);
  }

  /** The gate and the dispatch table together: whenever a guarded request is inside the lock,
      dispatching it calls the operation only if initialization succeeded before, and before
      that it is answered by one 500. */
  lemma CalledOnlyAfterInitialization(
      ops: Ops, run: seq<Step>, i: nat, table: HandlerTable, names: seq<string>,
      req: Request, write: Option<GoError>, errorWrite: Option<GoError>)
    requires Runs(ops, Initial(), run) && i < |After(ops, Initial(), run).threads|
    requires After(ops, Initial(), run).threads[i] == GuardLocked(req)
    requires |names| == 9 && Named(ops)
    requires IsClientTable(table, names, ops, Check(After(ops, Initial(), run).initialized))
    requires req.methodName in names && req.methodName != names[0] && req.methodName != names[3]
    ensures var s := After(ops, Initial(), run);
            if Initialized in s.log then
              Dispatched(table, req, write).calls == CallsOf(ops(req.methodName), req)
            else
              && Dispatched(table, req, write).calls == []
              && Answered(table, req, write, errorWrite) ==
                 [RespondAttempt(NotOkTo(req, ResponseError(INTERNAL, "session not initialized", Nil)), errorWrite)]
  {
    var s := After(ops, Initial(), run);
    RunKeepsGood(ops, Initial(), run);
    SuccessIsLogged(s.log);
    assert s.mu == Some(i);
    assert s.initialized <==> Initialized in s.log;
    ClientAnswers(table, names, ops, s.initialized, req, write, errorWrite);
  }

  /** From a reachable state on, the flag is never cleared, and a second initialization fails. */
  lemma InitializationIsFinal(ops: Ops, before: seq<Step>, run: seq<Step>)
    requires Runs(ops, Initial(), before) && Runs(ops, After(ops, Initial(), before), run)
    requires After(ops, Initial(), before).initialized
    ensures var s := After(ops, Initial(), before);
            var s' := After(ops, s, run);
            && s'.initialized && s.log <= s'.log
            && Initialized in s.log && Initialized !in s'.log[|s.log|..]
            && (forall j | |s.log| <= j < |s'.log| :: !IsRefusal(s'.log[j]))
  {
    var s := After(ops, Initial(), before);
    var s' := After(ops, s, run);
    RunKeepsGood(ops, Initial(), before);
    RunKeepsGood(ops, s, run);
    OnlyOneSuccess(s.log, s'.log);
    forall j | |s.log| <= j < |s'.log| ensures !IsRefusal(s'.log[j]) {
      NoRefusalAfter(s.log, s'.log, j);
    }
  }

  lemma NoRefusalAfter(log: seq<Entry>, log': seq<Entry>, j: nat)
    requires Gated(log') && log <= log' && Initialized in log && |log| <= j < |log'|
    ensures !IsRefusal(log'[j])
  {
    var k :| 0 <= k < |log| && log[k] == Initialized;
    assert log'[..j][k] == Initialized;
  }

  lemma OnlyOneSuccess(log: seq<Entry>, log': seq<Entry>)
    requires log <= log' && Successes(log) == Successes(log') == 1
    ensures Initialized in log && Initialized !in log'[|log|..]
  {
    var more := log'[|log|..];
    assert log' == log + more;
    SuccessesAdd(log, more);
    SuccessIsLogged(log);
    SuccessIsLogged(more);
  }

  lemma {:induction false} SuccessesAdd(a: seq<Entry>, b: seq<Entry>)
    ensures Successes(a + b) == Successes(a) + Successes(b)
  {
    if b == [] {
      assert a + b == a;
    } else {
      assert (a + b)[..|a + b| - 1] == a + b[..|b| - 1];
      SuccessesAdd(a, b[..|b| - 1]);
    }
  }
}
