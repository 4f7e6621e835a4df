/**
 The handler goroutine of module Correlation is the dispatcher of module Handlers: for
 every request, table of handlers and fate of the writes, what the dispatcher does is a
 run of that goroutine, and puts the same responses on the link.
 */
module HandlerGoroutine {
  import opened Wrappers
  import opened Proto
  import Correlation
  import Handlers

  predicate Runs(v: Correlation.View, run: seq<Correlation.Step>)
    decreases run
  {
    run == [] || (Correlation.Enabled(v, run[0]) && Runs(Correlation.Do(v, run[0]), run[1..]))
  }

  function After(v: Correlation.View, run: seq<Correlation.Step>): Correlation.View
    requires Runs(v, run)
    decreases run
  {
    if run == [] then v else After(Correlation.Do(v, run[0]), run[1..])
  }

  lemma RunsOneMore(v: Correlation.View, st: Correlation.Step, rest: seq<Correlation.Step>)
    requires Correlation.Enabled(v, st) && Runs(Correlation.Do(v, st), rest)
    ensures Runs(v, [st] + rest) && After(v, [st] + rest) == After(Correlation.Do(v, st), rest)
  {
    assert ([st] + rest)[1..] == rest;
  }

  /** Goroutine h serves the request and is at pc. */
  predicate At(v: Correlation.View, h: nat, req: Request, pc: Correlation.ServePc) {
    h < |v.me.serves| && v.me.serves[h].req == req && v.me.serves[h].pc == pc
  }

  /** The packets of the attempts the transport took. */
  function Posted(attempts: seq<Handlers.Attempt>, h: nat): seq<Correlation.Packet> {
    if attempts == [] then []
    else
      (if attempts[0].accepted
       then [Correlation.Packet(ResponseMsg(attempts[0].resp), Correlation.ByServe(h))] else [])
      + Posted(attempts[1..], h)
  }

  lemma OneAttempt(a: Handlers.Attempt, rest: seq<Handlers.Attempt>, h: nat)
    ensures Posted([a] + rest, h) == Posted([a], h) + Posted(rest, h)
  {
    assert ([a] + rest)[1..] == rest && [a][1..] == [];
  }

  /** The last leg: answering with the error. */
  lemma ErrorLeg(v: Correlation.View, h: nat, req: Request, err: ResponseError, errorWrite: Option<GoError>)
    returns (run: seq<Correlation.Step>)
    requires At(v, h, req, Correlation.Failing(err))
    ensures Runs(v, run)
    ensures At(After(v, run), h, req, Correlation.Finished)
    ensures After(v, run).out.sent == v.out.sent + Posted([Handlers.RespondAttempt(NotOkTo(req, err), errorWrite)], h)
  {
    var st := Correlation.ReplyError(h, errorWrite.None?);
    assert Runs(Correlation.Do(v, st), []);
    RunsOneMore(v, st, []);
    run := [st] + [];
  }

  /** The first leg: answering with the result. */
  lemma FirstLeg(
    v: Correlation.View, h: nat, req: Request, a: Handlers.Attempt, write: Option<GoError>, err: ResponseError)
    requires At(v, h, req, Correlation.Running)
    requires a.resp == OkTo(req, a.resp.result) && a.accepted == Correlation.Accepts(ResponseMsg(a.resp), write.None?)
    ensures var v1 := Correlation.Do(v, Correlation.ReplyOk(h, a.resp.result, write.None?, err));
            && At(v1, h, req, if a.accepted then Correlation.Replied else Correlation.Failing(err))
            && v1.out.sent == v.out.sent + Posted([a], h)
  {
  }

  /** The attempts that answer a request, given what handling it came to. */
  function WithErrorReply(d: Handlers.Handling, req: Request, errorWrite: Option<GoError>): seq<Handlers.Attempt> {
    d.attempts +
    match d.err
    case None => []
    case Some(e) => [Handlers.RespondAttempt(NotOkTo(req, ToResponseError(e)), errorWrite)]
  }

  /** The handler failed before any attempt. */
  lemma FailLeg(v: Correlation.View, h: nat, req: Request, err: ResponseError, errorWrite: Option<GoError>)
    returns (run: seq<Correlation.Step>)
    requires At(v, h, req, Correlation.Running)
    ensures Runs(v, run)
    ensures At(After(v, run), h, req, Correlation.Finished)
    ensures After(v, run).out.sent == v.out.sent + Posted([Handlers.RespondAttempt(NotOkTo(req, err), errorWrite)], h)
  {
    var st := Correlation.HandlerFails(h, err);
    var rest := ErrorLeg(Correlation.Do(v, st), h, req, err, errorWrite);
    RunsOneMore(v, st, rest);
    run := [st] + rest;
  }

  /** The handler answered, and then possibly failed with err. */
  lemma ReplyLegs(
    v: Correlation.View, h: nat, req: Request, a: Handlers.Attempt, write: Option<GoError>,
    err: Option<ResponseError>, errorWrite: Option<GoError>)
    returns (run: seq<Correlation.Step>)
    requires At(v, h, req, Correlation.Running)
    requires a.resp == OkTo(req, a.resp.result) && a.accepted == Correlation.Accepts(ResponseMsg(a.resp), write.None?)
    requires !a.accepted ==> err.Some?
    ensures Runs(v, run)
    ensures At(After(v, run), h, req, Correlation.Finished)
    ensures After(v, run).out.sent == v.out.sent + Posted([a], h) +
            (if err.None? then [] else Posted([Handlers.RespondAttempt(NotOkTo(req, err.value), errorWrite)], h))
  {
    var st := Correlation.ReplyOk(h, a.resp.result, write.None?, OrBlank(err));
    FirstLeg(v, h, req, a, write, OrBlank(err));
    var rest := AfterReply(Correlation.Do(v, st), h, req, a, err, errorWrite);
    RunsOneMore(v, st, rest);
    run := [st] + rest;
  }

  /** At most one attempt, and an error unless it was accepted. */
  predicate OneOrError(d: Handlers.Handling, req: Request, write: Option<GoError>) {
    && |d.attempts| <= 1
    && (d.attempts == [] ==> d.err.Some?)
    && (d.attempts != [] ==>
      var a := d.attempts[0];
      && a.resp == OkTo(req, a.resp.result) && a.accepted == Correlation.Accepts(ResponseMsg(a.resp), write.None?)
      && (!a.accepted ==> d.err.Some?))
  }

  lemma HandlingIsServeRun(
    v: Correlation.View, h: nat, d: Handlers.Handling, req: Request,
    write: Option<GoError>, errorWrite: Option<GoError>)
    returns (run: seq<Correlation.Step>)
    requires At(v, h, req, Correlation.Running) && OneOrError(d, req, write)
    ensures Runs(v, run)
    ensures At(After(v, run), h, req, Correlation.Finished)
    ensures After(v, run).out.sent == v.out.sent + Posted(WithErrorReply(d, req, errorWrite), h)
  {
    if d.attempts == [] {
      run := FailLeg(v, h, req, ToResponseError(d.err.value), errorWrite);
    } else {
      var a := d.attempts[0];
      var err := if d.err.Some? then Some(ToResponseError(d.err.value)) else None;
      run := ReplyLegs(v, h, req, a, write, err, errorWrite);
      assert d.attempts == [a] && [a] + [] == [a];
      if err.Some? {
        OneAttempt(a, [Handlers.RespondAttempt(NotOkTo(req, err.value), errorWrite)], h);
      }
    }
  }

  /** Goroutine h, just started for a request, runs the dispatcher to its end. */
  lemma DispatcherIsServeRun(
    v: Correlation.View, h: nat, table: Handlers.HandlerTable, req: Request,
    write: Option<GoError>, errorWrite: Option<GoError>)
    returns (run: seq<Correlation.Step>)
    requires At(v, h, req, Correlation.Running)
    ensures Runs(v, run)
    ensures At(After(v, run), h, req, Correlation.Finished)
    ensures After(v, run).out.sent == v.out.sent + Posted(Handlers.Answered(table, req, write, errorWrite), h)
  {
    var d := Handlers.Dispatched(table, req, write);
    assert OneOrError(d, req, write) by {
      if req.methodName in table {
        Handlers.HandlingShape(table[req.methodName], req, write);
      }
      if d.attempts != [] {
        AttemptIsRespond(table, req, write);
      }
    }
    assert Handlers.Answered(table, req, write, errorWrite) == WithErrorReply(d, req, errorWrite);
    run := HandlingIsServeRun(v, h, d, req, write, errorWrite);
  }

  function OrBlank(err: Option<ResponseError>): ResponseError {
    if err.Some? then err.value else ResponseError(INTERNAL, "", Nil)
  }

  /** The middle leg, after the attempt to answer with the result. */
  lemma AfterReply(
    v: Correlation.View, h: nat, req: Request, a: Handlers.Attempt,
    err: Option<ResponseError>, errorWrite: Option<GoError>)
    returns (run: seq<Correlation.Step>)
    requires At(v, h, req, if a.accepted then Correlation.Replied else Correlation.Failing(OrBlank(err)))
    requires !a.accepted ==> err.Some?
    ensures Runs(v, run)
    ensures At(After(v, run), h, req, Correlation.Finished)
    ensures After(v, run).out.sent ==
            v.out.sent +
            (if err.None? then [] else Posted([Handlers.RespondAttempt(NotOkTo(req, err.value), errorWrite)], h))
  {
    if !a.accepted {
      run := ErrorLeg(v, h, req, err.value, errorWrite);
    } else if err.None? {
      assert Runs(Correlation.Do(v, Correlation.HookOk(h)), []);
      RunsOneMore(v, Correlation.HookOk(h), []);
      run := [Correlation.HookOk(h)] + [];
    } else {
      var hook := Correlation.HookFails(h, err.value);
      var rest := ErrorLeg(Correlation.Do(v, hook), h, req, err.value, errorWrite);
      RunsOneMore(v, hook, rest);
      run := [hook] + rest;
    }
  }

  lemma AttemptIsRespond(table: Handlers.HandlerTable, req: Request, write: Option<GoError>)
    requires Handlers.Dispatched(table, req, write).attempts != []
    ensures var a := Handlers.Dispatched(table, req, write).attempts[0];
            a.resp == OkTo(req, a.resp.result) && a.accepted == Correlation.Accepts(ResponseMsg(a.resp), write.None?)
  {
    HandledAttempt(table[req.methodName], req, write);
  }

  lemma {:induction false} HandledAttempt(handler: Handlers.Handler, req: Request, write: Option<GoError>)
    requires Handlers.Handled(handler, req, write).attempts != []
    ensures var a := Handlers.Handled(handler, req, write).attempts[0];
            a.resp == OkTo(req, a.resp.result) && a.accepted == Correlation.Accepts(ResponseMsg(a.resp), write.None?)
  {
    if handler.Guarded? {
      HandledAttempt(handler.next, req, write);
    }
  }
}
