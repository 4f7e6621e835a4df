/**
 From an incoming request to the responses it leads to (handler.go, request.go,
 request_middleware.go, and handleRequest of session.go).

 A user's functions are given by what they return. Whether the transport accepts a
 write is given by the error the write returns, if any.
 */
module Handlers {
  import opened Wrappers
  import opened Proto

  /** typedRequestHandler and requestMiddleware. `unmarshal` is json.Unmarshal into the
      parameter type, `validate` its Validate method, `hook` its OnAfterReply. */
  datatype Handler =
    | Typed(
        name: string,
        unmarshal: Payload -> Option<GoError>,
        validate: Payload -> Option<GoError>,
        handle: Payload -> Result<Payload, GoError>,
        hook: Option<Payload -> Option<GoError>>)
    | Guarded(guard: Request -> Option<GoError>, next: Handler)

  function MethodName(h: Handler): string {
    match h
    case Typed(name, _, _, _, _) => name
    case Guarded(_, next) => MethodName(next)
  }

  /** One call of SHC.Respond and whether the transport took the response. */
  datatype Attempt = Attempt(resp: Response, accepted: bool)

  /** What handling came to: the error returned, if any, the attempts made, and the
      parameters of the calls of the user's function. */
  datatype Handling = Handling(err: Option<GoError>, attempts: seq<Attempt>, calls: seq<Payload>)

  // ----------------------------------------------------------- the reference account

  /** The error of Session.sendMessage. */
  function SendError(m: Message, write: Option<GoError>): Option<GoError> {
    if Validate(m).Some? then Some(Wrapping("request: client validation failed", [Plain("validation")]))
    else if !CanMarshal(m) then Some(Wrapping("sending message failed", [Plain("json")]))
    else write
  }

  function RespondAttempt(resp: Response, write: Option<GoError>): Attempt {
    Attempt(resp, SendError(ResponseMsg(resp), write).None?)
  }

  /** Everything typedRequestHandler.Handle does before it responds: the result, or the error. */
  function Prepare(t: Handler, req: Request): Result<Payload, GoError>
    requires t.Typed?
  {
    if !Encodable(req.params) then Err(Wrapping("marshal data", [Plain("json")]))
    else if t.unmarshal(req.params).Some? then
      Err(Wrapping("unmarshal into type: " + ErrorText(t.unmarshal(req.params).value), [t.unmarshal(req.params).value]))
    else if t.validate(req.params).Some? then Err(BadRequest(t.validate(req.params).value))
    else
      match t.handle(req.params)
      case Err(e) => Err(e)
      case Ok(result) =>
        match PayloadFault(result)
        case Some(why) =>
          Err(NewError(INTERNAL, Wrapping("failed to produce valid response: " + why, [Plain(why)])))
        case None => Ok(result)
  }

  function HookError(t: Handler, req: Request): Option<GoError>
    requires t.Typed?
  {
    match t.hook
    case None => None
    case Some(hook) => hook(req.params)
  }

  /** The user's function is reached only by parameters that decode and are valid. */
  function CallsOf(t: Handler, req: Request): seq<Payload>
    requires t.Typed?
  {
    if Encodable(req.params) && t.unmarshal(req.params).None? && t.validate(req.params).None? then [req.params] else []
  }

  function Unsent(e: GoError): GoError {
    Wrapping("failed to respond: " + ErrorText(e), [e])
  }

  function Handled(h: Handler, req: Request, write: Option<GoError>): Handling {
    match h
    case Guarded(guard, next) =>
      if guard(req).Some? then Handling(guard(req), [], []) else Handled(next, req, write)
    case Typed(_, _, _, _, _) =>
      match Prepare(h, req)
      case Err(e) => Handling(Some(e), [], CallsOf(h, req))
      case Ok(result) =>
        var resp := OkTo(req, result);
        var attempts := [RespondAttempt(resp, write)];
        match SendError(ResponseMsg(resp), write)
        case Some(e) => Handling(Some(Unsent(e)), attempts, CallsOf(h, req))
        case None => Handling(HookError(h, req), attempts, CallsOf(h, req))
  }

  type HandlerTable = map<string, Handler>

  /** OnRequest. */
  function Dispatched(table: HandlerTable, req: Request, write: Option<GoError>): Handling {
    if req.methodName in table then Handled(table[req.methodName], req, write)
    else Handling(Some(NotImplemented("unknown method: " + req.methodName)), [], [])
  }

  /** handleRequest of the session: an error is answered too. */
  function Answered(table: HandlerTable, req: Request, write: Option<GoError>, errorWrite: Option<GoError>)
    : seq<Attempt>
  {
    var d := Dispatched(table, req, write);
    match d.err
    case None => d.attempts
    case Some(e) => d.attempts + [RespondAttempt(NotOkTo(req, ToResponseError(e)), errorWrite)]
  }

  // ------------------------------------------------------------- the code's own form

  class SessionContext {
    var attempts: seq<Attempt>
    var calls: seq<Payload> // of users' functions

    constructor ()
      ensures attempts == [] && calls == []
    {
      attempts, calls := [], [];
    }

    /** sessionHandlerCtx.Respond. */
    method Respond(resp: Response, write: Option<GoError>) returns (err: Option<GoError>)
      modifies this`attempts
      ensures attempts == old(attempts) + [RespondAttempt(resp, write)]
      ensures err == SendError(ResponseMsg(resp), write)
    {
      err := SendError(ResponseMsg(resp), write);
      attempts := attempts + [Attempt(resp, err.None?)];
    }

    /** typedRequestHandler.Handle. */
    method HandleTyped(t: Handler, req: Request, write: Option<GoError>) returns (err: Option<GoError>)
      requires t.Typed?
      modifies this
      ensures err == Handled(t, req, write).err && attempts == old(attempts) + Handled(t, req, write).attempts
      ensures calls == old(calls) + Handled(t, req, write).calls
    {
      if !Encodable(req.params) {
        return Some(Wrapping("marshal data", [Plain("json")]));
      }
      var unmarshalErr := t.unmarshal(req.params);
      if unmarshalErr.Some? {
        return Some(Wrapping("unmarshal into type: " + ErrorText(unmarshalErr.value), [unmarshalErr.value]));
      }
      var paramsErr := t.validate(req.params);
      if paramsErr.Some? {
        return Some(BadRequest(paramsErr.value));
      }
      var res := t.handle(req.params);
      calls := calls + [req.params];
      if res.Err? {
        return Some(res.error);
      }
      var fault := PayloadFault(res.value);
      if fault.Some? {
        return Some(NewError(
          INTERNAL, Wrapping("failed to produce valid response: " + fault.value, [Plain(fault.value)])));
      }
      var sendErr := Respond(OkTo(req, res.value), write);
      if sendErr.Some? {
        return Some(Unsent(sendErr.value));
      }
      if t.hook.Some? {
        return t.hook.value(req.params);
      }
      return None;
    }

    /** RequestHandler.Handle, through any number of middlewares. */
    method Handle(h: Handler, req: Request, write: Option<GoError>) returns (err: Option<GoError>)
      modifies this
      ensures err == Handled(h, req, write).err && attempts == old(attempts) + Handled(h, req, write).attempts
      ensures calls == old(calls) + Handled(h, req, write).calls
      decreases h
    {
      match h {
        case Guarded(guard, next) =>
          var refusal := guard(req);
          if refusal.Some? {
            return refusal;
          }
          err := Handle(next, req, write);
        case Typed(_, _, _, _, _) =>
          err := HandleTyped(h, req, write);
      }
    }

    method OnRequest(table: HandlerTable, req: Request, write: Option<GoError>) returns (err: Option<GoError>)
      modifies this
      ensures err == Dispatched(table, req, write).err
      ensures attempts == old(attempts) + Dispatched(table, req, write).attempts
      ensures calls == old(calls) + Dispatched(table, req, write).calls
    {
      if req.methodName !in table {
        return Some(NotImplemented("unknown method: " + req.methodName));
      }
      err := Handle(table[req.methodName], req, write);
    }

    /** Session.handleRequest. */
    method HandleRequest(table: HandlerTable, req: Request, write: Option<GoError>, errorWrite: Option<GoError>)
      modifies this
      ensures attempts == old(attempts) + Answered(table, req, write, errorWrite)
      ensures calls == old(calls) + Dispatched(table, req, write).calls
    {
      var err := OnRequest(table, req, write);
      if err.Some? {
        var _ := Respond(NotOkTo(req, ToResponseError(err.value)), errorWrite);
      }
    }
  }

  /** An argument of NewHandler. */
  datatype Arg = EventArg(name: string) | RequestArg(h: Handler) | OtherArg

  predicate Registers(arg: Arg, name: string) {
    arg.RequestArg? && MethodName(arg.h) == name
  }

  predicate LastRegistration(args: seq<Arg>, i: nat, name: string) {
    i < |args| && Registers(args[i], name) && forall j | i < j < |args| :: !Registers(args[j], name)
  }

  lemma StillLast(args: seq<Arg>, k: nat, i: nat, name: string)
    requires i < k < |args| && LastRegistration(args[..k + 1], i, name)
    ensures LastRegistration(args[..k], i, name) && !Registers(args[k], name)
  {
    assert !Registers(args[..k + 1][k], name);
    forall j | i < j < k ensures !Registers(args[..k][j], name) {
      assert !Registers(args[..k + 1][j], name);
    }
  }

  /** NewHandler: of several handlers for one method the last is kept. */
  method NewHandler(args: seq<Arg>) returns (requests: HandlerTable, events: set<string>)
    ensures forall name :: name in requests <==> exists i :: 0 <= i < |args| && Registers(args[i], name)
    ensures forall name, i: nat | LastRegistration(args, i, name) :: name in requests && requests[name] == args[i].h
    ensures forall name :: name in events <==> EventArg(name) in args
  {
    requests, events := map[], {};
    for k := 0 to |args|
      invariant forall name :: name in requests <==> exists i :: 0 <= i < k && Registers(args[i], name)
      invariant forall name, i: nat | LastRegistration(args[..k], i, name) ::
                  name in requests && requests[name] == args[i].h
      invariant forall name :: name in events <==> exists i :: 0 <= i < k && args[i] == EventArg(name)
    {
      ghost var before := requests;
      match args[k] {
        case EventArg(name) => events := events + {name};
        case RequestArg(h) => requests := requests[MethodName(h) := h];
        case OtherArg =>
      }
      forall name, i: nat | LastRegistration(args[..k + 1], i, name)
        ensures name in requests && requests[name] == args[i].h
      {
        if i < k {
          StillLast(args, k, i, name);
        }
      }
    }
    assert args[..|args|] == args;
  }

  // ------------------------------------------------------------- the main results

  /** A handler makes at most one attempt. It is accepted exactly if every guard admits the
      request, handling succeeds and the transport takes a valid result; an error after that
      is the hook's. */
  lemma {:induction false} HandlingShape(h: Handler, req: Request, write: Option<GoError>)
    ensures var d := Handled(h, req, write);
            && |d.attempts| <= 1
            && (d.attempts == [] ==> d.err.Some?)
            && (d.attempts != [] ==>
                 && d.attempts[0].resp.response == req.id && d.attempts[0].resp.version == req.version
                 && d.attempts[0].resp.error == None
                 && (!d.attempts[0].accepted ==> d.err.Some?))
            && (d.attempts != [] && d.attempts[0].accepted ==> (d.err.Some? <==> HookFailed(h, req)))
            && (d.attempts != [] && d.attempts[0].accepted <==>
                 Admitted(h, req) && Prepare(Inner(h), req).Ok? && write == None
                 && Sendable(ResponseMsg(OkTo(req, Prepare(Inner(h), req).value))))
  {
    match h
    case Guarded(guard, next) =>
      if guard(req).None? {
        HandlingShape(next, req, write);
      }
    case Typed(_, _, _, _, _) =>
  }

  /** The after-reply hook of the handler behind the middlewares returns an error. */
  predicate HookFailed(h: Handler, req: Request) {
    match h
    case Guarded(_, next) => HookFailed(next, req)
    case Typed(_, _, _, _, _) => HookError(h, req).Some?
  }

  /** Reply discipline: every request leads to one or two attempts to respond, all with its
      id and version; two both succeed only if the first was a success and the after-reply
      hook then failed. */
  lemma ReplyDiscipline(table: HandlerTable, req: Request, write: Option<GoError>, errorWrite: Option<GoError>)
    ensures var attempts := Answered(table, req, write, errorWrite);
            && 1 <= |attempts| <= 2
            && (forall i | 0 <= i < |attempts| ::
                 attempts[i].resp.response == req.id && attempts[i].resp.version == req.version)
            && (|attempts| == 2 ==> attempts[0].resp.error == None && attempts[1].resp.error.Some?)
            && (|attempts| == 2 && attempts[0].accepted ==>
                 req.methodName in table && HookFailed(table[req.methodName], req))
  {
    if req.methodName in table {
      HandlingShape(table[req.methodName], req, write);
    }
  }

  /** All guards in front of the typed handler let the request pass. */
  predicate Admitted(h: Handler, req: Request) {
    match h
    case Guarded(guard, next) => guard(req).None? && Admitted(next, req)
    case Typed(_, _, _, _, _) => true
  }

  function Inner(h: Handler): (t: Handler)
    ensures t.Typed?
  {
    match h
    case Guarded(_, next) => Inner(next)
    case Typed(_, _, _, _, _) => h
  }

  /** What the first guard to refuse returns. */
  function Refusal(h: Handler, req: Request): Option<GoError> {
    match h
    case Guarded(guard, next) => if guard(req).Some? then guard(req) else Refusal(next, req)
    case Typed(_, _, _, _, _) => None
  }

  /** Guards change nothing for a request they admit; a refused request leads to no attempt
      and does not reach the user's function. */
  lemma {:induction false} GuardsOnlyFilter(h: Handler, req: Request, write: Option<GoError>)
    ensures Admitted(h, req) <==> Refusal(h, req).None?
    ensures Admitted(h, req) ==> Handled(h, req, write) == Handled(Inner(h), req, write)
    ensures !Admitted(h, req) ==> Handled(h, req, write) == Handling(Refusal(h, req), [], [])
  {
    match h
    case Guarded(guard, next) =>
      if guard(req).None? {
        GuardsOnlyFilter(next, req, write);
      }
    case Typed(_, _, _, _, _) =>
  }

  /** The user's function is called at most once, and only for a registered method, past all
      guards, with the request's own parameters. */
  lemma CalledOnlyPastGuards(table: HandlerTable, req: Request, write: Option<GoError>)
    ensures Dispatched(table, req, write).calls ==
            if req.methodName in table && Admitted(table[req.methodName], req)
            then CallsOf(Inner(table[req.methodName]), req) else []
  {
    if req.methodName in table {
      GuardsOnlyFilter(table[req.methodName], req, write);
    }
  }

  /** A wrapping error converts as what it wraps, or to a 500 with its own text. */
  function ConvertedWrap(text: string, cause: GoError): ResponseError {
    match FirstReply(cause)
    case Some(re) => re
    case None => ResponseError(INTERNAL, text, Nil)
  }

  /** The error a request is answered with, case by case in the order of the checks. */
  lemma ErrorCodes(table: HandlerTable, req: Request, write: Option<GoError>, errorWrite: Option<GoError>)
    requires Dispatched(table, req, write).err.Some?
    ensures var attempts := Answered(table, req, write, errorWrite);
            var error := attempts[|attempts| - 1].resp.error;
            error.Some? &&
            if req.methodName !in table then
              error.value == ResponseError(501, "unknown method: " + req.methodName, Nil)
            else
              var h := table[req.methodName];
              var t, p := Inner(h), req.params;
              if Refusal(h, req).Some? then error.value == ToResponseError(Refusal(h, req).value)
              else if !Encodable(p) then error.value.code == 500
              else if t.unmarshal(p).Some? then
                error.value ==
                  ConvertedWrap("unmarshal into type: " + ErrorText(t.unmarshal(p).value), t.unmarshal(p).value)
              else if t.validate(p).Some? then
                error.value == ResponseError(400, ErrorText(t.validate(p).value), Nil)
              else if t.handle(p).Err? then error.value == ToResponseError(t.handle(p).error)
              else if PayloadFault(t.handle(p).value).Some? then error.value.code == 500
              else
                var refused := SendError(ResponseMsg(OkTo(req, t.handle(p).value)), write);
                if refused.Some? then
                  error.value == ConvertedWrap("failed to respond: " + ErrorText(refused.value), refused.value)
                else
                  HookError(t, req).Some? && error.value == ToResponseError(HookError(t, req).value)
  {
    if req.methodName in table {
      GuardsOnlyFilter(table[req.methodName], req, write);
      var t := Inner(table[req.methodName]);
      if t.unmarshal(req.params).Some? {
        OneCause(t.unmarshal(req.params).value);
      } else if t.handle(req.params).Ok? {
        var refused := SendError(ResponseMsg(OkTo(req, t.handle(req.params).value)), write);
        if refused.Some? {
          OneCause(refused.value);
        }
      }
    }
  }

  lemma OneCause(e: GoError)
    ensures FirstReplyIn([e]) == FirstReply(e)
  {
    assert [e][1..] == [];
  }

  /** The errors of a chain in the order errors.As visits them. */
  function Chain(e: GoError): seq<GoError> {
    match e
    case Plain(_) => [e]
    case Wrapping(_, causes) => [e] + ChainOfAll(causes)
    case Reply(_, cause) => [e] + (match cause case None => [] case Some(c) => Chain(c))
  }

  function ChainOfAll(es: seq<GoError>): seq<GoError> {
    if es == [] then [] else Chain(es[0]) + ChainOfAll(es[1..])
  }

  predicate FirstIn(chain: seq<GoError>, found: Option<ResponseError>) {
    match found
    case None => forall i | 0 <= i < |chain| :: !chain[i].Reply?
    case Some(re) =>
      exists i :: 0 <= i < |chain| && chain[i].Reply? && chain[i].re == re && forall j | 0 <= j < i :: !chain[j].Reply?
  }

  lemma FirstInJoined(a: seq<GoError>, b: seq<GoError>, x: Option<ResponseError>, y: Option<ResponseError>)
    requires FirstIn(a, x) && FirstIn(b, y)
    ensures FirstIn(a + b, if x.Some? then x else y)
  {
    if x.Some? {
      var i :| 0 <= i < |a| && a[i].Reply? && a[i].re == x.value && forall j | 0 <= j < i :: !a[j].Reply?;
      assert (a + b)[i] == a[i];
    } else if y.Some? {
      var i :| 0 <= i < |b| && b[i].Reply? && b[i].re == y.value && forall j | 0 <= j < i :: !b[j].Reply?;
      assert (a + b)[|a| + i] == b[i];
    }
  }

  /** The error response carries the first response error of the chain; an error without
      one becomes a 500 with its text. */
  lemma {:induction false} ConvertsFirstInChain(e: GoError)
    ensures FirstIn(Chain(e), FirstReply(e))
    ensures (forall i | 0 <= i < |Chain(e)| :: !Chain(e)[i].Reply?) ==>
              ToResponseError(e) == ResponseError(INTERNAL, ErrorText(e), Nil)
  {
    match e
    case Plain(_) =>
    case Wrapping(_, causes) =>
      ConvertsFirstAmong(causes);
      assert FirstIn([e], None);
      FirstInJoined([e], ChainOfAll(causes), None, FirstReplyIn(causes));
    case Reply(re, _) =>
      assert Chain(e)[0] == e;
  }

  lemma {:induction false} ConvertsFirstAmong(es: seq<GoError>)
    ensures FirstIn(ChainOfAll(es), FirstReplyIn(es))
  {
    if es != [] {
      ConvertsFirstInChain(es[0]);
      ConvertsFirstAmong(es[1..]);
      FirstInJoined(Chain(es[0]), ChainOfAll(es[1..]), FirstReply(es[0]), FirstReplyIn(es[1..]));
    }
  }

  /** How many of the attempts the transport took. */
  function Accepted(attempts: seq<Attempt>): nat {
    if attempts == [] then 0 else (if attempts[0].accepted then 1 else 0) + Accepted(attempts[1..])
  }

  /** Guards admit the request, its handler succeeds, and the transport takes the result. */
  predicate ResultTaken(table: HandlerTable, req: Request, write: Option<GoError>) {
    && req.methodName in table
    && var h := table[req.methodName];
    && Admitted(h, req) && Prepare(Inner(h), req).Ok? && write == None
    && Sendable(ResponseMsg(OkTo(req, Prepare(Inner(h), req).value)))
  }

  /** The error makes a valid response with a code, a text and encodable data, and the
      transport takes it. */
  predicate ErrorTaken(req: Request, e: GoError, errorWrite: Option<GoError>) {
    errorWrite == None && Sendable(ResponseMsg(NotOkTo(req, ToResponseError(e))))
  }

  /** The error response of a failed request is accepted if and only if it says something
      and the transport takes it. */
  lemma FailedRequestIsAnsweredIff(
      table: HandlerTable, req: Request, write: Option<GoError>, errorWrite: Option<GoError>)
    requires Dispatched(table, req, write).err.Some?
    ensures var re := ToResponseError(Dispatched(table, req, write).err.value);
            var attempts := Answered(table, req, write, errorWrite);
            |attempts| > 0 &&
            (attempts[|attempts| - 1].accepted <==>
              && req.version == VERSION && req.id != ""
              && re.code != UNSPECIFIED && re.message != "" && Encodable(re.data) && errorWrite == None)
  {
  }

  /** The responses accepted are the result, if taken, and the error, if there is one and it
      is taken. */
  lemma AnswersAdd(table: HandlerTable, req: Request, write: Option<GoError>, errorWrite: Option<GoError>)
    ensures var d := Dispatched(table, req, write);
            && (d.err.None? ==> ResultTaken(table, req, write))
            && Accepted(Answered(table, req, write, errorWrite)) ==
               (if ResultTaken(table, req, write) then 1 else 0) +
               (if d.err.Some? && ErrorTaken(req, d.err.value, errorWrite) then 1 else 0)
  {
    var d := Dispatched(table, req, write);
    if req.methodName in table {
      HandlingShape(table[req.methodName], req, write);
    }
    if d.attempts != [] {
      assert d.attempts == [d.attempts[0]];
      AcceptedOne(d.attempts[0]);
    }
    if d.err.Some? {
      var last := RespondAttempt(NotOkTo(req, ToResponseError(d.err.value)), errorWrite);
      AcceptedOne(last);
      AcceptedAdds(d.attempts, [last]);
    }
  }

  lemma AcceptedOne(a: Attempt)
    ensures Accepted([a]) == if a.accepted then 1 else 0
  {
    assert [a][1..] == [];
  }

  lemma {:induction false} AcceptedAdds(a: seq<Attempt>, b: seq<Attempt>)
    ensures Accepted(a + b) == Accepted(a) + Accepted(b)
  {
    if a == [] {
      assert a + b == b;
    } else {
      assert (a + b)[0] == a[0] && (a + b)[1..] == a[1..] + b;
      AcceptedAdds(a[1..], b);
    }
  }

  /** Two responses are accepted exactly if the result was taken, the after-reply hook then
      failed, and its error was taken too. */
  lemma AnsweredTwiceIff(table: HandlerTable, req: Request, write: Option<GoError>, errorWrite: Option<GoError>)
    ensures Accepted(Answered(table, req, write, errorWrite)) == 2 <==>
            && ResultTaken(table, req, write)
            && var hook := HookError(Inner(table[req.methodName]), req);
            hook.Some? && ErrorTaken(req, hook.value, errorWrite)
  {
    AnswersAdd(table, req, write, errorWrite);
    if ResultTaken(table, req, write) {
      GuardsOnlyFilter(table[req.methodName], req, write);
    }
  }

  /** No response is accepted exactly if the result was not taken and the error was not
      either. */
  lemma UnansweredIff(table: HandlerTable, req: Request, write: Option<GoError>, errorWrite: Option<GoError>)
    ensures Accepted(Answered(table, req, write, errorWrite)) == 0 <==>
            && !ResultTaken(table, req, write)
            && var err := Dispatched(table, req, write).err;
            err.Some? && !ErrorTaken(req, err.value, errorWrite)
  {
    AnswersAdd(table, req, write, errorWrite);
  }

  /** Exactly one is accepted in all other cases: a result alone, or an error alone. */
  lemma AnsweredOnceIff(table: HandlerTable, req: Request, write: Option<GoError>, errorWrite: Option<GoError>)
    ensures Accepted(Answered(table, req, write, errorWrite)) <= 2
    ensures Accepted(Answered(table, req, write, errorWrite)) == 1 <==>
            if ResultTaken(table, req, write) then
              var hook := HookError(Inner(table[req.methodName]), req);
              hook.Some? ==> !ErrorTaken(req, hook.value, errorWrite)
            else
              var err := Dispatched(table, req, write).err;
              err.Some? && ErrorTaken(req, err.value, errorWrite)
  {
    AnswersAdd(table, req, write, errorWrite);
    AnsweredTwiceIff(table, req, write, errorWrite);
  }

  /** The one attempt of a handler carries what the user's function returned for the
      parameters of the request. */
  lemma {:induction false} AttemptCarriesResult(h: Handler, req: Request, write: Option<GoError>)
    ensures var attempts := Handled(h, req, write).attempts;
            attempts != [] ==>
              && Inner(h).handle(req.params).Ok?
              && attempts[0].resp == Response(req.version, req.id, Inner(h).handle(req.params).value, None)
  {
    match h
    case Guarded(guard, next) =>
      if guard(req).None? {
        AttemptCarriesResult(next, req, write);
      }
    case Typed(_, _, _, _, _) =>
  }

  /** The result is taken exactly if every check passes, on the way in and on the way out. */
  lemma ResultTakenIff(table: HandlerTable, req: Request, write: Option<GoError>)
    ensures ResultTaken(table, req, write) <==>
            && req.version == VERSION && req.id != "" && req.methodName in table
            && Admitted(table[req.methodName], req)
            && var t, p := Inner(table[req.methodName]), req.params;
            && Encodable(p) && t.unmarshal(p).None? && t.validate(p).None? && t.handle(p).Ok?
            && var result := t.handle(p).value;
            PayloadFault(result).None? && Encodable(result) && write == None
  {
  }

  /** A result taken is the first response, carries the value of the user's function, and is
      read by the peer as that value, normalised. */
  lemma ResultReachesPeer(table: HandlerTable, req: Request, write: Option<GoError>, errorWrite: Option<GoError>)
    requires ResultTaken(table, req, write)
    ensures var attempts := Answered(table, req, write, errorWrite);
            var res := Inner(table[req.methodName]).handle(req.params);
            && res.Ok?
            && attempts != []
            && attempts[0] == Attempt(Response(req.version, req.id, res.value, None), true)
            && Received(ResponseMsg(attempts[0].resp)) ==
               Ok(ResponseMsg(Response(req.version, req.id, NormPayload(res.value), None)))
  {
    var h := table[req.methodName];
    HandlingShape(h, req, write);
    AttemptCarriesResult(h, req, write);
    SentIsAccepted(ResponseMsg(Handled(h, req, write).attempts[0].resp));
  }

  /** An error response carries no result, and one taken is read by the peer as that error, its
      data normalised. */
  lemma ErrorReachesPeer(
      table: HandlerTable, req: Request, write: Option<GoError>, errorWrite: Option<GoError>, i: nat)
    requires i < |Answered(table, req, write, errorWrite)|
    requires Answered(table, req, write, errorWrite)[i].resp.error.Some?
    ensures var d := Dispatched(table, req, write);
            var attempt := Answered(table, req, write, errorWrite)[i];
            && d.err.Some? && i == |d.attempts|
            && attempt.resp == Response(req.version, req.id, Nil, Some(ToResponseError(d.err.value)))
            && (attempt.accepted ==>
                 Received(ResponseMsg(attempt.resp)) ==
                 Ok(ResponseMsg(Response(req.version, req.id, Nil, Some(NormError(ToResponseError(d.err.value)))))))
  {
    if req.methodName in table {
      HandlingShape(table[req.methodName], req, write);
    }
    var attempt := Answered(table, req, write, errorWrite)[i];
    if attempt.accepted {
      SentIsAccepted(ResponseMsg(attempt.resp));
    }
  }

  /** A handler that succeeds, with a hook that fails. */
  function WithFailingHook(name: string): Handler {
    Typed(name, _ => None, _ => None, _ => Ok(Nil), Some(_ => Some(Plain("x"))))
  }

  /** Its requests are answered with the result and with an error. */
  lemma FailingHookAnswersTwice(req: Request)
    requires Sendable(RequestMsg(req))
    ensures Answered(map[req.methodName := WithFailingHook(req.methodName)], req, None, None) ==
            [Attempt(OkTo(req, Nil), true), Attempt(NotOkTo(req, ResponseError(INTERNAL, "x", Nil)), true)]
  {
    var twice := WithFailingHook(req.methodName);
    assert Prepare(twice, req) == Ok(Nil) && HookError(twice, req) == Some(Plain("x"));
    assert Sendable(ResponseMsg(OkTo(req, Nil)));
    assert Handled(twice, req, None) == Handling(Some(Plain("x")), [Attempt(OkTo(req, Nil), true)], [req.params]);
    assert ToResponseError(Plain("x")) == ResponseError(INTERNAL, "x", Nil);
    assert Sendable(ResponseMsg(NotOkTo(req, ResponseError(INTERNAL, "x", Nil))));
  }

  /** For instance, a handler that fails with an error without text. */
  lemma EmptyErrorGoesUnanswered(req: Request, write: Option<GoError>)
    requires req.version == VERSION && req.id != ""
    ensures var silent := Typed(req.methodName, _ => None, _ => None, _ => Err(Plain("")), None);
            Encodable(req.params) ==>
              Answered(map[req.methodName := silent], req, write, None) ==
              [Attempt(NotOkTo(req, ResponseError(INTERNAL, "", Nil)), false)]
  {
  }
}
