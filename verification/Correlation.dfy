/**
 Two sessions joined by a transport (session_request.go, session.go, request.go):
 callers of Session.Request, the reader of each session, one goroutine per
 incoming message, timeouts, and a responder that may answer one request twice.

 Each lock-protected region and each channel operation is one step; a step's
 `ok` says whether the transport accepts the write. Handlers answer through the
 typed handler and the session, never by building a response of their own.
 */
module Correlation {
  import opened Wrappers
  import opened Proto
  import opened Transport

  /** Which goroutine wrote a packet. Recorded for the theorems; no step reads it. */
  datatype Author = ByCall(call: nat) | ByServe(serve: nat) | ByNotify

  datatype Packet = Packet(msg: Message, author: Author)

  datatype Outcome = SendFailed | TimedOut | Answered(arrival: nat)

  datatype CallPc = Registered | Waiting | TimingOut | Returned(outcome: Outcome)

  /** One invocation of Session.Request. `put` is everything ever sent on its
      one-slot reply channel (as pointers into the inbox), `taken` how much of it
      the caller received. */
  datatype Call = Call(req: Request, pc: CallPc, put: seq<nat>, taken: nat)

  datatype ServePc = Running | Replied | Failing(err: ResponseError) | Finished

  /** One handleRequest goroutine. `src` is the packet it came from, `emitted` the
      packets of the responses it got accepted. */
  datatype Serve = Serve(req: Request, src: nat, pc: ServePc, emitted: seq<nat>, hookFailed: bool)

  /** One goroutine that is to resolve an incoming response. */
  datatype Arrival = Arrival(resp: Response, src: nat, resolved: bool)

  datatype Peer = Peer(calls: seq<Call>, pending: map<string, nat>, serves: seq<Serve>, inbox: seq<Arrival>)

  /** What one session can see and change. */
  datatype View = View(me: Peer, out: Link<Packet>, inn: Link<Packet>)

  datatype Step =
    | NewCall(req: Request)
    | SendCall(c: nat, ok: bool)
    | Timeout(c: nat)
    | Forget(c: nat)
    | Receive(c: nat)
    | Notify(e: Event, ok: bool)
    | Read(i: nat)
    | Resolve(k: nat)
    | ReplyOk(h: nat, result: Payload, ok: bool, err: ResponseError)
    | HandlerFails(h: nat, err: ResponseError)
    | HookOk(h: nat)
    | HookFails(h: nat, err: ResponseError)
    | ReplyError(h: nat, ok: bool)

  function EmptyPeer(): Peer {
    Peer([], map[], [], [])
  }

  /** sendMessage: validate, marshal, write. */
  predicate Accepts(m: Message, ok: bool) {
    Sendable(m) && ok
  }

  function Post(out: Link<Packet>, m: Message, author: Author, ok: bool): Link<Packet> {
    if Accepts(m, ok) then Move(out, Accept(Packet(m, author))) else out
  }

  predicate Enabled(v: View, st: Step) {
    var me := v.me;
    match st
    case NewCall(req) => req.version == VERSION
    case SendCall(c, _) => c < |me.calls| && me.calls[c].pc == Registered
    case Timeout(c) => c < |me.calls| && me.calls[c].pc == Waiting
    case Forget(c) => c < |me.calls| && me.calls[c].pc == TimingOut
    case Receive(c) => c < |me.calls| && me.calls[c].pc == Waiting && me.calls[c].taken < |me.calls[c].put|
    case Notify(_, _) => true
    case Read(i) => CanMove(v.inn, Deliver(i))
    case Resolve(k) => Resolvable(me, k) && HasRoom(me, k)
    case ReplyOk(h, _, _, _) => h < |me.serves| && me.serves[h].pc == Running
    case HandlerFails(h, _) => h < |me.serves| && me.serves[h].pc == Running
    case HookOk(h) => h < |me.serves| && me.serves[h].pc == Replied
    case HookFails(h, _) => h < |me.serves| && me.serves[h].pc == Replied
    case ReplyError(h, _) => h < |me.serves| && me.serves[h].pc.Failing?
  }

  predicate Resolvable(me: Peer, k: nat) {
    k < |me.inbox| && !me.inbox[k].resolved
  }

  /** The send inside the critical section does not block: the channel of the
      entry it finds, if any, has its one slot free. */
  predicate HasRoom(me: Peer, k: nat)
    requires k < |me.inbox|
  {
    var id := me.inbox[k].resp.response;
    id in me.pending && me.pending[id] < |me.calls| ==>
      |me.calls[me.pending[id]].put| <= me.calls[me.pending[id]].taken
  }

  function WithCall(me: Peer, c: nat, call: Call): Peer
    requires c < |me.calls|
  {
    me.(calls := me.calls[c := call])
  }

  function WithServe(me: Peer, h: nat, serve: Serve): Peer
    requires h < |me.serves|
  {
    me.(serves := me.serves[h := serve])
  }

  function Forgotten(pending: map<string, nat>, id: string): map<string, nat> {
    pending - {id}
  }

  /** resolvePendingRequest. */
  function ResolveIn(me: Peer, k: nat): Peer
    requires k < |me.inbox|
  {
    var id := me.inbox[k].resp.response;
    var done := me.(inbox := me.inbox[k := me.inbox[k].(resolved := true)]);
    if id in me.pending && me.pending[id] < |me.calls| then
      var c := me.pending[id];
      WithCall(done, c, me.calls[c].(put := me.calls[c].put + [k]))
      .(pending := Forgotten(me.pending, id))
    else done
  }

  /** The goroutine started for packet i, if it parses. */
  function Spawn(me: Peer, i: nat, m: Message): Peer {
    Start(me, i, Received(m))
  }

  function Start(me: Peer, i: nat, parsed: Result<Message, ParseFailure>): Peer {
    match parsed
    case Ok(RequestMsg(req)) => me.(serves := me.serves + [Serve(req, i, Running, [], false)])
    case Ok(ResponseMsg(resp)) => me.(inbox := me.inbox + [Arrival(resp, i, false)])
    case Ok(EventMsg(_)) => me
    case Err(_) => me
  }

  function Do(v: View, st: Step): View
    requires Enabled(v, st)
  {
    var me := v.me;
    match st
    case NewCall(req) =>
      v.(me := me.(calls := me.calls + [Call(req, Registered, [], 0)], pending := me.pending[req.id := |me.calls|]))
    case SendCall(c, ok) =>
      var m := RequestMsg(me.calls[c].req);
      var pc := if Accepts(m, ok) then Waiting else Returned(SendFailed);
      v.(me := WithCall(me, c, me.calls[c].(pc := pc)), out := Post(v.out, m, ByCall(c), ok))
    case Timeout(c) =>
      v.(me := WithCall(me, c, me.calls[c].(pc := TimingOut)))
    case Forget(c) =>
      v.(me := WithCall(me, c, me.calls[c].(pc := Returned(TimedOut)))
               .(pending := Forgotten(me.pending, me.calls[c].req.id)))
    case Receive(c) =>
      var call := me.calls[c];
      v.(me := WithCall(me, c, call.(pc := Returned(Answered(call.put[call.taken])), taken := call.taken + 1)))
    case Notify(e, ok) =>
      v.(out := Post(v.out, EventMsg(e), ByNotify, ok))
    case Read(i) =>
      v.(me := Spawn(me, i, v.inn.sent[i].msg), inn := Move(v.inn, Deliver(i)))
    case Resolve(k) =>
      v.(me := ResolveIn(me, k))
    case ReplyOk(h, result, ok, err) =>
      Respond(v, h, OkTo(me.serves[h].req, result), ok, Replied, Failing(err))
    case HandlerFails(h, err) =>
      v.(me := WithServe(me, h, me.serves[h].(pc := Failing(err))))
    case HookOk(h) =>
      v.(me := WithServe(me, h, me.serves[h].(pc := Finished)))
    case HookFails(h, err) =>
      v.(me := WithServe(me, h, me.serves[h].(pc := Failing(err), hookFailed := true)))
    case ReplyError(h, ok) =>
      Respond(v, h, NotOkTo(me.serves[h].req, me.serves[h].pc.err), ok, Finished, Finished)
  }

  /** SHC.Respond from handler goroutine h, which goes on at `next` or `otherwise`. */
  function Respond(v: View, h: nat, resp: Response, ok: bool, next: ServePc, otherwise: ServePc): View
    requires h < |v.me.serves|
  {
    var m := ResponseMsg(resp);
    var serve := v.me.serves[h];
    var serve' :=
      if Accepts(m, ok) then serve.(pc := next, emitted := serve.emitted + [|v.out.sent|])
      else serve.(pc := otherwise);
    v.(me := WithServe(v.me, h, serve'), out := Post(v.out, m, ByServe(h), ok))
  }

  // ------------------------------------------------------------ the two peers

  datatype System = System(a: Peer, b: Peer, ab: Link<Packet>, ba: Link<Packet>)

  datatype Label = Label(left: bool, st: Step)

  function Initial(): System {
    System(EmptyPeer(), EmptyPeer(), Link([], {}), Link([], {}))
  }

  function Side(s: System, left: bool): View {
    if left then View(s.a, s.ab, s.ba) else View(s.b, s.ba, s.ab)
  }

  function Put(v: View, other: Peer, left: bool): System {
    if left then System(v.me, other, v.out, v.inn) else System(other, v.me, v.inn, v.out)
  }

  predicate CanStep(s: System, l: Label) {
    Enabled(Side(s, l.left), l.st)
  }

  function Next(s: System, l: Label): System
    requires CanStep(s, l)
  {
    Put(Do(Side(s, l.left), l.st), Side(s, !l.left).me, l.left)
  }

  predicate Runs(s: System, run: seq<Label>)
    decreases run
  {
    run == [] || (CanStep(s, run[0]) && Runs(Next(s, run[0]), run[1..]))
  }

  function After(s: System, run: seq<Label>): System
    requires Runs(s, run)
    decreases run
  {
    if run == [] then s else After(Next(s, run[0]), run[1..])
  }

  // -------------------------------------------------------------- the invariant

  /** Every entry of the pending map belongs to the call registered under its key,
      and nothing was ever sent on that call's channel. */
  predicate PendingOk(me: Peer) {
    forall id | id in me.pending ::
      me.pending[id] < |me.calls| && me.calls[me.pending[id]].req.id == id && me.calls[me.pending[id]].put == []
  }

  predicate CallOk(me: Peer, call: Call) {
    && call.req.version == VERSION
    && |call.put| <= 1
    && (call.put != [] ==>
      && call.put[0] < |me.inbox|
      && me.inbox[call.put[0]].resolved
      && me.inbox[call.put[0]].resp.response == call.req.id)
    && (if IsAnswered(call)
        then call.put == [call.pc.outcome.arrival] && call.taken == 1
        else call.taken == 0)
  }

  predicate CallsOk(me: Peer) {
    && (forall c | 0 <= c < |me.calls| :: CallOk(me, me.calls[c]))
    && (forall c, d | 0 <= c < d < |me.calls| ::
      me.calls[c].put != [] && me.calls[d].put != [] ==> me.calls[c].put[0] != me.calls[d].put[0])
  }

  predicate WasSent(pc: CallPc) {
    pc != Registered && pc != Returned(SendFailed)
  }

  /** Every packet this side got accepted was written by the goroutine it names. */
  predicate PacketOk(me: Peer, out: Link<Packet>, i: nat)
    requires i < |out.sent|
  {
    && Sendable(out.sent[i].msg)
    && match out.sent[i].author
       case ByCall(c) =>
         c < |me.calls| && out.sent[i].msg == RequestMsg(me.calls[c].req) && WasSent(me.calls[c].pc)
       case ByServe(h) =>
         h < |me.serves| && i in me.serves[h].emitted && out.sent[i].msg.ResponseMsg?
       case ByNotify => out.sent[i].msg.EventMsg?
  }

  predicate OutOk(me: Peer, out: Link<Packet>) {
    && (forall i | 0 <= i < |out.sent| :: PacketOk(me, out, i))
    && (forall i, j | 0 <= i < j < |out.sent| ::
      out.sent[i].author.ByCall? ==> out.sent[i].author != out.sent[j].author)
  }

  predicate ServeOk(serve: Serve, h: nat, out: Link<Packet>, inn: Link<Packet>) {
    && serve.src in inn.delivered && serve.src < |inn.sent|
    && inn.sent[serve.src].msg.RequestMsg?
    && serve.req == NormRequest(inn.sent[serve.src].msg.req)
    && |serve.emitted| <= (match serve.pc case Running => 0 case Replied => 1 case Failing(_) => 1 case Finished => 2)
    && (|serve.emitted| == 2 ==> serve.hookFailed)
    && (serve.pc.Failing? && serve.emitted != [] ==> serve.hookFailed)
    && forall j | 0 <= j < |serve.emitted| :: EmittedOk(serve, h, out, serve.emitted[j])
  }

  predicate EmittedOk(serve: Serve, h: nat, out: Link<Packet>, i: nat) {
    && i < |out.sent|
    && out.sent[i].author == ByServe(h)
    && out.sent[i].msg.ResponseMsg?
    && out.sent[i].msg.resp.response == serve.req.id
    && out.sent[i].msg.resp.version == serve.req.version
  }

  predicate ServesOk(me: Peer, out: Link<Packet>, inn: Link<Packet>) {
    && (forall h | 0 <= h < |me.serves| :: ServeOk(me.serves[h], h, out, inn))
    && (forall g, h | 0 <= g < h < |me.serves| :: me.serves[g].src != me.serves[h].src)
  }

  predicate ArrivalOk(x: Arrival, inn: Link<Packet>) {
    && x.src in inn.delivered && x.src < |inn.sent|
    && inn.sent[x.src].msg.ResponseMsg?
    && x.resp == NormResponse(inn.sent[x.src].msg.resp)
  }

  predicate InboxOk(me: Peer, inn: Link<Packet>) {
    && (forall k | 0 <= k < |me.inbox| :: ArrivalOk(me.inbox[k], inn))
    && (forall j, k | 0 <= j < k < |me.inbox| :: me.inbox[j].src != me.inbox[k].src)
  }

  predicate Good(v: View) {
    && PendingOk(v.me)
    && CallsOk(v.me)
    && OutOk(v.me, v.out)
    && ServesOk(v.me, v.out, v.inn)
    && InboxOk(v.me, v.inn)
    && (forall i | 0 <= i < |v.inn.sent| :: Sendable(v.inn.sent[i].msg))
  }

  // ------------------------------------------------- every step keeps the invariant

  lemma StepKeepsPending(v: View, st: Step)
    requires PendingOk(v.me) && Enabled(v, st)
    ensures PendingOk(Do(v, st).me)
  {
    if st.Resolve? {
      ResolveKeepsPending(v, st.k);
    } else if !(st.NewCall? || st.Forget? || st.SendCall? || st.Timeout? || st.Receive?) {
      assert Do(v, st).me.calls == v.me.calls && Do(v, st).me.pending == v.me.pending;
    }
  }

  lemma ResolveKeepsPending(v: View, k: nat)
    requires PendingOk(v.me) && Enabled(v, Resolve(k))
    ensures PendingOk(ResolveIn(v.me, k))
  {
  }

  lemma ResolveKeepsCalls(v: View, k: nat)
    requires Good(v) && Enabled(v, Resolve(k))
    ensures CallsOk(Do(v, Resolve(k)).me)
  {
    var me := v.me;
    var me' := Do(v, Resolve(k)).me;
    var id := me.inbox[k].resp.response;
    if id in me.pending {
      var c := me.pending[id];
      assert me'.calls[c].put == [k];
      forall d | 0 <= d < |me'.calls| ensures CallOk(me', me'.calls[d]) {
        assert CallOk(me, me.calls[d]);
      }
      forall d, e | 0 <= d < e < |me'.calls| && me'.calls[d].put != [] && me'.calls[e].put != []
        ensures me'.calls[d].put[0] != me'.calls[e].put[0]
      {
        assert CallOk(me, me.calls[d]) && CallOk(me, me.calls[e]);
      }
    }
  }

  /** The steps of a handler goroutine. */
  predicate IsReply(st: Step) {
    st.ReplyOk? || st.HandlerFails? || st.HookOk? || st.HookFails? || st.ReplyError?
  }

  lemma StepKeepsCall(v: View, st: Step, c: nat)
    requires CallsOk(v.me) && Enabled(v, st) && !st.Resolve? && c < |Do(v, st).me.calls|
    ensures CallOk(Do(v, st).me, Do(v, st).me.calls[c])
    ensures Do(v, st).me.calls[c].put == (if c < |v.me.calls| then v.me.calls[c].put else [])
  {
    var me, me' := v.me, Do(v, st).me;
    assert me.inbox <= me'.inbox;
    if c < |me.calls| {
      assert CallOk(me, me.calls[c]);
      if IsReply(st) || st.Read? || st.Notify? {
        assert me'.calls == me.calls;
      } else {
        assert me'.inbox == me.inbox;
      }
    }
  }

  lemma StepKeepsCalls(v: View, st: Step)
    requires Good(v) && Enabled(v, st)
    ensures CallsOk(Do(v, st).me)
  {
    if st.Resolve? {
      ResolveKeepsCalls(v, st.k);
    } else {
      forall c | 0 <= c < |Do(v, st).me.calls|
        ensures CallOk(Do(v, st).me, Do(v, st).me.calls[c])
        ensures Do(v, st).me.calls[c].put == (if c < |v.me.calls| then v.me.calls[c].put else [])
      {
        StepKeepsCall(v, st, c);
      }
    }
  }

  /** What never goes back: calls keep their request and stay sent, responses stay emitted. */
  predicate Grows(me: Peer, me': Peer) {
    && |me.calls| <= |me'.calls|
    && (forall c | 0 <= c < |me.calls| ::
      && me'.calls[c].req == me.calls[c].req
      && (WasSent(me.calls[c].pc) ==> WasSent(me'.calls[c].pc))
      && (me.calls[c].pc.Returned? ==> me'.calls[c].pc == me.calls[c].pc))
    && |me.serves| <= |me'.serves|
    && (forall h | 0 <= h < |me.serves| ::
      && me'.serves[h].req == me.serves[h].req
      && me'.serves[h].src == me.serves[h].src
      && me.serves[h].emitted <= me'.serves[h].emitted)
    && |me.inbox| <= |me'.inbox|
    && (forall k | 0 <= k < |me.inbox| ::
      me'.inbox[k].resp == me.inbox[k].resp && me'.inbox[k].src == me.inbox[k].src)
  }

  lemma LinksGrow(v: View, st: Step)
    requires Enabled(v, st)
    ensures v.out.sent <= Do(v, st).out.sent
    ensures v.out.delivered == Do(v, st).out.delivered
    ensures v.inn.sent == Do(v, st).inn.sent
    ensures v.inn.delivered <= Do(v, st).inn.delivered
  {
  }

  lemma StepGrows(v: View, st: Step)
    requires Enabled(v, st)
    ensures Grows(v.me, Do(v, st).me)
    ensures v.out.sent <= Do(v, st).out.sent
    ensures v.out.delivered == Do(v, st).out.delivered
    ensures v.inn.sent == Do(v, st).inn.sent
    ensures v.inn.delivered <= Do(v, st).inn.delivered
  {
    LinksGrow(v, st);
    if IsReply(st) {
      ReplyGrows(v, st);
    } else if st.Resolve? || st.Read? {
      ArrivalGrows(v, st);
    } else {
      assert Do(v, st).me.serves == v.me.serves && Do(v, st).me.inbox == v.me.inbox;
    }
  }

  lemma ReplyGrows(v: View, st: Step)
    requires IsReply(st) && Enabled(v, st)
    ensures Grows(v.me, Do(v, st).me)
  {
    assert Do(v, st).me.calls == v.me.calls && Do(v, st).me.inbox == v.me.inbox;
  }

  lemma ArrivalGrows(v: View, st: Step)
    requires (st.Resolve? || st.Read?) && Enabled(v, st)
    ensures Grows(v.me, Do(v, st).me)
  {
  }

  lemma PacketsStay(me: Peer, me': Peer, out: Link<Packet>, out': Link<Packet>, i: nat)
    requires i < |out.sent| && PacketOk(me, out, i)
    requires Grows(me, me') && out.sent <= out'.sent
    ensures PacketOk(me', out', i)
  {
  }

  lemma StepKeepsOut(v: View, st: Step)
    requires Good(v) && Enabled(v, st)
    ensures OutOk(Do(v, st).me, Do(v, st).out)
  {
    var v' := Do(v, st);
    StepGrows(v, st);
    forall i | 0 <= i < |v'.out.sent| ensures PacketOk(v'.me, v'.out, i) {
      if i < |v.out.sent| {
        PacketsStay(v.me, v'.me, v.out, v'.out, i);
      }
    }
    forall i, j | 0 <= i < j < |v'.out.sent| && v'.out.sent[i].author.ByCall?
      ensures v'.out.sent[i].author != v'.out.sent[j].author
    {
      assert PacketOk(v.me, v.out, i);
    }
  }

  lemma EmissionsStay(serve: Serve, serve': Serve, h: nat, out: Link<Packet>, out': Link<Packet>)
    requires forall j | 0 <= j < |serve.emitted| :: EmittedOk(serve, h, out, serve.emitted[j])
    requires out.sent <= out'.sent && serve'.req == serve.req && serve'.emitted == serve.emitted
    ensures forall j | 0 <= j < |serve'.emitted| :: EmittedOk(serve', h, out', serve'.emitted[j])
  {
    forall j | 0 <= j < |serve'.emitted| ensures EmittedOk(serve', h, out', serve'.emitted[j]) {
      assert EmittedOk(serve, h, out, serve.emitted[j]);
    }
  }

  lemma RespondKeepsServe(v: View, h: nat, resp: Response, ok: bool, next: ServePc, otherwise: ServePc)
    requires h < |v.me.serves| && ServeOk(v.me.serves[h], h, v.out, v.inn)
    requires resp.response == v.me.serves[h].req.id && resp.version == v.me.serves[h].req.version
    requires v.me.serves[h].pc.Running? || v.me.serves[h].pc.Failing?
    requires v.me.serves[h].pc.Running? ==> next.Replied? && otherwise.Failing?
    requires v.me.serves[h].pc.Failing? ==> next.Finished? && otherwise.Finished?
    ensures var v' := Respond(v, h, resp, ok, next, otherwise); ServeOk(v'.me.serves[h], h, v'.out, v'.inn)
  {
    var v' := Respond(v, h, resp, ok, next, otherwise);
    var serve, serve' := v.me.serves[h], v'.me.serves[h];
    EmissionsStay(serve, serve.(pc := serve'.pc), h, v.out, v'.out);
    forall j | 0 <= j < |serve'.emitted| ensures EmittedOk(serve', h, v'.out, serve'.emitted[j]) {
      if j < |serve.emitted| {
        assert EmittedOk(serve, h, v.out, serve.emitted[j]);
      }
    }
  }

  /** A goroutine whose responses stay as they are, moved on within its allowance. */
  lemma MoveKeepsServe(serve: Serve, serve': Serve, h: nat, v: View, v': View)
    requires ServeOk(serve, h, v.out, v.inn)
    requires v.out.sent <= v'.out.sent && v.inn.sent == v'.inn.sent && v.inn.delivered <= v'.inn.delivered
    requires serve'.req == serve.req && serve'.src == serve.src && serve'.emitted == serve.emitted
    requires serve.hookFailed ==> serve'.hookFailed
    requires || serve'.pc == serve.pc
             || (serve'.pc.Finished? && !serve.pc.Running?)
             || (serve'.pc.Failing? && (serve.pc.Running? || (serve.pc.Replied? && serve'.hookFailed)))
    ensures ServeOk(serve', h, v'.out, v'.inn)
  {
    EmissionsStay(serve, serve', h, v.out, v'.out);
  }

  lemma StepKeepsServe(v: View, st: Step, h: nat)
    requires Enabled(v, st) && h < |v.me.serves| && ServeOk(v.me.serves[h], h, v.out, v.inn)
    ensures ServeOk(Do(v, st).me.serves[h], h, Do(v, st).out, Do(v, st).inn)
  {
    var v' := Do(v, st);
    if st.ReplyOk? && st.h == h {
      RespondKeepsServe(v, h, OkTo(v.me.serves[h].req, st.result), st.ok, Replied, Failing(st.err));
    } else if st.ReplyError? && st.h == h {
      RespondKeepsServe(v, h, NotOkTo(v.me.serves[h].req, v.me.serves[h].pc.err), st.ok, Finished, Finished);
    } else {
      StepGrows(v, st);
      MoveKeepsServe(v.me.serves[h], v'.me.serves[h], h, v, v');
    }
  }

  lemma StepKeepsServes(v: View, st: Step)
    requires ServesOk(v.me, v.out, v.inn) && Enabled(v, st)
    requires forall i | 0 <= i < |v.inn.sent| :: Sendable(v.inn.sent[i].msg)
    ensures ServesOk(Do(v, st).me, Do(v, st).out, Do(v, st).inn)
  {
    var v' := Do(v, st);
    forall h | 0 <= h < |v.me.serves| ensures ServeOk(v'.me.serves[h], h, v'.out, v'.inn) {
      StepKeepsServe(v, st, h);
    }
    StepGrows(v, st);
    if st.Read? {
      SpawnedIsOk(v, st.i);
    }
  }

  /** The goroutine started by reading packet i, if there is one, is the first for it. */
  lemma SpawnedIsOk(v: View, i: nat)
    requires ServesOk(v.me, v.out, v.inn) && Enabled(v, Read(i)) && Sendable(v.inn.sent[i].msg)
    ensures var v' := Do(v, Read(i));
            var h := |v.me.serves|;
            |v'.me.serves| > h ==>
              && |v'.me.serves| == h + 1 && ServeOk(v'.me.serves[h], h, v'.out, v'.inn)
              && (forall g | 0 <= g < h :: v.me.serves[g].src != v'.me.serves[h].src)
  {
    SentIsAccepted(v.inn.sent[i].msg);
    forall g | 0 <= g < |v.me.serves| ensures v.me.serves[g].src != i {
      assert ServeOk(v.me.serves[g], g, v.out, v.inn);
    }
  }

  lemma StepKeepsInbox(v: View, st: Step)
    requires Good(v) && Enabled(v, st)
    ensures InboxOk(Do(v, st).me, Do(v, st).inn)
  {
    if st.Read? {
      SentIsAccepted(v.inn.sent[st.i].msg);
    } else {
      StepGrows(v, st);
      assert |Do(v, st).me.inbox| == |v.me.inbox|;
      forall k | 0 <= k < |v.me.inbox| ensures ArrivalOk(Do(v, st).me.inbox[k], Do(v, st).inn) {
        assert ArrivalOk(v.me.inbox[k], v.inn);
      }
    }
  }

  /** What the other side and the transport do leaves this side's invariant alone. */
  lemma EnvironmentKeepsGood(v: View, v': View)
    requires Good(v)
    requires v'.me == v.me
    requires v'.out.sent == v.out.sent && v.out.delivered <= v'.out.delivered
    requires v.inn.sent <= v'.inn.sent && v'.inn.delivered == v.inn.delivered
    requires forall i | 0 <= i < |v'.inn.sent| :: Sendable(v'.inn.sent[i].msg)
    ensures Good(v')
  {
    forall i | 0 <= i < |v'.out.sent| ensures PacketOk(v'.me, v'.out, i) {
      assert PacketOk(v.me, v.out, i);
    }
    forall h | 0 <= h < |v'.me.serves| ensures ServeOk(v'.me.serves[h], h, v'.out, v'.inn) {
      assert ServeOk(v.me.serves[h], h, v.out, v.inn);
      EmissionsStay(v.me.serves[h], v'.me.serves[h], h, v.out, v'.out);
    }
  }

  lemma StepKeepsGood(v: View, st: Step)
    requires Good(v) && Enabled(v, st)
    ensures Good(Do(v, st))
  {
    StepKeepsPending(v, st);
    StepKeepsCalls(v, st);
    StepKeepsOut(v, st);
    StepKeepsServes(v, st);
    StepKeepsInbox(v, st);
    StepGrows(v, st);
  }

  /** With fresh ids the keys are the calls still open: registered, never answered,
      never timed out. */
  predicate FreshIds(me: Peer) {
    forall c, d | 0 <= c < d < |me.calls| :: me.calls[c].req.id != me.calls[d].req.id
  }

  predicate Open(call: Call) {
    call.put == [] && call.pc != Returned(TimedOut)
  }

  predicate IsExact(me: Peer, c: nat)
    requires c < |me.calls|
  {
    (me.calls[c].req.id in me.pending && me.pending[me.calls[c].req.id] == c) <==> Open(me.calls[c])
  }

  predicate Exact(me: Peer) {
    forall c | 0 <= c < |me.calls| :: IsExact(me, c)
  }

  predicate GoodSide(v: View) {
    Good(v) && (FreshIds(v.me) ==> Exact(v.me))
  }

  lemma StepKeepsExact(v: View, st: Step)
    requires GoodSide(v) && Enabled(v, st)
    ensures FreshIds(Do(v, st).me) ==> Exact(Do(v, st).me)
  {
    var me, me' := v.me, Do(v, st).me;
    if FreshIds(me') {
      StepGrows(v, st);
      forall c, d | 0 <= c < d < |me.calls| ensures me.calls[c].req.id != me.calls[d].req.id {
        assert me'.calls[c].req.id != me'.calls[d].req.id;
      }
      forall c | 0 <= c < |me'.calls| ensures IsExact(me', c) {
        if st.Resolve? {
          ResolveKeepsExact(v, st.k, c);
        } else if st.NewCall? || st.Forget? {
          RegistrationKeepsExact(v, st, c);
        } else {
          OthersKeepExact(v, st, c);
        }
      }
    }
  }

  lemma OthersKeepExact(v: View, st: Step, c: nat)
    requires CallsOk(v.me) && Exact(v.me) && Enabled(v, st) && !(st.Resolve? || st.NewCall? || st.Forget?)
    requires c < |Do(v, st).me.calls|
    ensures IsExact(Do(v, st).me, c)
  {
    var me, me' := v.me, Do(v, st).me;
    assert me'.pending == me.pending && |me'.calls| == |me.calls|;
    assert IsExact(me, c) && CallOk(me, me.calls[c]);
    assert Open(me'.calls[c]) == Open(me.calls[c]) && me'.calls[c].req == me.calls[c].req;
  }

  lemma RegistrationKeepsExact(v: View, st: Step, c: nat)
    requires Good(v) && Exact(v.me) && Enabled(v, st) && (st.NewCall? || st.Forget?)
    requires FreshIds(v.me) && FreshIds(Do(v, st).me) && c < |Do(v, st).me.calls|
    ensures IsExact(Do(v, st).me, c)
  {
    var me, me' := v.me, Do(v, st).me;
    if st.NewCall? {
      assert c < |me.calls| ==> IsExact(me, c) && me'.calls[c].req.id != me'.calls[|me.calls|].req.id;
    } else {
      assert IsExact(me, c);
      assert c < st.c ==> me.calls[c].req.id != me.calls[st.c].req.id;
      assert st.c < c ==> me.calls[st.c].req.id != me.calls[c].req.id;
    }
  }

  lemma ResolveKeepsExact(v: View, k: nat, c: nat)
    requires Good(v) && FreshIds(v.me) && Exact(v.me) && Enabled(v, Resolve(k)) && c < |v.me.calls|
    ensures IsExact(Do(v, Resolve(k)).me, c)
  {
    var me := v.me;
    assert IsExact(me, c);
    var id := me.inbox[k].resp.response;
    if id in me.pending {
      var d := me.pending[id];
      assert c < d ==> me.calls[c].req.id != me.calls[d].req.id;
      assert d < c ==> me.calls[d].req.id != me.calls[c].req.id;
    }
  }

  predicate GoodSystem(s: System) {
    GoodSide(Side(s, true)) && GoodSide(Side(s, false))
  }

  lemma NextKeepsGood(s: System, l: Label)
    requires GoodSystem(s) && CanStep(s, l)
    ensures GoodSystem(Next(s, l))
  {
    var v, other := Side(s, l.left), Side(s, !l.left);
    var v' := Do(v, l.st);
    StepKeepsGood(v, l.st);
    StepKeepsExact(v, l.st);
    StepGrows(v, l.st);
    EnvironmentKeepsGood(other, View(other.me, v'.inn, v'.out)) by {
      forall i | 0 <= i < |v'.out.sent| ensures Sendable(v'.out.sent[i].msg) {
        assert PacketOk(v'.me, v'.out, i);
      }
    }
  }

  lemma {:induction false} RunKeepsGood(s: System, run: seq<Label>)
    requires GoodSystem(s) && Runs(s, run)
    ensures GoodSystem(After(s, run))
    decreases run
  {
    if run != [] {
      NextKeepsGood(s, run[0]);
      RunKeepsGood(Next(s, run[0]), run[1..]);
    }
  }

  lemma ReachableIsGood(run: seq<Label>)
    requires Runs(Initial(), run)
    ensures GoodSystem(After(Initial(), run))
  {
    RunKeepsGood(Initial(), run);
  }

  // ------------------------------------------------------------- the main results

  /** The answer a call returned, traced to its origin: it carries the call's id;
      the peer's handler goroutine h emitted it; that goroutine was started by a
      request packet that a call of this side with that id got accepted; and with
      fresh ids that call is this one. */
  predicate TracedToHandler(s: System, left: bool, c: nat, k: nat) {
    var v := Side(s, left);
    var peer := Side(s, !left).me;
    c < |v.me.calls| && k < |v.me.inbox| &&
    var call, x := v.me.calls[c], v.me.inbox[k];
    x.src < |v.inn.sent| &&
    var answer := v.inn.sent[x.src];
    answer.msg.ResponseMsg? && x.resp == NormResponse(answer.msg.resp) && x.resp.response == call.req.id &&
    answer.author.ByServe? && answer.author.serve < |peer.serves| &&
    var serve := peer.serves[answer.author.serve];
    x.src in serve.emitted && serve.src < |v.out.sent| && serve.req.id == call.req.id &&
    var question := v.out.sent[serve.src];
    question.author.ByCall? && question.author.call < |v.me.calls| &&
    var d := question.author.call;
    serve.req == NormRequest(v.me.calls[d].req) && WasSent(v.me.calls[d].pc) &&
    (FreshIds(v.me) ==> d == c)
  }

  predicate IsAnswered(call: Call) {
    call.pc.Returned? && call.pc.outcome.Answered?
  }

  lemma ArrivalIsTraced(s: System, left: bool, c: nat, k: nat)
    requires GoodSystem(s)
    requires var me := Side(s, left).me; c < |me.calls| && me.calls[c].put == [k]
    ensures TracedToHandler(s, left, c, k)
  {
    var v, w := Side(s, left), Side(s, !left);
    assert CallOk(v.me, v.me.calls[c]);
    var x := v.me.inbox[k];
    assert ArrivalOk(x, v.inn);
    assert PacketOk(w.me, w.out, x.src);
    var h := v.inn.sent[x.src].author.serve;
    var serve := w.me.serves[h];
    assert ServeOk(serve, h, w.out, w.inn);
    var j :| 0 <= j < |serve.emitted| && serve.emitted[j] == x.src;
    assert EmittedOk(serve, h, w.out, serve.emitted[j]);
    assert PacketOk(v.me, v.out, serve.src);
  }

  /** Every answered call is answered by one arrival, traced to the peer's handler,
      and no two calls by the same arrival or the same packet. */
  predicate Correlated(s: System, left: bool) {
    var me := Side(s, left).me;
    && (forall c | 0 <= c < |me.calls| && IsAnswered(me.calls[c]) ::
      && me.calls[c].put == [me.calls[c].pc.outcome.arrival]
      && TracedToHandler(s, left, c, me.calls[c].pc.outcome.arrival))
    && (forall c, d | 0 <= c < d < |me.calls| && IsAnswered(me.calls[c]) && IsAnswered(me.calls[d]) ::
      SourceOf(me, me.calls[c].pc.outcome.arrival) != SourceOf(me, me.calls[d].pc.outcome.arrival))
  }

  function SourceOf(me: Peer, k: nat): Option<nat> {
    if k < |me.inbox| then Some(me.inbox[k].src) else None
  }

  /** End-to-end correlation, over every run of both sessions and the transport. */
  lemma EndToEndCorrelation(run: seq<Label>, left: bool)
    requires Runs(Initial(), run)
    ensures Correlated(After(Initial(), run), left)
  {
    ReachableIsGood(run);
    var s := After(Initial(), run);
    var me := Side(s, left).me;
    forall c | 0 <= c < |me.calls| && IsAnswered(me.calls[c])
      ensures me.calls[c].put == [me.calls[c].pc.outcome.arrival]
      ensures TracedToHandler(s, left, c, me.calls[c].pc.outcome.arrival)
    {
      assert CallOk(me, me.calls[c]);
      ArrivalIsTraced(s, left, c, me.calls[c].pc.outcome.arrival);
    }
    forall c, d | 0 <= c < d < |me.calls| && IsAnswered(me.calls[c]) && IsAnswered(me.calls[d])
      ensures SourceOf(me, me.calls[c].pc.outcome.arrival) != SourceOf(me, me.calls[d].pc.outcome.arrival)
    {
      assert CallOk(me, me.calls[c]) && CallOk(me, me.calls[d]);
      assert me.calls[c].put[0] != me.calls[d].put[0];
    }
  }

  /** What the peer may do with one request: it is handled by at most one goroutine,
      which gets at most one response accepted, or two after its hook failed. */
  lemma AtMostTwoResponses(run: seq<Label>, left: bool)
    requires Runs(Initial(), run)
    ensures var v := Side(After(Initial(), run), left);
            && (forall g, h | 0 <= g < h < |v.me.serves| :: v.me.serves[g].src != v.me.serves[h].src)
            && (forall h | 0 <= h < |v.me.serves| ::
                 |v.me.serves[h].emitted| <= 2 && (|v.me.serves[h].emitted| == 2 ==> v.me.serves[h].hookFailed))
            && (forall i | 0 <= i < |v.out.sent| && v.out.sent[i].msg.ResponseMsg? ::
                 && v.out.sent[i].author.ByServe?
                 && v.out.sent[i].author.serve < |v.me.serves|
                 && i in v.me.serves[v.out.sent[i].author.serve].emitted)
  {
    ReachableIsGood(run);
    var v := Side(After(Initial(), run), left);
    forall h | 0 <= h < |v.me.serves|
      ensures |v.me.serves[h].emitted| <= 2 && (|v.me.serves[h].emitted| == 2 ==> v.me.serves[h].hookFailed)
    {
      assert ServeOk(v.me.serves[h], h, v.out, v.inn);
    }
    forall i | 0 <= i < |v.out.sent| && v.out.sent[i].msg.ResponseMsg?
      ensures && v.out.sent[i].author.ByServe?
              && v.out.sent[i].author.serve < |v.me.serves|
              && i in v.me.serves[v.out.sent[i].author.serve].emitted
    {
      assert PacketOk(v.me, v.out, i);
    }
  }

  /** The pending map, whenever its mutex is free: each entry is the call registered
      under its key and that call's channel never held anything, so the send inside
      the critical section never blocks. */
  lemma ResolveNeverBlocks(run: seq<Label>, left: bool)
    requires Runs(Initial(), run)
    ensures var v := Side(After(Initial(), run), left);
            && (forall id | id in v.me.pending :: v.me.pending[id] < |v.me.calls| &&
                 v.me.calls[v.me.pending[id]].req.id == id && v.me.calls[v.me.pending[id]].put == [])
            && (forall k | Resolvable(v.me, k) :: Enabled(v, Resolve(k)))
  {
    ReachableIsGood(run);
  }

  /** With fresh ids the keys are exactly the ids of the open calls; of the calls that have
      returned, exactly those whose send failed stay among them. */
  lemma PendingKeysAreOpenCalls(run: seq<Label>, left: bool)
    requires Runs(Initial(), run)
    requires FreshIds(Side(After(Initial(), run), left).me)
    ensures var me := Side(After(Initial(), run), left).me;
            && (forall id :: id in me.pending <==>
                 exists c :: 0 <= c < |me.calls| && me.calls[c].req.id == id && Open(me.calls[c]))
            && (forall c | 0 <= c < |me.calls| && me.calls[c].pc.Returned? ::
                 me.calls[c].req.id in me.pending <==> me.calls[c].pc.outcome == SendFailed)
  {
    ReachableIsGood(run);
    var s := After(Initial(), run);
    var me := Side(s, left).me;
    forall c | 0 <= c < |me.calls| && Open(me.calls[c]) ensures me.calls[c].req.id in me.pending {
      assert IsExact(me, c);
    }
    forall id | id in me.pending
      ensures exists c :: 0 <= c < |me.calls| && me.calls[c].req.id == id && Open(me.calls[c])
    {
      assert IsExact(me, me.pending[id]);
    }
    forall c | 0 <= c < |me.calls| && me.calls[c].pc.Returned?
      ensures me.calls[c].req.id in me.pending <==> me.calls[c].pc.outcome == SendFailed
    {
      ReturnedStaysIff(s, left, c);
    }
  }

  lemma ReturnedStaysIff(s: System, left: bool, c: nat)
    requires GoodSystem(s)
    requires var me := Side(s, left).me; FreshIds(me) && c < |me.calls| && me.calls[c].pc.Returned?
    ensures var me := Side(s, left).me;
            me.calls[c].req.id in me.pending <==> me.calls[c].pc.outcome == SendFailed
  {
    var me := Side(s, left).me;
    var id := me.calls[c].req.id;
    assert CallOk(me, me.calls[c]) && IsExact(me, c);
    if me.calls[c].pc.outcome == SendFailed {
      FailedSendStaysOpen(s, left, c);
    } else if id in me.pending {
      KeyIsOwn(me, c);
    }
  }

  lemma KeyIsOwn(me: Peer, c: nat)
    requires PendingOk(me) && FreshIds(me) && c < |me.calls| && me.calls[c].req.id in me.pending
    ensures me.pending[me.calls[c].req.id] == c
  {
    assert me.calls[me.pending[me.calls[c].req.id]].req.id == me.calls[c].req.id;
  }

  lemma FailedSendStaysOpen(s: System, left: bool, c: nat)
    requires GoodSystem(s)
    requires var me := Side(s, left).me; FreshIds(me) && c < |me.calls| && me.calls[c].pc == Returned(SendFailed)
    ensures Open(Side(s, left).me.calls[c])
  {
    var me := Side(s, left).me;
    assert CallOk(me, me.calls[c]);
    if me.calls[c].put != [] {
      assert me.calls[c].put == [me.calls[c].put[0]];
      ArrivalIsTraced(s, left, c, me.calls[c].put[0]);
      assert false;
    }
  }

  /** What the map does when an id is reused: the first call's timeout takes the
      second call's entry with it. */
  lemma ReusedIdLosesEntry() returns (run: seq<Label>)
    ensures Runs(Initial(), run)
    ensures var me := After(Initial(), run).a;
            && |me.calls| == 2 && Open(me.calls[1]) && me.calls[0].req.id == me.calls[1].req.id
            && me.calls[1].req.id !in me.pending
  {
    var req := Request(VERSION, "x", "ping", Nil);
    var open, send := Label(true, NewCall(req)), Label(true, SendCall(0, true));
    var time, forget := Label(true, Timeout(0)), Label(true, Forget(0));
    assert Sendable(RequestMsg(req));
    var s1 := Next(Initial(), open);
    var s2 := Next(s1, open);
    assert s2.a.calls == [Call(req, Registered, [], 0), Call(req, Registered, [], 0)];
    var s3 := Next(s2, send);
    assert s3.a.calls == [Call(req, Waiting, [], 0), Call(req, Registered, [], 0)];
    var s4 := Next(s3, time);
    assert s4.a.calls == [Call(req, TimingOut, [], 0), Call(req, Registered, [], 0)];
    var s5 := Next(s4, forget);
    assert s5.a.calls == [Call(req, Returned(TimedOut), [], 0), Call(req, Registered, [], 0)];
    assert "x" !in s5.a.pending;
    RunCons(s4, forget, []);
    RunCons(s3, time, [forget]);
    RunCons(s2, send, [time] + [forget]);
    RunCons(s1, open, [send] + ([time] + [forget]));
    RunCons(Initial(), open, [open] + ([send] + ([time] + [forget])));
    run := [open] + ([open] + ([send] + ([time] + [forget])));
    assert [forget] + [] == [forget];
  }

  /** Two responses to one request do happen: the result, and after a failed hook an error.
      With one goroutine per message the error may be resolved first, and the call fails
      although its request was handled and answered; it still completes only once. */
  lemma ErrorMayOvertakeResult() returns (run: seq<Label>)
    ensures Runs(Initial(), run)
    ensures var s := After(Initial(), run);
            && |s.b.serves| == 1 && s.b.serves[0].emitted == [0, 1] && s.b.serves[0].hookFailed
            && |s.ba.sent| == 2 && |s.a.inbox| == 2 && s.a.inbox[0].resp.error == None && s.a.inbox[1].resp.error.Some?
            && |s.a.calls| == 1 && s.a.calls[0].pc == Returned(Answered(1)) && !s.a.inbox[0].resolved
  {
    var req := Request(VERSION, "x", "ping", Nil);
    var err := ResponseError(INTERNAL, "hook", Nil);
    var question := Packet(RequestMsg(req), ByCall(0));
    var result, failure := OkTo(req, Nil), NotOkTo(req, err);
    var answers := [Packet(ResponseMsg(result), ByServe(0)), Packet(ResponseMsg(failure), ByServe(0))];
    SentIsAccepted(RequestMsg(req));
    SentIsAccepted(ResponseMsg(result));
    SentIsAccepted(ResponseMsg(failure));
    var waiting := Peer([Call(req, Waiting, [], 0)], map["x" := 0], [], []);
    var served := Peer([], map[], [Serve(req, 0, Finished, [0, 1], true)], []);
    var s1 := System(waiting, EmptyPeer(), Link([question], {}), Link([], {}));
    var s2 := System(waiting, served, Link([question], {0}), Link(answers, {}));
    var r1 := AskingRun(req);
    var r2 := AnsweringTwice(s1, req, err);
    var r3 := ErrorFirst(s2, req, err);
    RunsJoin(Initial(), r1, r2);
    RunsJoin(Initial(), r1 + r2, r3);
    run := r1 + r2 + r3;
  }

  lemma AskingRun(req: Request) returns (run: seq<Label>)
    requires Sendable(RequestMsg(req))
    ensures Runs(Initial(), run)
    ensures After(Initial(), run) ==
            System(Peer([Call(req, Waiting, [], 0)], map[req.id := 0], [], []), EmptyPeer(),
                   Link([Packet(RequestMsg(req), ByCall(0))], {}), Link([], {}))
  {
    var l1, l2 := Label(true, NewCall(req)), Label(true, SendCall(0, true));
    var s1 := Next(Initial(), l1);
    assert s1.a.calls == [Call(req, Registered, [], 0)];
    var s2 := Next(s1, l2);
    assert s2.a.calls == [Call(req, Waiting, [], 0)];
    RunCons(s1, l2, []);
    RunCons(Initial(), l1, [l2] + []);
    run := [l1] + ([l2] + []);
  }

  lemma AnsweringTwice(s: System, req: Request, err: ResponseError) returns (run: seq<Label>)
    requires s.b == EmptyPeer() && s.ab == Link([Packet(RequestMsg(req), ByCall(0))], {}) && s.ba == Link([], {})
    requires Received(RequestMsg(req)) == Ok(RequestMsg(req))
    requires Sendable(ResponseMsg(OkTo(req, Nil))) && Sendable(ResponseMsg(NotOkTo(req, err)))
    ensures Runs(s, run)
    ensures After(s, run) ==
            System(s.a, Peer([], map[], [Serve(req, 0, Finished, [0, 1], true)], []),
                   Link(s.ab.sent, {0}),
                   Link([Packet(ResponseMsg(OkTo(req, Nil)), ByServe(0)),
                         Packet(ResponseMsg(NotOkTo(req, err)), ByServe(0))], {}))
  {
    var first := ResultGoesOut(s, req, err);
    var second := ErrorGoesOut(After(s, first), req, err);
    RunsJoin(s, first, second);
    run := first + second;
  }

  lemma ResultGoesOut(s: System, req: Request, err: ResponseError) returns (run: seq<Label>)
    requires s.b == EmptyPeer() && s.ab == Link([Packet(RequestMsg(req), ByCall(0))], {}) && s.ba == Link([], {})
    requires Received(RequestMsg(req)) == Ok(RequestMsg(req))
    requires Sendable(ResponseMsg(OkTo(req, Nil)))
    ensures Runs(s, run)
    ensures After(s, run) ==
            System(s.a, Peer([], map[], [Serve(req, 0, Replied, [0], false)], []),
                   Link(s.ab.sent, {0}), Link([Packet(ResponseMsg(OkTo(req, Nil)), ByServe(0))], {}))
  {
    var l1, l2 := Label(false, Read(0)), Label(false, ReplyOk(0, Nil, true, err));
    var s1 := Next(s, l1);
    assert s1.b.serves == [Serve(req, 0, Running, [], false)];
    assert s1 == System(s.a, Peer([], map[], [Serve(req, 0, Running, [], false)], []), Link(s.ab.sent, {0}), s.ba);
    var s2 := Next(s1, l2);
    assert s2.b.serves[0].emitted == [0];
    assert s2.b.serves == [Serve(req, 0, Replied, [0], false)];
    RunCons(s1, l2, []);
    RunCons(s, l1, [l2] + []);
    run := [l1] + ([l2] + []);
  }

  lemma ErrorGoesOut(s: System, req: Request, err: ResponseError) returns (run: seq<Label>)
    requires s.b == Peer([], map[], [Serve(req, 0, Replied, [0], false)], []) && |s.ba.sent| == 1
    requires Sendable(ResponseMsg(NotOkTo(req, err)))
    ensures Runs(s, run)
    ensures After(s, run) ==
            System(s.a, Peer([], map[], [Serve(req, 0, Finished, [0, 1], true)], []), s.ab,
                   Link(s.ba.sent + [Packet(ResponseMsg(NotOkTo(req, err)), ByServe(0))], s.ba.delivered))
  {
    var l1, l2 := Label(false, HookFails(0, err)), Label(false, ReplyError(0, true));
    var s1 := Next(s, l1);
    assert s1.b.serves == [Serve(req, 0, Failing(err), [0], true)];
    var s2 := Next(s1, l2);
    assert s2.b.serves[0].emitted == [0, 1];
    assert s2.b.serves == [Serve(req, 0, Finished, [0, 1], true)];
    RunCons(s1, l2, []);
    RunCons(s, l1, [l2] + []);
    run := [l1] + ([l2] + []);
  }

  lemma ErrorFirst(s: System, req: Request, err: ResponseError) returns (run: seq<Label>)
    requires s.a == Peer([Call(req, Waiting, [], 0)], map[req.id := 0], [], []) && s.ba.delivered == {}
    requires |s.ba.sent| == 2
    requires s.ba.sent[0].msg == ResponseMsg(OkTo(req, Nil)) && s.ba.sent[1].msg == ResponseMsg(NotOkTo(req, err))
    requires Received(s.ba.sent[0].msg) == Ok(s.ba.sent[0].msg) && Received(s.ba.sent[1].msg) == Ok(s.ba.sent[1].msg)
    ensures Runs(s, run)
    ensures var s' := After(s, run);
            && s'.b == s.b && s'.ba.sent == s.ba.sent
            && s'.a.calls == [Call(req, Returned(Answered(1)), [1], 1)]
            && s'.a.inbox == [Arrival(OkTo(req, Nil), 0, false), Arrival(NotOkTo(req, err), 1, true)]
  {
    var read := BothArrive(s, OkTo(req, Nil), NotOkTo(req, err));
    var rest := SecondResolved(After(s, read), req, OkTo(req, Nil), NotOkTo(req, err));
    RunsJoin(s, read, rest);
    run := read + rest;
  }

  lemma BothArrive(s: System, one: Response, two: Response) returns (run: seq<Label>)
    requires s.a.inbox == [] && s.ba.delivered == {} && |s.ba.sent| == 2
    requires Received(s.ba.sent[0].msg) == Ok(ResponseMsg(one)) && Received(s.ba.sent[1].msg) == Ok(ResponseMsg(two))
    ensures Runs(s, run)
    ensures var s' := After(s, run);
            && s'.b == s.b && s'.ba.sent == s.ba.sent
            && s'.a == s.a.(inbox := [Arrival(one, 0, false), Arrival(two, 1, false)])
  {
    var l1, l2 := Label(true, Read(0)), Label(true, Read(1));
    var s1 := Next(s, l1);
    assert s1.a == s.a.(inbox := [Arrival(one, 0, false)]);
    var s2 := Next(s1, l2);
    assert s2.a == s.a.(inbox := [Arrival(one, 0, false), Arrival(two, 1, false)]);
    RunCons(s1, l2, []);
    RunCons(s, l1, [l2] + []);
    run := [l1] + ([l2] + []);
  }

  lemma SecondResolved(s: System, req: Request, one: Response, two: Response) returns (run: seq<Label>)
    requires two.response == req.id
    requires s.a == Peer([Call(req, Waiting, [], 0)], map[req.id := 0], [],
                         [Arrival(one, 0, false), Arrival(two, 1, false)])
    ensures Runs(s, run)
    ensures var s' := After(s, run);
            && s'.b == s.b && s'.ba.sent == s.ba.sent
            && s'.a.calls == [Call(req, Returned(Answered(1)), [1], 1)]
            && s'.a.inbox == [Arrival(one, 0, false), Arrival(two, 1, true)]
  {
    var l1, l2 := Label(true, Resolve(1)), Label(true, Receive(0));
    var s1 := Next(s, l1);
    assert s1.a.calls[0].put == [1];
    assert s1.a.calls == [Call(req, Waiting, [1], 0)];
    assert s1.a.inbox == [Arrival(one, 0, false), Arrival(two, 1, true)];
    var s2 := Next(s1, l2);
    assert s2.a.calls == [Call(req, Returned(Answered(1)), [1], 1)];
    RunCons(s1, l2, []);
    RunCons(s, l1, [l2] + []);
    run := [l1] + ([l2] + []);
  }

  lemma {:induction false} RunsJoin(s: System, run: seq<Label>, more: seq<Label>)
    requires Runs(s, run) && Runs(After(s, run), more)
    ensures Runs(s, run + more) && After(s, run + more) == After(After(s, run), more)
    decreases run
  {
    if run == [] {
      assert run + more == more;
    } else {
      RunsJoin(Next(s, run[0]), run[1..], more);
      assert (run + more)[1..] == run[1..] + more;
    }
  }

  lemma RunCons(s: System, l: Label, run: seq<Label>)
    requires CanStep(s, l) && Runs(Next(s, l), run)
    ensures Runs(s, [l] + run) && After(s, [l] + run) == After(Next(s, l), run)
  {
    assert ([l] + run)[1..] == run;
  }

  /** A call returns once: whatever happens later, its outcome stands, and so do the
      arrivals and emissions behind it. */
  lemma {:induction false} OutcomeIsFinal(s: System, run: seq<Label>, left: bool)
    requires Runs(s, run)
    ensures Grows(Side(s, left).me, Side(After(s, run), left).me)
    decreases run
  {
    if run != [] {
      var s' := Next(s, run[0]);
      StepGrows(Side(s, run[0].left), run[0].st);
      OutcomeIsFinal(s', run[1..], left);
      GrowsIsTransitive(Side(s, left).me, Side(s', left).me, Side(After(s, run), left).me);
    }
  }

  lemma GrowsIsTransitive(x: Peer, y: Peer, z: Peer)
    requires Grows(x, y) && Grows(y, z)
    ensures Grows(x, z)
  {
  }

  /** Of the transport the sessions use no more than the contract of module Transport:
      every step moves each direction by one step of it. */
  function OutMove(v: View, st: Step): LinkStep<Packet>
    requires Enabled(v, st)
  {
    var out' := Do(v, st).out;
    if out' == v.out then Refuse else Accept(out'.sent[|out'.sent| - 1])
  }

  lemma StepsAreLinkMoves(v: View, st: Step)
    requires Enabled(v, st)
    ensures CanMove(v.out, OutMove(v, st)) && Do(v, st).out == Move(v.out, OutMove(v, st))
    ensures var inMove := if st.Read? then Deliver(st.i) else Refuse;
            CanMove(v.inn, inMove) && Do(v, st).inn == Move(v.inn, inMove)
  {
  }
}
