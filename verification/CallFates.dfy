/**
 What a run of two sessions did, and what became of it: every call, packet, event and
 arrival of module Correlation is accounted for by the steps of the run.
 */
module CallFates {
  import opened Wrappers
  import opened Proto
  import opened Transport
  import opened Correlation

  /** That side took the step somewhere in the run. */
  predicate Did(run: seq<Label>, left: bool, st: Step) {
    Label(left, st) in run
  }

  lemma {:induction false} LastStep(s: System, run: seq<Label>, l: Label)
    requires Runs(s, run + [l])
    ensures Runs(s, run) && CanStep(After(s, run), l) && After(s, run + [l]) == Next(After(s, run), l)
    decreases run
  {
    if run == [] {
      assert run + [l] == [l] && [l][1..] == [];
    } else {
      assert (run + [l])[0] == run[0] && (run + [l])[1..] == run[1..] + [l];
      LastStep(Next(s, run[0]), run[1..], l);
    }
  }

  lemma DidMore(run: seq<Label>, l: Label)
    ensures forall left, st :: Did(run + [l], left, st) <==> Did(run, left, st) || l == Label(left, st)
  {
  }

  // ------------------------------------------------------------ calls

  /** The requests one side registered, in order. */
  function Requests(run: seq<Label>, left: bool): seq<Request> {
    if run == [] then []
    else
      var l := run[|run| - 1];
      Requests(run[..|run| - 1], left) + (if l.left == left && l.st.NewCall? then [l.st.req] else [])
  }

  /** How call c stands, by what its side did. */
  predicate FateOk(call: Call, c: nat, run: seq<Label>, left: bool) {
    var accepted := Did(run, left, SendCall(c, true)) && Sendable(RequestMsg(call.req));
    var tried := Did(run, left, SendCall(c, true)) || Did(run, left, SendCall(c, false));
    && (call.pc == CallPc.Registered <==> !tried)
    && (WasSent(call.pc) <==> accepted)
    && (call.pc == Returned(SendFailed) <==> tried && !accepted)
    && (call.pc == TimingOut || call.pc == Returned(TimedOut) <==> Did(run, left, Timeout(c)))
    && (call.pc == Returned(TimedOut) <==> Did(run, left, Forget(c)))
    && (IsAnswered(call) <==> Did(run, left, Receive(c)))
  }

  ghost predicate FatesOk(me: Peer, run: seq<Label>, left: bool) {
    && |me.calls| == |Requests(run, left)|
    && (forall c | 0 <= c < |me.calls| ::
      me.calls[c].req == Requests(run, left)[c] && FateOk(me.calls[c], c, run, left))
    && (forall c | c >= |me.calls| :: Untouched(run, left, c))
  }

  /** No step of the run concerns call c. */
  predicate Untouched(run: seq<Label>, left: bool, c: nat) {
    && !Did(run, left, SendCall(c, true)) && !Did(run, left, SendCall(c, false))
    && !Did(run, left, Timeout(c)) && !Did(run, left, Forget(c)) && !Did(run, left, Receive(c))
  }

  lemma StepKeepsFate(v: View, st: Step, c: nat, run: seq<Label>, left: bool)
    requires Enabled(v, st) && c < |v.me.calls| && FateOk(v.me.calls[c], c, run, left)
    ensures FateOk(Do(v, st).me.calls[c], c, run + [Label(left, st)], left)
  {
    var call, call' := v.me.calls[c], Do(v, st).me.calls[c];
    DidMore(run, Label(left, st));
    assert call'.req == call.req;
    if st == SendCall(c, true) || st == SendCall(c, false) || st == Timeout(c) || st == Forget(c) || st == Receive(c) {
    } else {
      assert call'.pc == call.pc;
    }
  }

  lemma NewCallIsRegistered(call: Call, c: nat, run: seq<Label>, left: bool)
    requires call.pc == CallPc.Registered && Untouched(run, left, c)
    ensures FateOk(call, c, run, left)
  {
  }

  /** A step of the other side, as far as the calls of this one go. */
  lemma OthersKeepFates(me: Peer, run: seq<Label>, l: Label, left: bool)
    requires FatesOk(me, run, left) && l.left != left
    ensures FatesOk(me, run + [l], left)
  {
    DidMore(run, l);
    assert (run + [l])[..|run|] == run;
    forall c | 0 <= c < |me.calls| ensures FateOk(me.calls[c], c, run + [l], left) {
      assert FateOk(me.calls[c], c, run, left);
    }
    forall c | c >= |me.calls| ensures Untouched(run + [l], left, c) {
      assert Untouched(run, left, c);
    }
  }

  lemma StepKeepsFates(v: View, st: Step, run: seq<Label>, left: bool)
    requires Enabled(v, st) && FatesOk(v.me, run, left)
    ensures FatesOk(Do(v, st).me, run + [Label(left, st)], left)
  {
    var me, me', run' := v.me, Do(v, st).me, run + [Label(left, st)];
    DidMore(run, Label(left, st));
    assert run'[..|run|] == run;
    assert |me'.calls| == |me.calls| + (if st.NewCall? then 1 else 0);
    forall c | c >= |me.calls| ensures Untouched(run', left, c) {
      assert Untouched(run, left, c);
    }
    forall c | 0 <= c < |me'.calls|
      ensures me'.calls[c].req == Requests(run', left)[c] && FateOk(me'.calls[c], c, run', left)
    {
      if c < |me.calls| {
        StepKeepsFate(v, st, c, run, left);
        assert me'.calls[c].req == me.calls[c].req;
      } else {
        NewCallIsRegistered(me'.calls[c], c, run', left);
      }
    }
  }

  lemma {:induction false} FatesHold(run: seq<Label>, left: bool)
    requires Runs(Initial(), run)
    ensures FatesOk(Side(After(Initial(), run), left).me, run, left)
    decreases |run|
  {
    if run != [] {
      var past, l := run[..|run| - 1], run[|run| - 1];
      assert run == past + [l];
      LastStep(Initial(), past, l);
      FatesHold(past, left);
      if l.left == left {
        StepKeepsFates(Side(After(Initial(), past), left), l.st, past, left);
      } else {
        OthersKeepFates(Side(After(Initial(), past), left).me, past, l, left);
      }
    }
  }

  /** A call that waits may time out at any moment, even with its response already there, and
      its entry is gone then; with a response there it may as well return that. */
  lemma WaitingMayReturn(s: System, left: bool, c: nat) returns (late: seq<Label>, answered: seq<Label>)
    requires c < |Side(s, left).me.calls| && Side(s, left).me.calls[c].pc == Waiting
    ensures Runs(s, late)
    ensures var call, me' := Side(s, left).me.calls[c], Side(After(s, late), left).me;
            c < |me'.calls| && me'.calls[c] == call.(pc := Returned(TimedOut)) && call.req.id !in me'.pending
    ensures var call := Side(s, left).me.calls[c];
            call.taken < |call.put| ==>
              && Runs(s, answered)
              && var me' := Side(After(s, answered), left).me;
              c < |me'.calls| && me'.calls[c].pc == Returned(Answered(call.put[call.taken]))
  {
    var s1 := Next(s, Label(left, Timeout(c)));
    var s2 := Next(s1, Label(left, Forget(c)));
    assert Runs(s2, []) && After(s2, []) == s2;
    late := [Label(left, Timeout(c)), Label(left, Forget(c))];
    assert late[1..] == [Label(left, Forget(c))] && late[1..][1..] == [];
    answered := [Label(left, Receive(c))];
    assert answered[1..] == [];
  }

  // ------------------------------------------------------------ packets

  predicate HasPacket(out: Link<Packet>, c: nat) {
    exists i :: 0 <= i < |out.sent| && out.sent[i].author == ByCall(c)
  }

  predicate CallsPosted(v: View) {
    forall c | 0 <= c < |v.me.calls| && WasSent(v.me.calls[c].pc) :: HasPacket(v.out, c)
  }

  lemma StepKeepsPosted(v: View, st: Step)
    requires Enabled(v, st) && CallsPosted(v)
    ensures CallsPosted(Do(v, st))
  {
    var v' := Do(v, st);
    LinksGrow(v, st);
    forall c | 0 <= c < |v'.me.calls| && WasSent(v'.me.calls[c].pc) ensures HasPacket(v'.out, c) {
      if c < |v.me.calls| && WasSent(v.me.calls[c].pc) {
        var i :| 0 <= i < |v.out.sent| && v.out.sent[i].author == ByCall(c);
        assert v'.out.sent[i].author == ByCall(c);
      } else {
        assert st == SendCall(c, true);
        assert v'.out.sent[|v.out.sent|].author == ByCall(c);
      }
    }
  }

  lemma {:induction false} PostedHolds(run: seq<Label>, left: bool)
    requires Runs(Initial(), run)
    ensures CallsPosted(Side(After(Initial(), run), left))
    decreases |run|
  {
    if run != [] {
      var past, l := run[..|run| - 1], run[|run| - 1];
      assert run == past + [l];
      LastStep(Initial(), past, l);
      PostedHolds(past, left);
      if l.left == left {
        StepKeepsPosted(Side(After(Initial(), past), left), l.st);
      }
    }
  }

  /** Call c has exactly one packet of its own on the link. */
  predicate OnePacket(out: Link<Packet>, c: nat) {
    HasPacket(out, c) &&
    forall i, j | 0 <= i < j < |out.sent| :: !(out.sent[i].author == ByCall(c) && out.sent[j].author == ByCall(c))
  }

  /** A call waits, times out or is answered exactly if one packet of its own was accepted; a
      call whose write was refused has returned with that, and one whose was taken never does. */
  lemma SentIffPosted(run: seq<Label>, left: bool, c: nat)
    requires Runs(Initial(), run) && c < |Side(After(Initial(), run), left).me.calls|
    ensures var v := Side(After(Initial(), run), left);
            var call := v.me.calls[c];
            && (WasSent(call.pc) <==> HasPacket(v.out, c)) && (HasPacket(v.out, c) ==> OnePacket(v.out, c))
            && (call.pc == Returned(SendFailed) <==> call.pc != CallPc.Registered && !HasPacket(v.out, c))
  {
    ReachableIsGood(run);
    PostedHolds(run, left);
    var v := Side(After(Initial(), run), left);
    forall i | 0 <= i < |v.out.sent| && v.out.sent[i].author == ByCall(c) ensures WasSent(v.me.calls[c].pc) {
      assert PacketOk(v.me, v.out, i);
    }
  }

  /** What became of each call, by the steps of the run: which requests were registered, and
      of each whether it was sent, refused, timed out or answered. */
  lemma CallsEndAsRun(run: seq<Label>, left: bool)
    requires Runs(Initial(), run)
    ensures var me := Side(After(Initial(), run), left).me;
            |me.calls| == |Requests(run, left)| &&
            forall c | 0 <= c < |me.calls| ::
              me.calls[c].req == Requests(run, left)[c] && FateOk(me.calls[c], c, run, left)
  {
    FatesHold(run, left);
  }

  // ------------------------------------------------------------ responses

  /** Where an error a goroutine answers with comes from: its handler, its hook, or the reply
      that failed. */
  ghost predicate Explained(h: nat, e: ResponseError, run: seq<Label>, left: bool) {
    || Did(run, left, HandlerFails(h, e))
    || Did(run, left, HookFails(h, e))
    || exists result, ok :: Did(run, left, ReplyOk(h, result, ok, e))
  }

  /** The response is the result its goroutine gave, or the error it failed with. */
  ghost predicate GivenBy(p: Packet, run: seq<Label>, left: bool) {
    p.author.ByServe? && p.msg.ResponseMsg? ==>
      var h, resp := p.author.serve, p.msg.resp;
      match resp.error
      case None => exists err :: Did(run, left, ReplyOk(h, resp.result, true, err))
      case Some(e) => resp.result == Nil && Did(run, left, ReplyError(h, true)) && Explained(h, e, run, left)
  }

  ghost predicate ResponsesOk(v: View, run: seq<Label>, left: bool) {
    && (forall h | 0 <= h < |v.me.serves| && v.me.serves[h].pc.Failing? ::
         Explained(h, v.me.serves[h].pc.err, run, left))
    && (forall i | 0 <= i < |v.out.sent| :: GivenBy(v.out.sent[i], run, left))
  }

  lemma ExplainedStays(h: nat, e: ResponseError, run: seq<Label>, l: Label, left: bool)
    requires Explained(h, e, run, left)
    ensures Explained(h, e, run + [l], left)
  {
    DidMore(run, l);
    if !Did(run, left, HandlerFails(h, e)) && !Did(run, left, HookFails(h, e)) {
      var result, ok :| Did(run, left, ReplyOk(h, result, ok, e));
      assert Did(run + [l], left, ReplyOk(h, result, ok, e));
    }
  }

  lemma GivenStays(p: Packet, run: seq<Label>, l: Label, left: bool)
    requires GivenBy(p, run, left)
    ensures GivenBy(p, run + [l], left)
  {
    if p.author.ByServe? && p.msg.ResponseMsg? {
      DidMore(run, l);
      match p.msg.resp.error
      case None =>
        var err :| Did(run, left, ReplyOk(p.author.serve, p.msg.resp.result, true, err));
        assert Did(run + [l], left, ReplyOk(p.author.serve, p.msg.resp.result, true, err));
      case Some(e) => ExplainedStays(p.author.serve, e, run, l, left);
    }
  }

  lemma StepExplains(v: View, st: Step, h: nat, run: seq<Label>, left: bool)
    requires Enabled(v, st) && h < |Do(v, st).me.serves| && Do(v, st).me.serves[h].pc.Failing?
    requires h < |v.me.serves| && v.me.serves[h].pc.Failing? ==> Explained(h, v.me.serves[h].pc.err, run, left)
    ensures Explained(h, Do(v, st).me.serves[h].pc.err, run + [Label(left, st)], left)
  {
    var e := Do(v, st).me.serves[h].pc.err;
    DidMore(run, Label(left, st));
    if h < |v.me.serves| && v.me.serves[h].pc == Failing(e) {
      ExplainedStays(h, e, run, Label(left, st), left);
    } else {
      assert Did(run + [Label(left, st)], left, st);
      assert st == HandlerFails(h, e) || st == HookFails(h, e) || (st.ReplyOk? && st.h == h && st.err == e);
    }
  }

  lemma StepGives(v: View, st: Step, run: seq<Label>, left: bool)
    requires Enabled(v, st) && ResponsesOk(v, run, left) && |Do(v, st).out.sent| > |v.out.sent|
    ensures GivenBy(Do(v, st).out.sent[|v.out.sent|], run + [Label(left, st)], left)
  {
    DidMore(run, Label(left, st));
    assert Did(run + [Label(left, st)], left, st);
    if st.ReplyError? {
      ExplainedStays(st.h, v.me.serves[st.h].pc.err, run, Label(left, st), left);
    }
  }

  lemma StepKeepsResponses(v: View, st: Step, run: seq<Label>, left: bool)
    requires Enabled(v, st) && ResponsesOk(v, run, left)
    ensures ResponsesOk(Do(v, st), run + [Label(left, st)], left)
  {
    var v' := Do(v, st);
    LinksGrow(v, st);
    forall h | 0 <= h < |v'.me.serves| && v'.me.serves[h].pc.Failing?
      ensures Explained(h, v'.me.serves[h].pc.err, run + [Label(left, st)], left)
    {
      StepExplains(v, st, h, run, left);
    }
    forall i | 0 <= i < |v'.out.sent| ensures GivenBy(v'.out.sent[i], run + [Label(left, st)], left) {
      if i < |v.out.sent| {
        GivenStays(v.out.sent[i], run, Label(left, st), left);
      } else {
        StepGives(v, st, run, left);
      }
    }
  }

  lemma OthersKeepResponses(
    me: Peer, out: Link<Packet>, out': Link<Packet>, inn: Link<Packet>, run: seq<Label>, l: Label, left: bool)
    requires ResponsesOk(View(me, out, inn), run, left) && out'.sent == out.sent
    ensures ResponsesOk(View(me, out', inn), run + [l], left)
  {
    forall h | 0 <= h < |me.serves| && me.serves[h].pc.Failing?
      ensures Explained(h, me.serves[h].pc.err, run + [l], left)
    {
      ExplainedStays(h, me.serves[h].pc.err, run, l, left);
    }
    forall i | 0 <= i < |out.sent| ensures GivenBy(out.sent[i], run + [l], left) {
      GivenStays(out.sent[i], run, l, left);
    }
  }

  /** In every run, a response on the link is the result its goroutine gave to a reply, or, with
      no result, the error its handler, its hook or its failed reply gave. */
  lemma {:induction false} ResponsesAreGiven(run: seq<Label>, left: bool)
    requires Runs(Initial(), run)
    ensures ResponsesOk(Side(After(Initial(), run), left), run, left)
    decreases |run|
  {
    if run != [] {
      var past, l := run[..|run| - 1], run[|run| - 1];
      assert run == past + [l];
      LastStep(Initial(), past, l);
      ResponsesAreGiven(past, left);
      var v, v' := Side(After(Initial(), past), left), Side(After(Initial(), run), left);
      if l.left == left {
        StepKeepsResponses(v, l.st, past, left);
      } else {
        LinksGrow(Side(After(Initial(), past), l.left), l.st);
        OthersKeepResponses(v.me, v.out, v'.out, v'.inn, past, l, left);
      }
    }
  }

  /** What the caller reads is, normalised, what the peer's goroutine gave: the result of its
      reply, or the error it failed with and no result. */
  ghost predicate ReadsGiven(resp: Response, h: nat, run: seq<Label>, peer: bool) {
    match resp.error
    case None =>
      exists result, err :: Did(run, peer, ReplyOk(h, result, true, err)) && resp.result == NormPayload(result)
    case Some(e) =>
      resp.result == Nil && exists given :: Explained(h, given, run, peer) && e == NormError(given)
  }

  lemma NormalisedIsRead(p: Packet, run: seq<Label>, peer: bool)
    requires p.author.ByServe? && p.msg.ResponseMsg? && GivenBy(p, run, peer)
    ensures ReadsGiven(NormResponse(p.msg.resp), p.author.serve, run, peer)
  {
    var h, resp := p.author.serve, p.msg.resp;
    match resp.error
    case None =>
      var err :| Did(run, peer, ReplyOk(h, resp.result, true, err));
      assert NormResponse(resp).result == NormPayload(resp.result);
    case Some(e) =>
      assert Explained(h, e, run, peer) && NormResponse(resp).error == Some(NormError(e));
  }

  /** End to end, in every run: an answered call has read what a goroutine of the peer gave,
      and that goroutine served a request that was sent from here with the call's id. */
  lemma AnswerIsGiven(run: seq<Label>, left: bool, c: nat) returns (h: nat)
    requires Runs(Initial(), run)
    requires c < |Side(After(Initial(), run), left).me.calls|
    requires IsAnswered(Side(After(Initial(), run), left).me.calls[c])
    ensures var v, w := Side(After(Initial(), run), left), Side(After(Initial(), run), !left);
            var k := v.me.calls[c].pc.outcome.arrival;
            && k < |v.me.inbox| && h < |w.me.serves| && w.me.serves[h].src < |v.out.sent|
            && w.me.serves[h].req.id == v.me.calls[c].req.id
            && v.out.sent[w.me.serves[h].src].msg.RequestMsg?
            && w.me.serves[h].req == NormRequest(v.out.sent[w.me.serves[h].src].msg.req)
            && ReadsGiven(v.me.inbox[k].resp, h, run, !left)
  {
    ReachableIsGood(run);
    ResponsesAreGiven(run, !left);
    h := AnswerHasAuthor(After(Initial(), run), left, c);
    var v, w := Side(After(Initial(), run), left), Side(After(Initial(), run), !left);
    var x := v.me.inbox[v.me.calls[c].pc.outcome.arrival];
    NormalisedIsRead(w.out.sent[x.src], run, !left);
  }

  lemma AnswerHasAuthor(s: System, left: bool, c: nat) returns (h: nat)
    requires GoodSystem(s) && c < |Side(s, left).me.calls| && IsAnswered(Side(s, left).me.calls[c])
    ensures var v, w := Side(s, left), Side(s, !left);
            var k := v.me.calls[c].pc.outcome.arrival;
            && k < |v.me.inbox| && h < |w.me.serves| && w.me.serves[h].src < |v.out.sent|
            && w.me.serves[h].req.id == v.me.calls[c].req.id
            && v.out.sent[w.me.serves[h].src].msg.RequestMsg?
            && w.me.serves[h].req == NormRequest(v.out.sent[w.me.serves[h].src].msg.req)
            && v.me.inbox[k].src < |w.out.sent|
            && var p := w.out.sent[v.me.inbox[k].src];
            p.author == ByServe(h) && p.msg.ResponseMsg? && v.me.inbox[k].resp == NormResponse(p.msg.resp)
  {
    var v, w := Side(s, left), Side(s, !left);
    assert CallOk(v.me, v.me.calls[c]);
    var x := v.me.inbox[v.me.calls[c].pc.outcome.arrival];
    assert ArrivalOk(x, v.inn);
    assert PacketOk(w.me, w.out, x.src);
    h := v.inn.sent[x.src].author.serve;
    assert ServeOk(w.me.serves[h], h, w.out, w.inn);
    var j :| 0 <= j < |w.me.serves[h].emitted| && w.me.serves[h].emitted[j] == x.src;
    assert EmittedOk(w.me.serves[h], h, w.out, w.me.serves[h].emitted[j]);
  }

  // ------------------------------------------------------------ events

  /** The events a side got accepted, in order. */
  function Events(sent: seq<Packet>): seq<Event> {
    if sent == [] then []
    else
      var last := sent[|sent| - 1].msg;
      Events(sent[..|sent| - 1]) + (if last.EventMsg? then [last.evt] else [])
  }

  /** The valid events it notified of and the transport took. */
  function Notified(run: seq<Label>, left: bool): seq<Event> {
    if run == [] then []
    else
      var l := run[|run| - 1];
      Notified(run[..|run| - 1], left) +
      (if l.left == left && l.st.Notify? && l.st.ok && Sendable(EventMsg(l.st.e)) then [l.st.e] else [])
  }

  lemma EventsGrow(sent: seq<Packet>, p: Packet)
    ensures Events(sent + [p]) == Events(sent) + (if p.msg.EventMsg? then [p.msg.evt] else [])
  {
    assert (sent + [p])[..|sent|] == sent;
  }

  lemma StepAddsEvents(v: View, st: Step)
    requires Enabled(v, st)
    ensures Events(Do(v, st).out.sent) ==
            Events(v.out.sent) + (if st.Notify? && st.ok && Sendable(EventMsg(st.e)) then [st.e] else [])
  {
    var sent, sent' := v.out.sent, Do(v, st).out.sent;
    if |sent'| > |sent| {
      assert sent' == sent + [sent'[|sent|]];
      EventsGrow(sent, sent'[|sent|]);
    } else {
      assert sent' == sent;
    }
  }

  /** In every run the events on the link are those notified, in order. */
  lemma {:induction false} EventsAreNotified(run: seq<Label>, left: bool)
    requires Runs(Initial(), run)
    ensures Events(Side(After(Initial(), run), left).out.sent) == Notified(run, left)
    decreases |run|
  {
    if run != [] {
      var past, l := run[..|run| - 1], run[|run| - 1];
      assert run == past + [l];
      LastStep(Initial(), past, l);
      EventsAreNotified(past, left);
      if l.left == left {
        StepAddsEvents(Side(After(Initial(), past), left), l.st);
      } else {
        LinksGrow(Side(After(Initial(), past), l.left), l.st);
      }
    }
  }

  // ------------------------------------------------------------ arrivals

  /** Each delivered request has its goroutine, and each delivered response its arrival. */
  predicate TakenIn(me: Peer, inn: Link<Packet>) {
    forall i | i in inn.delivered && i < |inn.sent| :: IsTaken(me, inn.sent[i].msg, i)
  }

  predicate IsTaken(me: Peer, m: Message, i: nat) {
    match m
    case RequestMsg(_) => exists h :: 0 <= h < |me.serves| && me.serves[h].src == i
    case ResponseMsg(_) => exists k :: 0 <= k < |me.inbox| && me.inbox[k].src == i
    case EventMsg(_) => true
  }

  lemma TakenStays(me: Peer, me': Peer, m: Message, i: nat)
    requires IsTaken(me, m, i) && Grows(me, me')
    ensures IsTaken(me', m, i)
  {
    match m
    case RequestMsg(_) =>
      var h :| 0 <= h < |me.serves| && me.serves[h].src == i;
      assert me'.serves[h].src == i;
    case ResponseMsg(_) =>
      var k :| 0 <= k < |me.inbox| && me.inbox[k].src == i;
      assert me'.inbox[k].src == i;
    case EventMsg(_) =>
  }

  lemma ReadIsTaken(v: View, i: nat)
    requires Enabled(v, Read(i)) && Sendable(v.inn.sent[i].msg)
    ensures IsTaken(Do(v, Read(i)).me, v.inn.sent[i].msg, i)
  {
    var me, me' := v.me, Do(v, Read(i)).me;
    SentIsAccepted(v.inn.sent[i].msg);
    match v.inn.sent[i].msg
    case RequestMsg(_) => assert me'.serves[|me.serves|].src == i;
    case ResponseMsg(_) => assert me'.inbox[|me.inbox|].src == i;
    case EventMsg(_) =>
  }

  lemma StepKeepsTakenIn(v: View, st: Step)
    requires Enabled(v, st) && TakenIn(v.me, v.inn)
    requires forall i | 0 <= i < |v.inn.sent| :: Sendable(v.inn.sent[i].msg)
    ensures TakenIn(Do(v, st).me, Do(v, st).inn)
  {
    var v' := Do(v, st);
    StepGrows(v, st);
    StepsAreLinkMoves(v, st);
    forall i | i in v'.inn.delivered && i < |v'.inn.sent| ensures IsTaken(v'.me, v'.inn.sent[i].msg, i) {
      if i in v.inn.delivered {
        TakenStays(v.me, v'.me, v.inn.sent[i].msg, i);
      } else {
        ReadIsTaken(v, i);
      }
    }
  }

  /** Nothing delivered is dropped: in every run each request delivered to a side has started
      a handler goroutine there, and each response is on its way to the pending map. */
  lemma {:induction false} DeliveredIsTaken(run: seq<Label>, left: bool)
    requires Runs(Initial(), run)
    ensures var v := Side(After(Initial(), run), left);
            TakenIn(v.me, v.inn) && forall i | i in v.inn.delivered :: i < |v.inn.sent|
    decreases |run|
  {
    if run != [] {
      var past, l := run[..|run| - 1], run[|run| - 1];
      assert run == past + [l];
      LastStep(Initial(), past, l);
      DeliveredIsTaken(past, left);
      ReachableIsGood(past);
      var v := Side(After(Initial(), past), left);
      if l.left == left {
        StepKeepsTakenIn(v, l.st);
        LinksGrow(v, l.st);
        StepsAreLinkMoves(v, l.st);
      } else {
        LinksGrow(Side(After(Initial(), past), l.left), l.st);
      }
    }
  }

  /** Whoever a response is for has its call here. */
  lemma ArrivalIsKnown(s: System, left: bool, k: nat) returns (c: nat)
    requires GoodSystem(s) && k < |Side(s, left).me.inbox|
    ensures var me := Side(s, left).me; c < |me.calls| && me.calls[c].req.id == me.inbox[k].resp.response
  {
    var v, w := Side(s, left), Side(s, !left);
    var x := v.me.inbox[k];
    assert ArrivalOk(x, v.inn);
    assert PacketOk(w.me, w.out, x.src);
    var h := v.inn.sent[x.src].author.serve;
    var serve := w.me.serves[h];
    assert ServeOk(serve, h, w.out, w.inn);
    var j :| 0 <= j < |serve.emitted| && serve.emitted[j] == x.src;
    assert EmittedOk(serve, h, w.out, serve.emitted[j]);
    assert PacketOk(v.me, v.out, serve.src);
    c := v.out.sent[serve.src].author.call;
  }

  /** A resolved response has found its call, unless that had timed out. */
  predicate ResolvedCloses(me: Peer) {
    forall k, c | 0 <= k < |me.inbox| && 0 <= c < |me.calls| ::
      me.inbox[k].resolved && me.inbox[k].resp.response == me.calls[c].req.id ==> !Open(me.calls[c])
  }

  lemma ClosedStays(v: View, st: Step, c: nat)
    requires Enabled(v, st) && c < |v.me.calls| && !Open(v.me.calls[c])
    ensures !Open(Do(v, st).me.calls[c])
  {
  }

  /** The call an arrival is for is no new one. */
  lemma CallIsOld(s: System, left: bool, me': Peer, k: nat, c: nat)
    requires GoodSystem(s) && Grows(Side(s, left).me, me') && FreshIds(me')
    requires k < |Side(s, left).me.inbox| && c < |me'.calls|
    requires Side(s, left).me.inbox[k].resp.response == me'.calls[c].req.id
    ensures c < |Side(s, left).me.calls|
  {
    var d := ArrivalIsKnown(s, left, k);
    SameIdSameCall(me', c, d);
  }

  lemma ResolvedIsOld(v: View, st: Step, k: nat)
    requires Enabled(v, st) && k < |Do(v, st).me.inbox| && Do(v, st).me.inbox[k].resolved
    ensures k < |v.me.inbox| && v.me.inbox[k].resp == Do(v, st).me.inbox[k].resp
  {
  }

  lemma StepKeepsResolved(v: View, st: Step, k: nat, c: nat)
    requires Enabled(v, st) && ResolvedCloses(v.me) && Exact(v.me) && c < |v.me.calls|
    requires var me' := Do(v, st).me;
             k < |me'.inbox| && me'.inbox[k].resolved && me'.inbox[k].resp.response == me'.calls[c].req.id
    ensures !Open(Do(v, st).me.calls[c])
  {
    assert k < |v.me.inbox|;
    if v.me.inbox[k].resolved {
      ClosedStays(v, st, c);
    } else {
      ResolvingCloses(v, st, k, c);
    }
  }

  lemma SameIdSameCall(me: Peer, c: nat, d: nat)
    requires FreshIds(me) && c < |me.calls| && d < |me.calls| && me.calls[c].req.id == me.calls[d].req.id
    ensures c == d
  {
  }

  lemma ResolvingCloses(v: View, st: Step, k: nat, c: nat)
    requires Enabled(v, st) && k < |v.me.inbox| && c < |v.me.calls| && Exact(v.me)
    requires !v.me.inbox[k].resolved && Do(v, st).me.inbox[k].resolved
    requires v.me.inbox[k].resp.response == v.me.calls[c].req.id
    ensures !Open(Do(v, st).me.calls[c])
  {
    assert st == Resolve(k) && IsExact(v.me, c);
    if Open(v.me.calls[c]) {
      assert Do(v, st).me.calls[c].put == v.me.calls[c].put + [k];
    } else {
      ClosedStays(v, st, c);
    }
  }

  /** With fresh ids no response is lost: once resolved, the call it is for has it, or had
      timed out. */
  lemma {:induction false} NoResponseIsLost(run: seq<Label>, left: bool)
    requires Runs(Initial(), run) && FreshIds(Side(After(Initial(), run), left).me)
    ensures ResolvedCloses(Side(After(Initial(), run), left).me)
    decreases |run|
  {
    if run != [] {
      var past, l := run[..|run| - 1], run[|run| - 1];
      assert run == past + [l];
      LastStep(Initial(), past, l);
      var s := After(Initial(), past);
      var me, me' := Side(s, left).me, Side(After(Initial(), run), left).me;
      ReachableIsGood(past);
      if l.left == left {
        StepGrows(Side(s, left), l.st);
        FreshBefore(me, me');
        NoResponseIsLost(past, left);
        forall k, c | 0 <= k < |me'.inbox| && 0 <= c < |me'.calls|
          && me'.inbox[k].resolved && me'.inbox[k].resp.response == me'.calls[c].req.id
          ensures !Open(me'.calls[c])
        {
          ResolvedIsOld(Side(s, left), l.st, k);
          CallIsOld(s, left, me', k, c);
          StepKeepsResolved(Side(s, left), l.st, k, c);
        }
      } else {
        NoResponseIsLost(past, left);
      }
    }
  }

  lemma FreshBefore(me: Peer, me': Peer)
    requires Grows(me, me') && FreshIds(me')
    ensures FreshIds(me)
  {
    forall c, d | 0 <= c < d < |me.calls| ensures me.calls[c].req.id != me.calls[d].req.id {
      assert me'.calls[c].req.id != me'.calls[d].req.id;
    }
  }
}
