/**
 One direction between two WebSocket transports: the outbound side of one, a socket
 that carries data frames in the order they were written, and the inbound side of the
 other. The pair meets the contract sessions rely on, although a closing transport
 reorders and drops.
 */
module WebsocketPair {
  import opened Wrappers
  import opened Frames
  import opened Transport
  import Outbound
  import Inbound

  /** `pos` counts the written frames the receiving side's connection has consumed. */
  datatype State = State(out: Outbound.State, inn: Inbound.State, pos: nat)

  datatype Step = Out(o: Outbound.Step) | In(i: Inbound.Step) | Carry

  function Initial(): State {
    State(Outbound.Initial(), Inbound.Initial(), 0)
  }

  /** The next frame on the socket. */
  predicate HasNext(s: State) {
    s.pos < |s.out.sent| && s.out.sent[s.pos] < |s.out.accepted|
  }

  function NextFrame(s: State): Frame
    requires HasNext(s)
  {
    s.out.accepted[s.out.sent[s.pos]]
  }

  /** ReadMessage returns data frames; ping, pong and close frames are consumed inside
      the connection. */
  predicate IsData(f: Frame) {
    f.kind == Text || f.kind == Binary
  }

  predicate Enabled(s: State, st: Step) {
    match st
    case Out(o) => Outbound.Enabled(s.out, o)
    case In(i) => !i.ReadFrame? && Inbound.Enabled(s.inn, i)
    case Carry => HasNext(s) && (IsData(NextFrame(s)) ==> Inbound.Enabled(s.inn, Inbound.ReadFrame(NextFrame(s))))
  }

  function Do(s: State, st: Step): State
    requires Enabled(s, st)
  {
    match st
    case Out(o) => s.(out := Outbound.Do(s.out, o))
    case In(i) => s.(inn := Inbound.Do(s.inn, i))
    case Carry =>
      if IsData(NextFrame(s)) then
        s.(inn := Inbound.Do(s.inn, Inbound.ReadFrame(NextFrame(s))), pos := s.pos + 1)
      else s.(pos := s.pos + 1)
  }

  predicate Runs(s: State, run: seq<Step>)
    decreases run
  {
    run == [] || (Enabled(s, run[0]) && Runs(Do(s, run[0]), run[1..]))
  }

  function After(s: State, run: seq<Step>): State
    requires Runs(s, run)
    decreases run
  {
    if run == [] then s else After(Do(s, run[0]), run[1..])
  }

  /** Which of the given positions hold text frames. */
  function Texts(accepted: seq<Frame>, at: seq<nat>): seq<nat> {
    if at == [] then []
    else (if at[0] < |accepted| && accepted[at[0]].kind == Text then [at[0]] else []) + Texts(accepted, at[1..])
  }

  function DataAt(accepted: seq<Frame>, at: seq<nat>): seq<Bytes> {
    seq(|at|, j requires 0 <= j < |at| => if at[j] < |accepted| then accepted[at[j]].data else [])
  }

  lemma {:induction false} TextsSplit(accepted: seq<Frame>, xs: seq<nat>, ys: seq<nat>)
    ensures Texts(accepted, xs + ys) == Texts(accepted, xs) + Texts(accepted, ys)
  {
    if xs == [] {
      assert xs + ys == ys;
    } else {
      var first := if xs[0] < |accepted| && accepted[xs[0]].kind == Text then [xs[0]] else [];
      calc {
        Texts(accepted, xs + ys);
        { assert (xs + ys)[0] == xs[0] && (xs + ys)[1..] == xs[1..] + ys; }
        first + Texts(accepted, xs[1..] + ys);
        { TextsSplit(accepted, xs[1..], ys); }
        first + (Texts(accepted, xs[1..]) + Texts(accepted, ys));
        first + Texts(accepted, xs[1..]) + Texts(accepted, ys);
        Texts(accepted, xs) + Texts(accepted, ys);
      }
    }
  }

  lemma {:induction false} TextsStable(accepted: seq<Frame>, f: Frame, at: seq<nat>)
    requires Outbound.InRange(at, |accepted|)
    ensures Texts(accepted + [f], at) == Texts(accepted, at)
  {
    if at != [] {
      TextsStable(accepted, f, at[1..]);
    }
  }

  lemma {:induction false} TextsAmong(accepted: seq<Frame>, at: seq<nat>)
    ensures forall i | i in Texts(accepted, at) :: i in at && i < |accepted| && accepted[i].kind == Text
    ensures NoRepeats(at) ==> NoRepeats(Texts(accepted, at))
  {
    if at != [] {
      TextsAmong(accepted, at[1..]);
    }
  }

  /** The text frames read are those of the consumed part of the wire. */
  predicate ReadOk(s: State) {
    && s.pos <= |s.out.sent|
    && Select(s.inn.read, Text) == DataAt(s.out.accepted, Texts(s.out.accepted, s.out.sent[..s.pos]))
  }

  predicate Linked(s: State) {
    && Outbound.InRange(s.out.sent, |s.out.accepted|)
    && NoRepeats(s.out.sent)
    && ReadOk(s)
    && s.inn.received <= Select(s.inn.read, Text)
  }

  predicate Good(s: State) {
    Outbound.Good(s.out) && Inbound.Good(s.inn) && ReadOk(s)
  }

  /** The text frames written to the socket, in wire order. */
  function Wire(s: State): seq<nat> {
    Texts(s.out.accepted, s.out.sent)
  }

  lemma ReadIsWirePrefix(s: State)
    requires s.pos <= |s.out.sent|
    ensures Texts(s.out.accepted, s.out.sent[..s.pos]) <= Wire(s)
  {
    TextsSplit(s.out.accepted, s.out.sent[..s.pos], s.out.sent[s.pos..]);
    assert s.out.sent == s.out.sent[..s.pos] + s.out.sent[s.pos..];
  }

  /** What the session has received is, position by position, a prefix of the wire. */
  lemma ReceivedIsOnWire(s: State)
    requires Linked(s)
    ensures |s.inn.received| <= |Wire(s)|
    ensures s.inn.received == DataAt(s.out.accepted, Wire(s)[..|s.inn.received|])
  {
    ReadIsWirePrefix(s);
  }

  /** The pair seen as a link. */
  function Abstract(s: State): Link<Frame>
    requires |s.inn.received| <= |Wire(s)|
  {
    Link(s.out.accepted, set i | i in Wire(s)[..|s.inn.received|])
  }

  // ------------------------------------------------- every step keeps the invariant

  lemma SentInRange(out: Outbound.State)
    requires Outbound.Good(out)
    ensures Outbound.InRange(out.sent, |out.accepted|) && NoRepeats(out.sent)
  {
    var wire: multiset<nat> := multiset(out.sent);
    var gone: multiset<nat> := multiset(Upto(out.taken));
    assert wire + multiset(out.failed) + multiset(Outbound.Held(out.consumers)) == gone;
    forall x: nat | x in out.sent ensures wire[x] <= 1 && x < out.taken {
      UptoCounts(out.taken, x);
      assert wire[x] > 0 && gone[x] >= wire[x];
    }
    CountedOnce(out.sent);
    forall j | 0 <= j < |out.sent| ensures out.sent[j] < |out.accepted| {
      assert out.sent[j] in out.sent;
    }
  }

  lemma GoodIsLinked(s: State)
    requires Good(s)
    ensures Linked(s)
  {
    SentInRange(s.out);
  }

  /** An outbound step accepts a frame, or writes one, or neither. */
  lemma OutShape(out: Outbound.State, o: Outbound.Step)
    requires Outbound.Enabled(out, o)
    ensures var out' := Outbound.Do(out, o);
            || (out'.accepted == out.accepted && out'.sent == out.sent)
            || (|out'.accepted| == |out.accepted| + 1 && out'.sent == out.sent
                && out'.accepted == out.accepted + [out'.accepted[|out.accepted|]])
            || (out'.accepted == out.accepted && |out'.sent| == |out.sent| + 1
                && out'.sent == out.sent + [out'.sent[|out.sent|]])
  {
  }

  lemma OutKeepsRead(s: State, o: Outbound.Step)
    requires Linked(s) && Outbound.Enabled(s.out, o)
    ensures ReadOk(Do(s, Out(o)))
  {
    var s' := Do(s, Out(o));
    OutShape(s.out, o);
    var at := s.out.sent[..s.pos];
    assert s'.out.sent[..s.pos] == at;
    if |s'.out.accepted| > |s.out.accepted| {
      TextsStable(s.out.accepted, s'.out.accepted[|s.out.accepted|], at);
      TextsAmong(s.out.accepted, at);
      var texts := Texts(s.out.accepted, at);
      forall j | 0 <= j < |texts| ensures texts[j] < |s.out.accepted| {
        assert texts[j] in texts;
      }
    }
  }

  lemma OutKeepsGood(s: State, o: Outbound.Step)
    requires Good(s) && Outbound.Enabled(s.out, o)
    ensures Good(Do(s, Out(o)))
  {
    Outbound.StepKeepsGood(s.out, o);
    GoodIsLinked(s);
    OutKeepsRead(s, o);
  }

  lemma CarryKeepsRead(s: State)
    requires ReadOk(s) && Enabled(s, Carry)
    ensures ReadOk(Do(s, Carry))
  {
    var f := NextFrame(s);
    var i := s.out.sent[s.pos];
    SelectSplits(s.inn.read, [f], Text);
    TextsSplit(s.out.accepted, s.out.sent[..s.pos], [i]);
    assert s.out.sent[..s.pos + 1] == s.out.sent[..s.pos] + [i];
    assert Texts(s.out.accepted, [i]) == if f.kind == Text then [i] else [];
    assert Select([f], Text) == if f.kind == Text then [f.data] else [];
  }

  lemma CarryKeepsGood(s: State)
    requires Good(s) && Enabled(s, Carry)
    ensures Good(Do(s, Carry))
  {
    CarryKeepsRead(s);
    if IsData(NextFrame(s)) {
      Inbound.StepKeepsLock(s.inn, Inbound.ReadFrame(NextFrame(s)));
      Inbound.StepKeepsFifo(s.inn, Inbound.ReadFrame(NextFrame(s)));
    }
  }

  lemma StepKeepsGood(s: State, st: Step)
    requires Good(s) && Enabled(s, st)
    ensures Good(Do(s, st))
  {
    match st
    case Out(o) => OutKeepsGood(s, o);
    case In(i) =>
      Inbound.StepKeepsLock(s.inn, i);
      Inbound.StepKeepsFifo(s.inn, i);
    case Carry => CarryKeepsGood(s);
  }

  lemma InitialIsGood()
    ensures Good(Initial())
  {
    Outbound.InitialIsGood();
  }

  lemma {:induction false} RunKeepsGood(s: State, run: seq<Step>)
    requires Good(s) && Runs(s, run)
    ensures Good(After(s, run))
    decreases run
  {
    if run != [] {
      StepKeepsGood(s, run[0]);
      RunKeepsGood(Do(s, run[0]), run[1..]);
    }
  }

  // ------------------------------------------------------------- the main results

  /** The step of the contract a step of the pair amounts to. */
  function Amounts(s: State, st: Step): LinkStep<Frame>
    requires Enabled(s, st)
  {
    var s' := Do(s, st);
    if |s'.out.accepted| > |s.out.accepted| then Accept(s'.out.accepted[|s.out.accepted|])
    else if |s'.inn.received| > |s.inn.received| && |s.inn.received| < |Wire(s)| then Deliver(Wire(s)[|s.inn.received|])
    else Refuse
  }

  lemma WireGrows(s: State, o: Outbound.Step)
    requires Linked(s) && Outbound.Enabled(s.out, o)
    ensures Wire(s) <= Wire(Do(s, Out(o)))
  {
    var s' := Do(s, Out(o));
    OutShape(s.out, o);
    if |s'.out.accepted| > |s.out.accepted| {
      TextsStable(s.out.accepted, s'.out.accepted[|s.out.accepted|], s.out.sent);
    } else if |s'.out.sent| > |s.out.sent| {
      TextsSplit(s.out.accepted, s.out.sent, [s'.out.sent[|s.out.sent|]]);
    }
  }

  /** Refinement: every step of two joined WebSocket transports is a step of the
      contract, and what a delivery hands to the session is the frame delivered. */
  lemma LinkedMeetsContract(s: State, st: Step)
    requires Linked(s) && Enabled(s, st) && Linked(Do(s, st))
    ensures |s.inn.received| <= |Wire(s)| && |Do(s, st).inn.received| <= |Wire(Do(s, st))|
    ensures CanMove(Abstract(s), Amounts(s, st))
    ensures Abstract(Do(s, st)) == Move(Abstract(s), Amounts(s, st))
    ensures Amounts(s, st).Deliver? ==>
              Do(s, st).inn.received == s.inn.received + [s.out.accepted[Amounts(s, st).i].data]
  {
    ReceivedIsOnWire(s);
    ReceivedIsOnWire(Do(s, st));
    match st
    case Out(o) =>
      OutShape(s.out, o);
      WireGrows(s, o);
      assert Wire(Do(s, st))[..|s.inn.received|] == Wire(s)[..|s.inn.received|];
    case Carry => assert Do(s, st).inn.received == s.inn.received;
    case In(i) =>
      if i.SessionReceives? {
        ReceiveIsDelivery(s);
      } else {
        assert Do(s, st).inn.received == s.inn.received;
      }
  }

  lemma ReceiveIsDelivery(s: State)
    requires var st := In(Inbound.SessionReceives); Linked(s) && Enabled(s, st) && Linked(Do(s, st))
    ensures var s' := Do(s, In(Inbound.SessionReceives));
            var n := |s.inn.received|;
            && |s'.inn.received| == n + 1 <= |Wire(s)| && Wire(s') == Wire(s)
            && CanMove(Abstract(s), Deliver(Wire(s)[n]))
            && Abstract(s') == Move(Abstract(s), Deliver(Wire(s)[n]))
            && s'.inn.received == s.inn.received + [s.out.accepted[Wire(s)[n]].data]
  {
    var s' := Do(s, In(Inbound.SessionReceives));
    var n := |s.inn.received|;
    ReceivedIsOnWire(s);
    ReceivedIsOnWire(s');
    TextsAmong(s.out.accepted, s.out.sent);
    assert Wire(s)[n] in Wire(s);
    assert Wire(s)[..n + 1] == Wire(s)[..n] + [Wire(s)[n]];
    assert s'.inn.received[n] == DataAt(s.out.accepted, Wire(s)[..n + 1])[n];
  }

  lemma PairMeetsContract(s: State, st: Step)
    requires Good(s) && Enabled(s, st)
    ensures Good(Do(s, st)) && Linked(s) && Linked(Do(s, st))
    ensures |s.inn.received| <= |Wire(s)| && |Do(s, st).inn.received| <= |Wire(Do(s, st))|
    ensures CanMove(Abstract(s), Amounts(s, st))
    ensures Abstract(Do(s, st)) == Move(Abstract(s), Amounts(s, st))
    ensures Amounts(s, st).Deliver? ==>
              Do(s, st).inn.received == s.inn.received + [s.out.accepted[Amounts(s, st).i].data]
  {
    StepKeepsGood(s, st);
    GoodIsLinked(s);
    GoodIsLinked(Do(s, st));
    LinkedMeetsContract(s, st);
  }

  /** Over whole runs: the session at one end receives only text frames the other end
      accepted, each at most once. */
  lemma PairNeverForgesOrRepeats(run: seq<Step>)
    requires Runs(Initial(), run)
    ensures var s := After(Initial(), run);
            && |s.inn.received| <= |Wire(s)|
            && NoRepeats(Wire(s))
            && (forall j | 0 <= j < |s.inn.received| ::
                 Wire(s)[j] < |s.out.accepted| && s.out.accepted[Wire(s)[j]] == Frame(Text, s.inn.received[j]))
  {
    InitialIsGood();
    RunKeepsGood(Initial(), run);
    GoodIsLinked(After(Initial(), run));
    LinkedNeverForges(After(Initial(), run));
  }

  lemma LinkedNeverForges(s: State)
    requires Linked(s)
    ensures |s.inn.received| <= |Wire(s)| && NoRepeats(Wire(s))
    ensures forall j | 0 <= j < |s.inn.received| ::
              Wire(s)[j] < |s.out.accepted| && s.out.accepted[Wire(s)[j]] == Frame(Text, s.inn.received[j])
  {
    ReceivedIsOnWire(s);
    TextsAmong(s.out.accepted, s.out.sent);
    forall j | 0 <= j < |s.inn.received|
      ensures Wire(s)[j] < |s.out.accepted| && s.out.accepted[Wire(s)[j]] == Frame(Text, s.inn.received[j])
    {
      assert Wire(s)[j] in Wire(s);
      assert s.inn.received[j] == DataAt(s.out.accepted, Wire(s)[..|s.inn.received|])[j];
    }
  }

  /** Every run of the pair is a run of the contract. */
  lemma {:induction false} PairRefinesLink(s: State, run: seq<Step>) returns (moves: seq<LinkStep<Frame>>)
    requires Good(s) && Runs(s, run)
    ensures Good(After(s, run)) && Linked(s) && Linked(After(s, run))
    ensures |s.inn.received| <= |Wire(s)| && |After(s, run).inn.received| <= |Wire(After(s, run))|
    ensures Moves(Abstract(s), moves) && MoveAll(Abstract(s), moves) == Abstract(After(s, run))
    decreases run
  {
    if run == [] {
      GoodIsLinked(s);
      ReceivedIsOnWire(s);
      moves := [];
    } else {
      PairMeetsContract(s, run[0]);
      var rest := PairRefinesLink(Do(s, run[0]), run[1..]);
      moves := [Amounts(s, run[0])] + rest;
      assert moves[1..] == rest;
    }
  }

  // ------------------------------------------------ the pair from the sessions' side

  predicate Arrives(run: seq<Step>, s: State) {
    Runs(Initial(), run) && After(Initial(), run) == s
  }

  ghost predicate Reachable(s: State) {
    exists run :: Arrives(run, s)
  }

  /** What was delivered to the session is on the wire. */
  predicate Sound(s: State) {
    |s.inn.received| <= |Wire(s)|
  }

  lemma ReachableIsGood(s: State)
    requires Reachable(s)
    ensures Good(s)
  {
    var run :| Arrives(run, s);
    InitialIsGood();
    RunKeepsGood(Initial(), run);
  }

  lemma {:induction false} RunsExtend(s: State, run: seq<Step>, st: Step)
    requires Runs(s, run) && Enabled(After(s, run), st)
    ensures Runs(s, run + [st]) && After(s, run + [st]) == Do(After(s, run), st)
    decreases run
  {
    if run == [] {
      assert run + [st] == [st] && [st][1..] == [];
      assert Runs(Do(s, st), []) && After(Do(s, st), []) == Do(s, st);
    } else {
      RunsExtend(Do(s, run[0]), run[1..], st);
      assert (run + [st])[1..] == run[1..] + [st];
    }
  }

  lemma StaysReachable(s: State, st: Step)
    requires Reachable(s) && Enabled(s, st)
    ensures Reachable(Do(s, st))
  {
    var run :| Arrives(run, s);
    RunsExtend(Initial(), run, st);
    assert Arrives(run + [st], Do(s, st));
  }

  const RECEIVES := In(Inbound.SessionReceives)

  /** A step that is neither a session's write nor its taking a data package. */
  predicate IsOwn(st: Step) {
    st != RECEIVES && !(st.Out? && st.o.WriteText?)
  }

  lemma OwnShape(s: State, st: Step)
    requires Enabled(s, st) && IsOwn(st)
    ensures |Do(s, st).inn.received| <= |s.inn.received|
    ensures |Do(s, st).out.accepted| > |s.out.accepted| ==> Do(s, st).out.accepted[|s.out.accepted|].kind != Text
  {
  }

  /** It accepts no text frame and delivers nothing. */
  lemma OwnStepIsQuiet(s: State, st: Step) returns (f: Option<Frame>)
    requires Reachable(s) && Enabled(s, st) && IsOwn(st)
    ensures Reachable(Do(s, st)) && Sound(s) && Sound(Do(s, st))
    ensures f.Some? ==> f.value.kind != Text
    ensures Abstract(Do(s, st)) == if f.Some? then Move(Abstract(s), Accept(f.value)) else Abstract(s)
  {
    ReachableIsGood(s);
    PairMeetsContract(s, st);
    OwnShape(s, st);
    StaysReachable(s, st);
    f := if |Do(s, st).out.accepted| > |s.out.accepted| then Some(Do(s, st).out.accepted[|s.out.accepted|]) else None;
  }

  lemma WriteIsAccepted(s: State, data: Bytes)
    requires Reachable(s) && Enabled(s, Out(Outbound.WriteText(data)))
    ensures var s' := Do(s, Out(Outbound.WriteText(data)));
            Reachable(s') && Sound(s) && Sound(s') && Abstract(s') == Move(Abstract(s), Accept(Frame(Text, data)))
  {
    ReachableIsGood(s);
    PairMeetsContract(s, Out(Outbound.WriteText(data)));
    StaysReachable(s, Out(Outbound.WriteText(data)));
  }

  /** Taking a data package delivers the next text frame on the wire. */
  lemma ReceiveDeliversNext(s: State) returns (i: nat)
    requires Reachable(s) && Enabled(s, RECEIVES)
    ensures var s' := Do(s, RECEIVES);
            && Reachable(s') && Sound(s) && Sound(s')
            && |s.inn.received| < |Wire(s)| && i == Wire(s)[|s.inn.received|]
            && CanMove(Abstract(s), Deliver(i)) && Abstract(s') == Move(Abstract(s), Deliver(i))
            && s.out.accepted[i] == Frame(Text, s.inn.cc.input[0])
  {
    ReachableIsGood(s);
    StaysReachable(s, RECEIVES);
    ReachableIsGood(Do(s, RECEIVES));
    GoodIsLinked(s);
    GoodIsLinked(Do(s, RECEIVES));
    i := LinkedDeliversNext(s);
  }

  lemma LinkedDeliversNext(s: State) returns (i: nat)
    requires Linked(s) && Enabled(s, RECEIVES) && Linked(Do(s, RECEIVES))
    ensures var s' := Do(s, RECEIVES);
            && Sound(s) && Sound(s')
            && |s.inn.received| < |Wire(s)| && i == Wire(s)[|s.inn.received|]
            && CanMove(Abstract(s), Deliver(i)) && Abstract(s') == Move(Abstract(s), Deliver(i))
            && s.out.accepted[i] == Frame(Text, s.inn.cc.input[0])
  {
    ReceivedIsOnWire(s);
    ReceiveIsDelivery(s);
    TextsAmong(s.out.accepted, s.out.sent);
    i := Wire(s)[|s.inn.received|];
    assert i in Wire(s);
    assert Do(s, RECEIVES).inn.received[|s.inn.received|] == s.inn.cc.input[0];
  }
}
