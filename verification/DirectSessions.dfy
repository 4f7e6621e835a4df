/**
 Two sessions on the two ends of an in-memory transport. Every run is, seen through its
 messages, a run of module Correlation.
 */
module DirectSessions {
  import opened Wrappers
  import opened Frames
  import opened Transport
  import opened Cargo
  import C = Correlation
  import Direct

  /** The transport's packages hold session messages only; the loads number them. */
  datatype State = State(a: C.Peer, b: C.Peer, d: Direct.State, abLoad: Load, baLoad: Load)

  datatype Step = Session(left: bool, st: C.Step) | Receive(left: bool) | Refuse(left: bool) | Close(left: bool)

  function Initial(): State {
    State(C.EmptyPeer(), C.EmptyPeer(), Direct.Initial(), Load([], []), Load([], []))
  }

  function Me(s: State, left: bool): C.Peer {
    if left then s.a else s.b
  }

  function LoadOf(s: State, left: bool): Load {
    if left then s.abLoad else s.baLoad
  }

  function AsFrames(l: Link<Bytes>): Link<Frame> {
    Link(seq(|l.sent|, i requires 0 <= i < |l.sent| => Frame(Kind.Text, l.sent[i])), l.delivered)
  }

  function FramesOut(s: State, left: bool): Link<Frame> {
    AsFrames(Direct.Abstract(Direct.Out(s.d, left)))
  }

  function LinkOut(s: State, left: bool): Link<C.Packet> {
    Packets(LoadOf(s, left), FramesOut(s, left))
  }

  function ViewOf(s: State, left: bool): C.View {
    C.View(Me(s, left), LinkOut(s, left), LinkOut(s, !left))
  }

  function Through(s: State): C.System {
    C.System(s.a, s.b, LinkOut(s, true), LinkOut(s, false))
  }

  function WithMe(s: State, left: bool, me: C.Peer): State {
    if left then s.(a := me) else s.(b := me)
  }

  function WriteOf(codec: Codec, left: bool, p: C.Packet): Direct.Step {
    Direct.Write(left, TextFrame(codec, p.msg).data)
  }

  function AfterWrite(codec: Codec, s: State, left: bool, p: C.Packet): State
    requires Direct.Enabled(s.d, WriteOf(codec, left, p))
  {
    var load := AddMessage(LoadOf(s, left), |Direct.Out(s.d, left).accepted|, p);
    var s' := s.(d := Direct.Do(s.d, WriteOf(codec, left, p)));
    if left then s'.(abLoad := load) else s'.(baLoad := load)
  }

  predicate Enabled(codec: Codec, s: State, step: Step) {
    match step
    case Session(left, st) =>
      && !st.Read? && C.Enabled(ViewOf(s, left), st)
      && var w := Written(ViewOf(s, left), st);
      (w.Some? ==> Direct.Enabled(s.d, WriteOf(codec, left, w.value)))
    case Receive(left) => Direct.Enabled(s.d, Direct.Read(left))
    case Refuse(left) => Direct.Enabled(s.d, Direct.WriteRefused(left))
    case Close(left) => true
  }

  function Do(codec: Codec, s: State, step: Step): State
    requires Enabled(codec, s, step)
  {
    match step
    case Session(left, st) =>
      var v := ViewOf(s, left);
      var s' := match Written(v, st) case None => s case Some(p) => AfterWrite(codec, s, left, p);
      WithMe(s', left, C.Do(v, st).me)
    case Receive(left) =>
      var parsed := ParseBytes(codec, Direct.Out(s.d, !left).slot[0]);
      WithMe(s.(d := Direct.Do(s.d, Direct.Read(left))), left, C.Start(Me(s, left), Taken(s, left), parsed))
    case Refuse(left) => s.(d := Direct.Do(s.d, Direct.WriteRefused(left)))
    case Close(left) => s.(d := Direct.Do(s.d, Direct.Close(left)))
  }

  /** The message that side takes next, by its number. */
  function Taken(s: State, left: bool): nat {
    Place(LoadOf(s, !left).at, Direct.Out(s.d, !left).taken)
  }

  predicate Runs(codec: Codec, s: State, run: seq<Step>)
    decreases run
  {
    run == [] || (Enabled(codec, s, run[0]) && Runs(codec, Do(codec, s, run[0]), run[1..]))
  }

  function After(codec: Codec, s: State, run: seq<Step>): State
    requires Runs(codec, s, run)
    decreases run
  {
    if run == [] then s else After(codec, Do(codec, s, run[0]), run[1..])
  }

  // ------------------------------------------------------------ the refinement

  predicate Good(codec: Codec, s: State) {
    && Direct.Good(s.d)
    && Loaded(codec, s.abLoad, FramesOut(s, true))
    && Loaded(codec, s.baLoad, FramesOut(s, false))
  }

  function FrameMove(m: LinkStep<Bytes>): LinkStep<Frame> {
    match m
    case Accept(data) => LinkStep.Accept(Frame(Kind.Text, data))
    case Refuse => LinkStep.Refuse
    case Deliver(i) => LinkStep.Deliver(i)
  }

  lemma FramesMove(l: Link<Bytes>, m: LinkStep<Bytes>)
    requires CanMove(l, m)
    ensures CanMove(AsFrames(l), FrameMove(m)) && AsFrames(Move(l, m)) == Move(AsFrames(l), FrameMove(m))
  {
  }

  /** What a step of the transport does to the frames of one direction. */
  lemma DirectMoves(d: Direct.State, st: Direct.Step, left: bool)
    requires Direct.Good(d) && Direct.Enabled(d, st)
    ensures Direct.Good(Direct.Do(d, st))
    ensures var l := AsFrames(Direct.Abstract(Direct.Out(d, left)));
            var m := FrameMove(Direct.Amounts(d, st, left));
            CanMove(l, m) && AsFrames(Direct.Abstract(Direct.Out(Direct.Do(d, st), left))) == Move(l, m)
  {
    Direct.DirectMeetsContract(d, st, left);
    FramesMove(Direct.Abstract(Direct.Out(d, left)), Direct.Amounts(d, st, left));
  }

  lemma WriteIsAccepted(codec: Codec, s: State, left: bool, p: C.Packet)
    requires Good(codec, s) && Direct.Enabled(s.d, WriteOf(codec, left, p))
    ensures var s' := AfterWrite(codec, s, left, p);
            && Good(codec, s') && s'.a == s.a && s'.b == s.b
            && LinkOut(s', left) == Move(LinkOut(s, left), LinkStep.Accept(p))
            && LinkOut(s', !left) == LinkOut(s, !left)
  {
    DirectMoves(s.d, WriteOf(codec, left, p), left);
    DirectMoves(s.d, WriteOf(codec, left, p), !left);
    MessageAccepted(codec, LoadOf(s, left), FramesOut(s, left), p);
  }

  lemma ReceiveIsRead(codec: Codec, s: State, left: bool)
    requires Faithful(codec) && Good(codec, s) && Direct.Enabled(s.d, Direct.Read(left))
    ensures var s' := s.(d := Direct.Do(s.d, Direct.Read(left)));
            && Good(codec, s') && LinkOut(s', left) == LinkOut(s, left)
            && ReadsAs(ViewOf(s, left), Taken(s, left),
                       ParseBytes(codec, Direct.Out(s.d, !left).slot[0]), LinkOut(s', !left))
  {
    DirectMoves(s.d, Direct.Read(left), left);
    DirectMoves(s.d, Direct.Read(left), !left);
    Direct.DirectMeetsContract(s.d, Direct.Read(left), !left);
    SessionReads(codec, ViewOf(s, left), LoadOf(s, !left), FramesOut(s, !left), Direct.Out(s.d, !left).taken);
  }

  function LabelOf(s: State, step: Step): Option<C.Label> {
    match step
    case Session(left, st) => Some(C.Label(left, st))
    case Receive(left) => Some(C.Label(left, C.Read(Taken(s, left))))
    case _ => None
  }

  lemma StepRefines(codec: Codec, s: State, step: Step)
    requires Faithful(codec) && Good(codec, s) && Enabled(codec, s, step)
    ensures Good(codec, Do(codec, s, step))
    ensures match LabelOf(s, step)
            case None => Through(Do(codec, s, step)) == Through(s)
            case Some(l) => C.CanStep(Through(s), l) && Through(Do(codec, s, step)) == C.Next(Through(s), l)
  {
    match step
    case Session(left, st) => SessionRefines(codec, s, left, st);
    case Receive(left) => ReceiveIsRead(codec, s, left);
    case Refuse(left) => OwnStepIsQuiet(codec, s, Direct.WriteRefused(left));
    case Close(left) => OwnStepIsQuiet(codec, s, Direct.Close(left));
  }

  lemma OwnStepIsQuiet(codec: Codec, s: State, st: Direct.Step)
    requires Good(codec, s) && Direct.Enabled(s.d, st) && (st.WriteRefused? || st.Close?)
    ensures var s' := s.(d := Direct.Do(s.d, st)); Good(codec, s') && Through(s') == Through(s)
  {
    DirectMoves(s.d, st, true);
    DirectMoves(s.d, st, false);
  }

  lemma SessionRefines(codec: Codec, s: State, left: bool, st: C.Step)
    requires Good(codec, s) && Enabled(codec, s, Session(left, st))
    ensures var s' := Do(codec, s, Session(left, st));
            Good(codec, s') && C.CanStep(Through(s), C.Label(left, st))
            && Through(s') == C.Next(Through(s), C.Label(left, st))
  {
    var v := ViewOf(s, left);
    SessionStep(v, st);
    var w := Written(v, st);
    if w.Some? {
      WriteIsAccepted(codec, s, left, w.value);
    }
  }

  lemma InitialIsGood(codec: Codec)
    ensures Good(codec, Initial()) && Through(Initial()) == C.Initial()
  {
    assert Upto(0) == [];
    assert FramesOut(Initial(), true) == Link([], {}) && FramesOut(Initial(), false) == Link([], {});
  }

  lemma {:induction false} RunRefines(codec: Codec, s: State, run: seq<Step>) returns (labels: seq<C.Label>)
    requires Faithful(codec) && Good(codec, s) && Runs(codec, s, run)
    ensures C.Runs(Through(s), labels) && C.After(Through(s), labels) == Through(After(codec, s, run))
    decreases run
  {
    if run == [] {
      labels := [];
    } else {
      StepRefines(codec, s, run[0]);
      var rest := RunRefines(codec, Do(codec, s, run[0]), run[1..]);
      match LabelOf(s, run[0]) {
        case None => labels := rest;
        case Some(l) =>
          C.RunCons(Through(s), l, rest);
          labels := [l] + rest;
      }
    }
  }

  /** End-to-end correlation with the in-memory transport in between, in every run, closed or
      not. */
  lemma CorrelatedOverDirect(codec: Codec, run: seq<Step>, left: bool)
    requires Faithful(codec) && Runs(codec, Initial(), run)
    ensures C.Correlated(Through(After(codec, Initial(), run)), left)
  {
    InitialIsGood(codec);
    var labels := RunRefines(codec, Initial(), run);
    C.EndToEndCorrelation(labels, left);
  }
}
