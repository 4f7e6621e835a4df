/**
 Two sessions on two joined pairs of WebSocket transports, one pair for each direction:
 callers, handler goroutines, queues, drainers, sockets, dispatchers and teardown together.
 Every run is, seen through its messages, a run of module Correlation.
 */
module WebsocketSessions {
  import opened Wrappers
  import opened Transport
  import opened Cargo
  import C = Correlation
  import Outbound
  import Pair = WebsocketPair

  /** One direction, and which of its frames are session messages. */
  datatype Way = Way(pair: Pair.State, load: Load)

  datatype State = State(a: C.Peer, b: C.Peer, ab: Way, ba: Way)

  /** A step of a session that takes in nothing, the session's reader taking a data package,
      or a step of a transport by itself. */
  datatype Step = Session(left: bool, st: C.Step) | Receive(left: bool) | Carry(left: bool, t: Pair.Step)

  function Initial(): State {
    var way := Way(Pair.Initial(), Load([], []));
    State(C.EmptyPeer(), C.EmptyPeer(), way, way)
  }

  function Me(s: State, left: bool): C.Peer {
    if left then s.a else s.b
  }

  /** The direction written by that side. */
  function Out(s: State, left: bool): Way {
    if left then s.ab else s.ba
  }

  function Put(s: State, left: bool, me: C.Peer, out: Way, inn: Way): State {
    if left then State(me, s.b, out, inn) else State(s.a, me, inn, out)
  }

  function LinkOf(way: Way): Link<C.Packet> {
    if Pair.Sound(way.pair) then Packets(way.load, Pair.Abstract(way.pair)) else Link(way.load.packets, {})
  }

  function ViewOf(s: State, left: bool): C.View {
    C.View(Me(s, left), LinkOf(Out(s, left)), LinkOf(Out(s, !left)))
  }

  function Through(s: State): C.System {
    C.System(s.a, s.b, LinkOf(s.ab), LinkOf(s.ba))
  }

  function WriteOf(codec: Codec, p: C.Packet): Pair.Step {
    Pair.Out(Outbound.WriteText(TextFrame(codec, p.msg).data))
  }

  function AfterWrite(codec: Codec, way: Way, p: C.Packet): Way
    requires Pair.Enabled(way.pair, WriteOf(codec, p))
  {
    Way(Pair.Do(way.pair, WriteOf(codec, p)), AddMessage(way.load, |way.pair.out.accepted|, p))
  }

  function AfterReceive(way: Way): Way
    requires Pair.Enabled(way.pair, Pair.RECEIVES)
  {
    Way(Pair.Do(way.pair, Pair.RECEIVES), way.load)
  }

  predicate Enabled(codec: Codec, s: State, step: Step) {
    match step
    case Session(left, st) =>
      && !st.Read? && C.Enabled(ViewOf(s, left), st)
      && var w := Written(ViewOf(s, left), st);
      (w.Some? ==> Pair.Enabled(Out(s, left).pair, WriteOf(codec, w.value)))
    case Receive(left) => Pair.Enabled(Out(s, !left).pair, Pair.RECEIVES)
    case Carry(left, t) =>
      Pair.Enabled(Out(s, left).pair, t) && Pair.IsOwn(t)
  }

  function Do(codec: Codec, s: State, step: Step): State
    requires Enabled(codec, s, step)
  {
    match step
    case Session(left, st) =>
      var v, way := ViewOf(s, left), Out(s, left);
      var way' := match Written(v, st) case None => way case Some(p) => AfterWrite(codec, way, p);
      Put(s, left, C.Do(v, st).me, way', Out(s, !left))
    case Receive(left) =>
      var way := Out(s, !left);
      var parsed := ParseBytes(codec, way.pair.inn.cc.input[0]);
      Put(s, left, C.Start(Me(s, left), Taken(way), parsed), Out(s, left), AfterReceive(way))
    case Carry(left, t) =>
      var way := Out(s, left);
      Put(s, left, Me(s, left), Way(Pair.Do(way.pair, t), way.load), Out(s, !left))
  }

  /** The message taken next, by its number. */
  function Taken(way: Way): nat {
    var n, wire := |way.pair.inn.received|, Pair.Wire(way.pair);
    if n < |wire| then Place(way.load.at, wire[n]) else 0
  }

  predicate Runs(codec: Codec, s: State, run: seq<Step>)
    decreases run
  {
    run == [] || (Enabled(codec, s, run[0]) && Runs(codec, Do(codec, s, run[0]), run[1..]))
  }

  function After(codec: Codec, s: State, run: seq<Step>): State
    requires Runs(codec, s, run)
    decreases run
  {
    if run == [] then s else After(codec, Do(codec, s, run[0]), run[1..])
  }

  // ------------------------------------------------------------ the refinement

  ghost predicate WayOk(codec: Codec, way: Way) {
    Pair.Reachable(way.pair) && Pair.Sound(way.pair) && Loaded(codec, way.load, Pair.Abstract(way.pair))
  }

  ghost predicate Good(codec: Codec, s: State) {
    WayOk(codec, s.ab) && WayOk(codec, s.ba)
  }

  lemma OwnStepIsQuiet(codec: Codec, way: Way, t: Pair.Step)
    requires WayOk(codec, way) && Pair.Enabled(way.pair, t) && Pair.IsOwn(t)
    ensures var way' := Way(Pair.Do(way.pair, t), way.load); WayOk(codec, way') && LinkOf(way') == LinkOf(way)
  {
    var f := Pair.OwnStepIsQuiet(way.pair, t);
    if f.Some? {
      OtherAccepted(codec, way.load, Pair.Abstract(way.pair), f.value);
    }
  }

  lemma WriteIsAccepted(codec: Codec, way: Way, p: C.Packet)
    requires WayOk(codec, way) && Pair.Enabled(way.pair, WriteOf(codec, p))
    ensures WayOk(codec, AfterWrite(codec, way, p))
    ensures LinkOf(AfterWrite(codec, way, p)) == Move(LinkOf(way), Accept(p))
  {
    Pair.WriteIsAccepted(way.pair, TextFrame(codec, p.msg).data);
    MessageAccepted(codec, way.load, Pair.Abstract(way.pair), p);
  }

  /** The session's reader taking a data package is its reading of the next message. */
  lemma ReceiveIsRead(codec: Codec, v: C.View, way: Way)
    requires Faithful(codec) && WayOk(codec, way) && Pair.Enabled(way.pair, Pair.RECEIVES) && v.inn == LinkOf(way)
    ensures WayOk(codec, AfterReceive(way))
    ensures ReadsAs(v, Taken(way), ParseBytes(codec, way.pair.inn.cc.input[0]), LinkOf(AfterReceive(way)))
  {
    var i := Pair.ReceiveDeliversNext(way.pair);
    SessionReads(codec, v, way.load, Pair.Abstract(way.pair), i);
  }

  /** The label of module Correlation a step amounts to; none for a transport's own steps. */
  function LabelOf(s: State, step: Step): Option<C.Label> {
    match step
    case Session(left, st) => Some(C.Label(left, st))
    case Receive(left) => Some(C.Label(left, C.Read(Taken(Out(s, !left)))))
    case Carry(_, _) => None
  }

  lemma StepRefines(codec: Codec, s: State, step: Step)
    requires Faithful(codec) && Good(codec, s) && Enabled(codec, s, step)
    ensures Good(codec, Do(codec, s, step))
    ensures match LabelOf(s, step)
            case None => Through(Do(codec, s, step)) == Through(s)
            case Some(l) => C.CanStep(Through(s), l) && Through(Do(codec, s, step)) == C.Next(Through(s), l)
  {
    match step
    case Session(left, st) => SessionRefines(codec, s, left, st);
    case Receive(left) =>
      ReceiveIsRead(codec, ViewOf(s, left), Out(s, !left));
    case Carry(left, t) => OwnStepIsQuiet(codec, Out(s, left), t);
  }

  lemma SessionRefines(codec: Codec, s: State, left: bool, st: C.Step)
    requires Good(codec, s) && Enabled(codec, s, Session(left, st))
    ensures var s' := Do(codec, s, Session(left, st));
            Good(codec, s') && C.CanStep(Through(s), C.Label(left, st))
            && Through(s') == C.Next(Through(s), C.Label(left, st))
  {
    var v := ViewOf(s, left);
    SessionStep(v, st);
    var w := Written(v, st);
    if w.Some? {
      WriteIsAccepted(codec, Out(s, left), w.value);
    }
  }

  lemma InitialIsGood(codec: Codec)
    ensures Good(codec, Initial()) && Through(Initial()) == C.Initial()
  {
    var way := Initial().ab;
    assert Pair.Arrives([], way.pair);
    assert Pair.Wire(way.pair) == [];
    assert Pair.Abstract(way.pair) == Link([], {});
    assert LinkOf(way) == Link([], {});
  }

  lemma {:induction false} RunRefines(codec: Codec, s: State, run: seq<Step>) returns (labels: seq<C.Label>)
    requires Faithful(codec) && Good(codec, s) && Runs(codec, s, run)
    ensures C.Runs(Through(s), labels) && C.After(Through(s), labels) == Through(After(codec, s, run))
    decreases run
  {
    if run == [] {
      labels := [];
    } else {
      StepRefines(codec, s, run[0]);
      var rest := RunRefines(codec, Do(codec, s, run[0]), run[1..]);
      match LabelOf(s, run[0]) {
        case None => labels := rest;
        case Some(l) =>
          C.RunCons(Through(s), l, rest);
          labels := [l] + rest;
      }
    }
  }

  /** End-to-end correlation with the WebSocket transports in between, in every run and while
      they are being closed. */
  lemma CorrelatedOverWebsockets(codec: Codec, run: seq<Step>, left: bool)
    requires Faithful(codec) && Runs(codec, Initial(), run)
    ensures C.Correlated(Through(After(codec, Initial(), run)), left)
  {
    InitialIsGood(codec);
    var labels := RunRefines(codec, Initial(), run);
    C.EndToEndCorrelation(labels, left);
  }
}
