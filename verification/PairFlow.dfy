/**
 What crosses a pair of WebSocket transports, text and audio alike: everything the receiving side
 hands on was written by the other side, kind by kind in the order of the wire.
 */
module PairFlow {
  import opened Frames
  import opened WebsocketPair
  import Inbound
  import Outbound
  import OutboundFlow

  lemma {:induction false} LastStep(s: State, run: seq<Step>, st: Step)
    requires Runs(s, run + [st])
    ensures Runs(s, run) && Enabled(After(s, run), st) && After(s, run + [st]) == Do(After(s, run), st)
    decreases run
  {
    if run == [] {
      assert run + [st] == [st] && [st][1..] == [];
    } else {
      assert (run + [st])[0] == run[0] && (run + [st])[1..] == run[1..] + [st];
      LastStep(Do(s, run[0]), run[1..], st);
    }
  }

  /** The frames on the socket, in the order they were written to it. */
  function Socket(out: Outbound.State, n: nat): seq<Frame>
    requires Outbound.InRange(out.sent, |out.accepted|) && n <= |out.sent|
  {
    Outbound.FramesAt(out.accepted, out.sent[..n])
  }

  /** The receiving side has read the frames of this kind of the consumed part of the socket. */
  predicate ReadIs(s: State, kind: Kind) {
    && Outbound.InRange(s.out.sent, |s.out.accepted|)
    && s.pos <= |s.out.sent|
    && Select(s.inn.read, kind) == Select(Socket(s.out, s.pos), kind)
  }

  lemma OutKeeps(s: State, o: Outbound.Step, kind: Kind)
    requires ReadIs(s, kind) && Enabled(s, Out(o))
    requires Outbound.InRange(Do(s, Out(o)).out.sent, |Do(s, Out(o)).out.accepted|)
    ensures ReadIs(Do(s, Out(o)), kind)
  {
    var s' := Do(s, Out(o));
    OutShape(s.out, o);
    assert Socket(s'.out, s.pos) == Socket(s.out, s.pos);
  }

  lemma InKeeps(s: State, i: Inbound.Step, kind: Kind)
    requires ReadIs(s, kind) && Enabled(s, In(i))
    ensures ReadIs(Do(s, In(i)), kind)
  {
  }

  lemma CarryKeeps(s: State, kind: Kind)
    requires ReadIs(s, kind) && Enabled(s, Carry) && (kind == Text || kind == Binary)
    ensures ReadIs(Do(s, Carry), kind)
  {
    var f := NextFrame(s);
    assert Socket(s.out, s.pos + 1) == Socket(s.out, s.pos) + [f];
    SelectSplits(Socket(s.out, s.pos), [f], kind);
    SelectSplits(s.inn.read, [f], kind);
  }

  /** The steps of the sending side. */
  function Outs(run: seq<Step>): seq<Outbound.Step> {
    if run == [] then []
    else
      var st := run[|run| - 1];
      Outs(run[..|run| - 1]) + (if st.Out? then [st.o] else [])
  }

  /** Arrived(s, run): the sending side did its part of the run, and what was read of each kind
      of data is what the socket carried. */
  ghost predicate Arrived(s: State, run: seq<Step>) {
    && Outbound.Runs(Outbound.Initial(), Outs(run))
    && Outbound.After(Outbound.Initial(), Outs(run)) == s.out
    && ReadIs(s, Text) && ReadIs(s, Binary)
  }

  lemma StepKeepsArrived(s: State, st: Step, run: seq<Step>)
    requires Arrived(s, run) && Enabled(s, st) && Outbound.InRange(Do(s, st).out.sent, |Do(s, st).out.accepted|)
    ensures Arrived(Do(s, st), run + [st])
  {
    assert (run + [st])[..|run|] == run;
    match st
    case Out(o) =>
      OutboundFlow.RunsExtend(Outbound.Initial(), Outs(run), o);
      OutKeeps(s, o, Text);
      OutKeeps(s, o, Binary);
    case In(i) =>
      assert Outs(run + [st]) == Outs(run);
      InKeeps(s, i, Text);
      InKeeps(s, i, Binary);
    case Carry =>
      assert Outs(run + [st]) == Outs(run);
      CarryKeeps(s, Text);
      CarryKeeps(s, Binary);
  }

  lemma {:induction false} ReadIsSocket(run: seq<Step>)
    requires Runs(Initial(), run)
    ensures Arrived(After(Initial(), run), run)
    decreases |run|
  {
    if run != [] {
      var past, st := run[..|run| - 1], run[|run| - 1];
      assert run == past + [st];
      LastStep(Initial(), past, st);
      ReadIsSocket(past);
      InitialIsGood();
      RunKeepsGood(Initial(), run);
      SentInRange(After(Initial(), run).out);
      StepKeepsArrived(After(Initial(), past), st, past);
    }
  }

  function Consumed(run: seq<Step>): nat {
    if run == [] then 0 else (if run[0].Carry? then 1 else 0) + Consumed(run[1..])
  }

  /** Each frame is taken from the socket once, control frames too. */
  lemma {:induction false} CarriesConsume(s: State, run: seq<Step>)
    requires Runs(s, run)
    ensures After(s, run).pos == s.pos + Consumed(run)
    decreases run
  {
    if run != [] {
      CarriesConsume(Do(s, run[0]), run[1..]);
    }
  }

  lemma SelectPrefix(fs: seq<Frame>, gs: seq<Frame>, kind: Kind)
    requires fs <= gs
    ensures Select(fs, kind) <= Select(gs, kind)
  {
    assert gs == fs + gs[|fs|..];
    SelectSplits(fs, gs[|fs|..], kind);
  }

  lemma FlattenPrefix(ds: seq<Bytes>, es: seq<Bytes>)
    requires ds <= es
    ensures Flatten(ds) <= Flatten(es)
  {
    assert es == ds + es[|ds|..];
    FlattenSplits(ds, es[|ds|..]);
  }

  lemma HandedOn(inn: Inbound.State)
    requires Inbound.Good(inn)
    ensures inn.received <= Select(inn.read, Text) && inn.audio <= Flatten(Select(inn.read, Binary))
  {
  }

  lemma CrossesSocket(s: State)
    requires ReadIs(s, Text) && ReadIs(s, Binary)
    ensures Select(s.inn.read, Text) <= Select(Socket(s.out, |s.out.sent|), Text)
    ensures Flatten(Select(s.inn.read, Binary)) <= Flatten(Select(Socket(s.out, |s.out.sent|), Binary))
  {
    var consumed, all := Socket(s.out, s.pos), Socket(s.out, |s.out.sent|);
    assert consumed <= all;
    SelectPrefix(consumed, all, Text);
    SelectPrefix(consumed, all, Binary);
    FlattenPrefix(Select(consumed, Binary), Select(all, Binary));
  }

  lemma SocketIsWritten(run: seq<Outbound.Step>)
    requires Outbound.Runs(Outbound.Initial(), run)
    requires Outbound.Undisturbed(Outbound.After(Outbound.Initial(), run))
    ensures var out := Outbound.After(Outbound.Initial(), run);
            && Outbound.InRange(out.sent, |out.accepted|)
            && Select(Socket(out, |out.sent|), Text) <= OutboundFlow.TextsWritten(run)
            && Flatten(Select(Socket(out, |out.sent|), Binary)) <= Flatten(OutboundFlow.AudioPumped(run))
  {
    var out := Outbound.After(Outbound.Initial(), run);
    Outbound.WireIsPrefix(run);
    OutboundFlow.AcceptedIsWritten(run);
    assert out.sent[..|out.sent|] == out.sent;
    var all := Socket(out, |out.sent|);
    SelectPrefix(all, out.accepted, Text);
    SelectPrefix(all, out.accepted, Binary);
    FlattenPrefix(Select(all, Binary), Select(out.accepted, Binary));
  }

  /** In every run: the session at one end receives a prefix of the texts, and its audio side a
      prefix of the audio bytes, in the order the other end put them on the socket. Before any
      Close these are prefixes of the texts written and of the audio pumped there. */
  lemma MediaArrivesInOrder(run: seq<Step>)
    requires Runs(Initial(), run)
    ensures var s := After(Initial(), run);
            && Outbound.InRange(s.out.sent, |s.out.accepted|)
            && s.inn.received <= Select(Socket(s.out, |s.out.sent|), Text)
            && s.inn.audio <= Flatten(Select(Socket(s.out, |s.out.sent|), Binary))
            && (Outbound.Undisturbed(s.out) ==>
                 && s.inn.received <= OutboundFlow.TextsWritten(Outs(run))
                 && s.inn.audio <= Flatten(OutboundFlow.AudioPumped(Outs(run))))
  {
    var s := After(Initial(), run);
    ReadIsSocket(run);
    PairInboundGood(run);
    HandedOn(s.inn);
    CrossesSocket(s);
    if Outbound.Undisturbed(s.out) {
      SocketIsWritten(Outs(run));
    }
  }

  lemma PairInboundGood(run: seq<Step>)
    requires Runs(Initial(), run)
    ensures Inbound.Good(After(Initial(), run).inn)
  {
    InitialIsGood();
    RunKeepsGood(Initial(), run);
  }

  // ------------------------------------------------------------ one message across

  /** Both sides at rest, and the socket consumed. */
  predicate Rests(s: State) {
    OutboundFlow.Calm(s.out) && Inbound.Quiet(s.inn) && s.pos == |s.out.sent|
  }

  lemma Prepend(s: State, st: Step, rest: seq<Step>) returns (run: seq<Step>)
    requires Enabled(s, st) && Runs(Do(s, st), rest)
    ensures Runs(s, run) && After(s, run) == After(Do(s, st), rest)
  {
    run := [st] + rest;
    assert run[0] == st && run[1..] == rest;
  }

  /** What the sending side does alone, and what the receiving side does alone. */
  lemma {:induction false} OutAlone(s: State, outs: seq<Outbound.Step>, rest: seq<Step>) returns (run: seq<Step>)
    requires Outbound.Runs(s.out, outs) && Runs(s.(out := Outbound.After(s.out, outs)), rest)
    ensures Runs(s, run) && After(s, run) == After(s.(out := Outbound.After(s.out, outs)), rest)
    decreases outs
  {
    if outs == [] {
      assert s.(out := Outbound.After(s.out, outs)) == s;
      run := rest;
    } else {
      var s' := Do(s, Out(outs[0]));
      assert s'.(out := Outbound.After(s'.out, outs[1..])) == s.(out := Outbound.After(s.out, outs));
      run := OutAlone(s', outs[1..], rest);
      run := Prepend(s, Out(outs[0]), run);
    }
  }

  lemma {:induction false} InAlone(s: State, ins: seq<Inbound.Step>) returns (run: seq<Step>)
    requires Inbound.Runs(s.inn, ins) && Inbound.ReadFreeRun(ins)
    ensures Runs(s, run) && After(s, run) == s.(inn := Inbound.After(s.inn, ins))
    decreases ins
  {
    if ins == [] {
      run := [];
      assert s.(inn := Inbound.After(s.inn, ins)) == s;
    } else {
      assert !ins[0].ReadFrame?;
      var s' := Do(s, In(ins[0]));
      run := InAlone(s', ins[1..]);
      assert s'.(inn := Inbound.After(s'.inn, ins[1..])) == s.(inn := Inbound.After(s.inn, ins));
      run := Prepend(s, In(ins[0]), run);
    }
  }

  /** The state in which the frame has crossed the socket. */
  function Crossed(s: State, f: Frame): State
    requires Rests(s)
  {
    State(OutboundFlow.SentOut(s.out, f), s.inn.(read := s.inn.read + [f], hand := [f]), s.pos + 1)
  }

  lemma Carries(s: State, f: Frame, rest: seq<Step>) returns (run: seq<Step>)
    requires Rests(s) && IsData(f) && Runs(Crossed(s, f), rest)
    ensures var s' := s.(out := OutboundFlow.SentOut(s.out, f));
            Runs(s', run) && After(s', run) == After(Crossed(s, f), rest)
  {
    var s' := s.(out := OutboundFlow.SentOut(s.out, f));
    assert s'.out.sent[s.pos] == |s.out.accepted|;
    assert HasNext(s') && NextFrame(s') == f;
    run := Prepend(s', Carry, rest);
  }

  /** A text one session writes reaches the session at the other end. */
  lemma TextCrosses(s: State, data: Bytes) returns (run: seq<Step>)
    requires Rests(s)
    ensures Runs(s, run)
    ensures After(s, run).inn.received == s.inn.received + [data] && Rests(After(s, run))
  {
    var f := Frame(Text, data);
    var ins := Inbound.TextHandedOn(Crossed(s, f).inn, data);
    run := InAlone(Crossed(s, f), ins);
    run := Carries(s, f, run);
    var outs := OutboundFlow.TextGoesOut(s.out, data);
    run := OutAlone(s, outs, run);
  }

  /** Audio the pump reads at one end reaches the audio side of the other. */
  lemma AudioCrosses(s: State, data: Bytes) returns (run: seq<Step>)
    requires Rests(s)
    ensures Runs(s, run)
    ensures After(s, run).inn.audio == s.inn.audio + data && Rests(After(s, run))
  {
    var f := Frame(Binary, data);
    var ins := Inbound.AudioHandedOn(Crossed(s, f).inn, data);
    run := InAlone(Crossed(s, f), ins);
    run := Carries(s, f, run);
    var outs := OutboundFlow.AudioGoesOut(s.out, data);
    run := OutAlone(s, outs, run);
  }
}
