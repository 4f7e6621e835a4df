/**
 The in-memory transport (transport/direct/channel.go): two cross-wired one-slot
 channels and one shared closer.
 */
module Direct {
  import opened Wrappers
  import opened Frames
  import opened Transport

  // ------------------------------------------------------------ the two directions

  /** A one-slot channel: what it accepted, how much of it was received, what it holds. */
  datatype Pipe = Pipe(accepted: seq<Bytes>, taken: nat, slot: seq<Bytes>)

  /** `ab` carries the left end's writes; `closes` counts close(c.c). */
  datatype State = State(ab: Pipe, ba: Pipe, closes: nat)

  datatype Step = Write(left: bool, data: Bytes) | WriteRefused(left: bool) | Read(left: bool) | Close(left: bool)

  function Initial(): State {
    State(Pipe([], 0, []), Pipe([], 0, []), 0)
  }

  /** The pipe a write at that end goes into. */
  function Out(s: State, left: bool): Pipe {
    if left then s.ab else s.ba
  }

  function WithOut(s: State, left: bool, p: Pipe): State {
    if left then s.(ab := p) else s.(ba := p)
  }

  /** The select of Write takes any ready case: with room and the closer closed both
      a write and a refusal are possible. */
  predicate Enabled(s: State, st: Step) {
    match st
    case Write(left, _) => Out(s, left).slot == []
    case WriteRefused(_) => s.closes > 0
    case Read(left) => Out(s, !left).slot != []
    case Close(_) => true
  }

  function Do(s: State, st: Step): State
    requires Enabled(s, st)
  {
    match st
    case Write(left, data) =>
      var p := Out(s, left);
      WithOut(s, left, p.(accepted := p.accepted + [data], slot := p.slot + [data]))
    case WriteRefused(_) => s
    case Read(left) =>
      var p := Out(s, !left);
      WithOut(s, !left, p.(taken := p.taken + 1, slot := p.slot[1..]))
    case Close(_) => if s.closes > 0 then s else s.(closes := s.closes + 1)
  }

  predicate Runs(s: State, run: seq<Step>)
    decreases run
  {
    run == [] || (Enabled(s, run[0]) && Runs(Do(s, run[0]), run[1..]))
  }

  function After(s: State, run: seq<Step>): State
    requires Runs(s, run)
    decreases run
  {
    if run == [] then s else After(Do(s, run[0]), run[1..])
  }

  predicate PipeOk(p: Pipe) {
    p.taken <= |p.accepted| && p.slot == p.accepted[p.taken..] && |p.slot| <= 1
  }

  predicate Good(s: State) {
    PipeOk(s.ab) && PipeOk(s.ba) && s.closes <= 1
  }

  /** What the peer received through a pipe. */
  function Received(p: Pipe): seq<Bytes>
    requires PipeOk(p)
  {
    p.accepted[..p.taken]
  }

  function Abstract(p: Pipe): Link<Bytes> {
    Link(p.accepted, set i | i in Upto(p.taken))
  }

  function Amounts(s: State, st: Step, left: bool): LinkStep<Bytes> {
    match st
    case Write(l, data) => if l == left then Accept(data) else Refuse
    case Read(l) => if l != left then Deliver(Out(s, left).taken) else Refuse
    case _ => Refuse
  }

  /** Refinement: in each direction every step is a step of the contract, and a read
      hands over the very package delivered. */
  lemma DirectMeetsContract(s: State, st: Step, left: bool)
    requires Good(s) && Enabled(s, st)
    ensures Good(Do(s, st))
    ensures var move := Amounts(s, st, left);
            && CanMove(Abstract(Out(s, left)), move)
            && Abstract(Out(Do(s, st), left)) == Move(Abstract(Out(s, left)), move)
            && (move.Deliver? ==> Out(s, left).slot == [Out(s, left).accepted[move.i]])
  {
    var n := Out(s, left).taken;
    UptoStep(n);
    assert n !in Upto(n);
  }

  /** Over whole runs: in order, complete but for at most one package in flight, and the
      shared channel is closed at most once, from either end. */
  lemma {:induction false} DirectIsOrdered(s: State, run: seq<Step>)
    requires Good(s) && Runs(s, run)
    ensures var s' := After(s, run);
            && Good(s')
            && s.closes <= s'.closes <= 1
            && (forall left :: Received(Out(s', left)) <= Out(s', left).accepted
                 && Out(s', left).accepted == Received(Out(s', left)) + Out(s', left).slot
                 && |Out(s', left).slot| <= 1
                 && Out(s, left).accepted <= Out(s', left).accepted)
    decreases run
  {
    if run != [] {
      DirectMeetsContract(s, run[0], true);
      DirectIsOrdered(Do(s, run[0]), run[1..]);
    }
  }

  /** The packages that reads of a pipe hand over in a run, in order. */
  function Handed(s: State, run: seq<Step>, left: bool): seq<Bytes>
    requires Runs(s, run)
    decreases run
  {
    if run == [] then []
    else HandedNow(s, run[0], left) + Handed(Do(s, run[0]), run[1..], left)
  }

  function HandedNow(s: State, st: Step, left: bool): seq<Bytes> {
    if st == Read(!left) && Out(s, left).slot != [] then [Out(s, left).slot[0]] else []
  }

  /** One step hands over the next package accepted, or none. */
  lemma StepHandsOver(s: State, st: Step, left: bool)
    requires Good(s) && Enabled(s, st)
    ensures Good(Do(s, st))
    ensures var p, p', now := Out(s, left), Out(Do(s, st), left), HandedNow(s, st, left);
            && p.accepted <= p'.accepted && p'.taken == p.taken + |now| <= |p'.accepted|
            && now == p'.accepted[p.taken..p'.taken]
  {
    DirectMeetsContract(s, st, left);
    if st == Read(!left) {
      assert Out(s, left).slot == [Out(s, left).accepted[Out(s, left).taken]];
    }
  }

  lemma SlicesJoin(all: seq<Bytes>, part: seq<Bytes>, from: nat, mid: nat, to: nat)
    requires from <= mid <= to <= |all| && mid <= |part| && part <= all
    ensures part[from..mid] + all[mid..to] == all[from..to]
  {
  }

  /** In each direction the packages handed over are those accepted and not handed over
      before, in order, but for the one still in flight. */
  lemma {:induction false} ReadsHandOverWrites(s: State, run: seq<Step>, left: bool)
    requires Good(s) && Runs(s, run)
    ensures var p, p' := Out(s, left), Out(After(s, run), left);
            && PipeOk(p') && p.accepted <= p'.accepted && p.taken <= p'.taken
            && Handed(s, run, left) == p'.accepted[p.taken..p'.taken]
    decreases run
  {
    if run != [] {
      StepHandsOver(s, run[0], left);
      ReadsHandOverWrites(Do(s, run[0]), run[1..], left);
      var p, p1, p' := Out(s, left), Out(Do(s, run[0]), left), Out(After(s, run), left);
      SlicesJoin(p'.accepted, p1.accepted, p.taken, p1.taken, p'.taken);
    }
  }

  /** From the start: what the other end has received is a prefix of what was accepted. */
  lemma ReceivedIsPrefix(run: seq<Step>, left: bool)
    requires Runs(Initial(), run)
    ensures var p := Out(After(Initial(), run), left);
            Handed(Initial(), run, left) <= p.accepted
            && p.accepted == Handed(Initial(), run, left) + p.slot && |p.slot| <= 1
  {
    ReadsHandOverWrites(Initial(), run, left);
  }

  lemma {:induction false} DirectRefinesLink(s: State, run: seq<Step>, left: bool) returns (moves: seq<LinkStep<Bytes>>)
    requires Good(s) && Runs(s, run)
    ensures Moves(Abstract(Out(s, left)), moves)
    ensures MoveAll(Abstract(Out(s, left)), moves) == Abstract(Out(After(s, run), left))
    decreases run
  {
    if run == [] {
      moves := [];
    } else {
      DirectMeetsContract(s, run[0], left);
      var rest := DirectRefinesLink(Do(s, run[0]), run[1..], left);
      moves := [Amounts(s, run[0], left)] + rest;
      assert moves[1..] == rest;
    }
  }

  // ------------------------------------------------------------------- the objects

  /** A Go channel of DataPackages with capacity one. */
  class Channel {
    var slot: seq<Bytes>
    ghost var pipe: Pipe

    ghost predicate Valid()
      reads this
    {
      PipeOk(pipe) && slot == pipe.slot
    }

    constructor ()
      ensures Valid() && pipe == Pipe([], 0, [])
    {
      slot := [];
      pipe := Pipe([], 0, []);
    }
  }

  class Closer {
    var done: bool
    ghost var closes: nat // executions of close(c.c)

    ghost predicate Valid()
      reads this
    {
      closes == if done then 1 else 0
    }

    constructor ()
      ensures Valid() && closes == 0
    {
      done := false;
      closes := 0;
    }

    method Close()
      requires Valid()
      modifies this
      ensures Valid() && closes == 1
    {
      if !done {
        done := true;
        closes := closes + 1;
      }
    }
  }

  datatype WriteResult = Accepted | TransportClosed | WouldBlock

  class DirectTransport {
    const a: Channel // written
    const b: Channel // read
    const c: Closer

    ghost predicate Valid()
      reads this, a, b, c
    {
      a != b && a.Valid() && b.Valid() && c.Valid()
    }

    /** Both directions as seen from this end. */
    ghost function Model(): State
      reads this, a, b, c
    {
      State(a.pipe, b.pipe, c.closes)
    }

    constructor (a: Channel, b: Channel, c: Closer)
      ensures this.a == a && this.b == b && this.c == c
    {
      this.a := a;
      this.b := b;
      this.c := c;
    }

    method Close()
      requires Valid()
      modifies c
      ensures Valid() && Model() == Do(old(Model()), Step.Close(true))
    {
      c.Close();
    }

    /** `preferClosed` is the choice select makes when both cases are ready. */
    method Write(data: Bytes, preferClosed: bool) returns (r: WriteResult)
      requires Valid()
      modifies a
      ensures Valid()
      ensures r == Accepted <==> old(a.slot) == [] && !(c.done && preferClosed)
      ensures r == TransportClosed <==> c.done && (preferClosed || old(a.slot) != [])
      ensures Model() == if r == Accepted then Do(old(Model()), Step.Write(true, data)) else old(Model())
    {
      if c.done && (preferClosed || a.slot != []) {
        r := TransportClosed;
      } else if a.slot == [] {
        a.slot := [data];
        a.pipe := a.pipe.(accepted := a.pipe.accepted + [data], slot := a.pipe.slot + [data]);
        r := Accepted;
      } else {
        r := WouldBlock;
      }
    }

    /** A receive on ReadChan; None when it would block. */
    method Receive() returns (r: Option<Bytes>)
      requires Valid()
      modifies b
      ensures Valid()
      ensures r == if old(b.slot) == [] then None else Some(old(b.slot)[0])
      ensures Model() == if r.Some? then Do(old(Model()), Step.Read(true)) else old(Model())
    {
      if b.slot == [] {
        r := None;
      } else {
        r := Some(b.slot[0]);
        b.pipe := b.pipe.(taken := b.pipe.taken + 1, slot := b.pipe.slot[1..]);
        b.slot := b.slot[1..];
      }
    }
  }

  /** New: what one end writes the other reads, and they share the closer. */
  method New() returns (t1: DirectTransport, t2: DirectTransport)
    ensures t1.Valid() && t2.Valid()
    ensures t1.a == t2.b && t1.b == t2.a && t1.c == t2.c
    ensures t1.Model() == Initial() && fresh(t1.a) && fresh(t1.b) && fresh(t1.c)
  {
    var a := new Channel();
    var b := new Channel();
    var c := new Closer();
    t1 := new DirectTransport(a, b, c);
    t2 := new DirectTransport(b, a, c);
  }
}
