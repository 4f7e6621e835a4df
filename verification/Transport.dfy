/**
 The contract a session relies on (transport.go): whatever the peer receives was
 accepted by Write, and is received at most once. Order and completeness are not
 promised: a closing WebSocket transport reorders and drops.
 */
module Transport {
  import opened Wrappers

  /** One direction: what Write accepted, and which of it the peer has received. */
  datatype Link<M> = Link(sent: seq<M>, delivered: set<nat>)

  datatype LinkStep<M> = Accept(m: M) | Refuse | Deliver(i: nat)

  predicate CanMove<M>(l: Link<M>, st: LinkStep<M>) {
    st.Deliver? ==> st.i < |l.sent| && st.i !in l.delivered
  }

  function Move<M>(l: Link<M>, st: LinkStep<M>): Link<M>
    requires CanMove(l, st)
  {
    match st
    case Accept(m) => l.(sent := l.sent + [m])
    case Refuse => l
    case Deliver(i) => l.(delivered := l.delivered + {i})
  }

  predicate Moves<M>(l: Link<M>, run: seq<LinkStep<M>>)
    decreases run
  {
    run == [] || (CanMove(l, run[0]) && Moves(Move(l, run[0]), run[1..]))
  }

  function MoveAll<M>(l: Link<M>, run: seq<LinkStep<M>>): Link<M>
    requires Moves(l, run)
    decreases run
  {
    if run == [] then l else MoveAll(Move(l, run[0]), run[1..])
  }

  /** The deliveries of a run, in order. */
  function Deliveries<M>(run: seq<LinkStep<M>>): seq<nat> {
    if run == [] then []
    else (if run[0].Deliver? then [run[0].i] else []) + Deliveries(run[1..])
  }

  /** Nothing is received that was not accepted, and nothing twice. */
  lemma {:induction false} NoForgeryNoDuplication<M>(l: Link<M>, run: seq<LinkStep<M>>)
    requires Moves(l, run)
    requires forall i | i in l.delivered :: i < |l.sent|
    ensures l.sent <= MoveAll(l, run).sent
    ensures forall i | i in Deliveries(run) :: i < |MoveAll(l, run).sent| && i !in l.delivered
    ensures NoRepeats(Deliveries(run))
    ensures MoveAll(l, run).delivered == l.delivered + (set i | i in Deliveries(run))
    decreases run
  {
    if run != [] {
      NoForgeryNoDuplication(Move(l, run[0]), run[1..]);
    }
  }
}
