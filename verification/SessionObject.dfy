/**
 The session as the object the source updates in place (session.go, session_state.go):
 its state field, closeOnce, the two closable channels and the list of close handlers.
 Each method, run without interference, is a run of the step system in module Lifecycle.
 */
module SessionObject {
  import opened Wrappers
  import opened Lifecycle

  /** A registered close handler, by identity. */
  type CloseHandler = nat

  /** Some run leads from one state of the lifecycle to the other. */
  ghost predicate Leads(life: Lifecycle.State, life': Lifecycle.State) {
    exists run :: Lifecycle.Runs(life, run) && Lifecycle.After(life, run) == life'
  }

  lemma LifeAfterClose(life: Lifecycle.State, hasCallback: bool) returns (life': Lifecycle.State)
    requires Lifecycle.Good(life) && !life.gate.once.Held?
    ensures Lifecycle.Good(life') && Leads(life, life')
    ensures life' == life.(closers := life.closers + [Closer(false, hasCallback, Await)],
                           gate := Lifecycle.GateAfterClose(life, hasCallback))
  {
    var run := Lifecycle.DoCloseAlone(life, hasCallback);
    Lifecycle.RunKeepsGood(life, run);
    life' := Lifecycle.After(life, run);
  }

  lemma FinalizedLife(life: Lifecycle.State) returns (life': Lifecycle.State)
    requires Lifecycle.Good(life) && life.fin.pc == Listening && Lifecycle.Triggered(life)
    ensures Lifecycle.Good(life') && Leads(life, life')
    ensures life' == life.(fin := Finalizer(Report, 1, Upto(life.handlers.registered)),
                           field := SetState(SetState(life.field, Closing), Closed))
  {
    var run := Lifecycle.FinalizeAlone(life);
    Lifecycle.RunKeepsGood(life, run);
    life' := Lifecycle.After(life, run);
  }

  class Session {
    var state: SessionState
    var closeOnceDone: bool
    var triggerClosed: bool
    var finalizedClosed: bool
    var onCloseHandlers: seq<CloseHandler>
    ghost var called: seq<CloseHandler>
    ghost var callbacks: nat               // close callbacks run
    ghost var life: Lifecycle.State

    ghost predicate Valid()
      reads this
    {
      && Lifecycle.Good(life)
      && life.field.now == state
      && life.handlers.registered == |onCloseHandlers|
      && (life.gate.triggerCloses > 0) == triggerClosed
      && (life.fin.closes > 0) == finalizedClosed
      && !life.gate.once.Held?
      && life.gate.once.Spent? == closeOnceDone
      && |life.fin.calls| == |called|
      && |life.gate.callbacks| == callbacks
    }

    constructor (audioClose: CloseHandler)
      ensures Valid() && life == Lifecycle.Initial()
      ensures state == Inactive && onCloseHandlers == [audioClose] && called == [] && callbacks == 0
    {
      state := Inactive;
      closeOnceDone, triggerClosed, finalizedClosed := false, false, false;
      onCloseHandlers := [audioClose];
      called, callbacks := [], 0;
      life := Lifecycle.Initial();
      new;
      Lifecycle.InitialIsGood();
    }

    /** OnClose. */
    method OnClose(cb: CloseHandler)
      requires Valid()
      modifies this
      ensures Valid() && onCloseHandlers == old(onCloseHandlers) + [cb]
      ensures life == Lifecycle.Do(old(life), Register)
      ensures state == old(state) && called == old(called)
    {
      onCloseHandlers := onCloseHandlers + [cb];
      Lifecycle.StepKeepsGood(life, Register);
      life := Lifecycle.Do(life, Register);
    }

    /** doClose, for a caller of Close. The callback runs at most once per session. */
    method DoClose(hasCallback: bool)
      requires Valid()
      modifies this
      ensures Valid()
      ensures state == old(state) && onCloseHandlers == old(onCloseHandlers) && called == old(called)
      ensures var passes := old(state) != Closing && old(state) != Closed && !old(closeOnceDone);
              && triggerClosed == (old(triggerClosed) || passes)
              && callbacks == old(callbacks) + (if hasCallback && passes then 1 else 0)
      ensures life == old(life).(closers := old(life).closers + [Closer(false, hasCallback, Await)],
                                 gate := Lifecycle.GateAfterClose(old(life), hasCallback))
      ensures Leads(old(life), life)
    {
      life := LifeAfterClose(life, hasCallback);
      if state == Closed || state == Closing {
        return;
      }
      if !closeOnceDone {
        if hasCallback {
          callbacks := callbacks + 1;
        }
        triggerClosed := true;
        closeOnceDone := true;
      }
    }

    /** finalize, entered once by the listener goroutine when the session is triggered. */
    method Finalize()
      requires Valid() && life.fin.pc == Listening && called == []
      requires Lifecycle.Triggered(life)
      modifies this
      ensures Valid() && finalizedClosed && state == Closed
      ensures called == old(onCloseHandlers) && onCloseHandlers == old(onCloseHandlers)
      ensures life == old(life).(fin := Finalizer(Report, 1, Upto(|called|)),
                                 field := SetState(SetState(old(life).field, Closing), Closed))
      ensures Leads(old(life), life)
    {
      ghost var finalized := FinalizedLife(life);
      state := Closing;
      var i := 0;
      while i < |onCloseHandlers|
        invariant 0 <= i <= |onCloseHandlers|
        invariant called == onCloseHandlers[..i]
        modifies this`called
      {
        called := called + [onCloseHandlers[i]];
        i := i + 1;
      }
      assert called == onCloseHandlers && |called| == old(life).handlers.registered;
      state := Closed;
      finalizedClosed := true;
      life := finalized;
      assert |life.fin.calls| == |called|;
    }
  }
}
