/**
 The pending-request table of one session as the object the source keeps
 (session_request.go): a map updated in place, entries with a one-slot channel each.
 */
module PendingTable {
  import opened Wrappers
  import opened Proto

  /** pendingRequest: its channel holds at most one response. */
  class PendingRequest {
    const id: string
    var ch: seq<Response>

    constructor (id: string)
      ensures this.id == id && ch == []
    {
      this.id := id;
      ch := [];
    }

    /** pr.ch <- resp, when the slot is free. */
    method Send(resp: Response)
      requires ch == []
      modifies this
      ensures ch == [resp]
    {
      ch := ch + [resp];
    }

    /** resp := <-pr.ch, when there is one. */
    method Receive() returns (resp: Response)
      requires ch != []
      modifies this
      ensures resp == old(ch)[0] && ch == old(ch)[1..]
    {
      resp := ch[0];
      ch := ch[1..];
    }
  }

  class Table {
    var pendingRequests: map<string, PendingRequest>
    ghost var registered: seq<PendingRequest>   // every newPendingRequest, in order
    ghost var resolved: set<PendingRequest>     // sent a response
    ghost var forgotten: set<PendingRequest>    // timed out

    ghost predicate FreshIds()
      reads this
    {
      forall i, j | 0 <= i < j < |registered| :: registered[i].id != registered[j].id
    }

    /** Between operations: every entry is under its own id with an empty channel, so the
        send inside the critical section finds its slot free; with fresh ids the entries
        are exactly the requests neither resolved nor timed out. */
    ghost predicate Valid()
      reads this, registered
    {
      && NoRepeats(registered)
      && (forall id | id in pendingRequests ::
        && pendingRequests[id] in registered
        && pendingRequests[id].id == id
        && pendingRequests[id].ch == []
        && pendingRequests[id] !in resolved + forgotten)
      && (FreshIds() ==>
        forall pr | pr in registered && pr !in resolved + forgotten ::
          pr.id in pendingRequests && pendingRequests[pr.id] == pr)
    }

    constructor ()
      ensures Valid() && pendingRequests == map[] && registered == []
    {
      pendingRequests := map[];
      registered, resolved, forgotten := [], {}, {};
    }

    /** newPendingRequest. */
    method New(id: string) returns (pr: PendingRequest)
      requires Valid()
      modifies this
      ensures Valid() && fresh(pr) && pr.id == id && pr.ch == []
      ensures pendingRequests == old(pendingRequests)[id := pr]
      ensures registered == old(registered) + [pr] && resolved == old(resolved) && forgotten == old(forgotten)
    {
      pr := new PendingRequest(id);
      pendingRequests := pendingRequests[id := pr];
      registered := registered + [pr];
      ghost var before := old(registered);
      assert forall x | x in before :: x in registered;
      if FreshIds() {
        forall i, j | 0 <= i < j < |before| ensures before[i].id != before[j].id {
          assert registered[i].id != registered[j].id;
        }
        assert old(FreshIds());
        forall x | x in before ensures x.id != id {
          var i :| 0 <= i < |before| && before[i] == x;
          assert registered[i].id != registered[|before|].id;
        }
      }
    }

    /** resolvePendingRequest. */
    method Resolve(resp: Response)
      requires Valid()
      modifies this, registered
      ensures Valid() && registered == old(registered) && forgotten == old(forgotten)
      ensures pendingRequests == old(pendingRequests) - {resp.response}
      ensures resp.response in old(pendingRequests) ==>
                var pr := old(pendingRequests)[resp.response];
                && pr.ch == [resp] && resolved == old(resolved) + {pr}
                && (forall x | x in registered && x != pr :: x.ch == old(x.ch))
      ensures resp.response !in old(pendingRequests) ==>
                resolved == old(resolved) && (forall x | x in registered :: x.ch == old(x.ch))
    {
      if resp.response in pendingRequests {
        var pr := pendingRequests[resp.response];
        pr.Send(resp);
        pendingRequests := pendingRequests - {resp.response};
        resolved := resolved + {pr};
        assert forall i, j | 0 <= i < j < |registered| && FreshIds() :: registered[i].id != registered[j].id;
        forall x | x in registered && x !in resolved + forgotten && FreshIds()
          ensures x.id in pendingRequests && pendingRequests[x.id] == x
        {
          assert x.id in old(pendingRequests) && old(pendingRequests)[x.id] == x;
        }
      }
    }

    /** The timeout branch of Request, for the request registered as pr. */
    method Forget(pr: PendingRequest)
      requires Valid() && pr in registered
      modifies this
      ensures Valid() && registered == old(registered) && resolved == old(resolved)
      ensures forgotten == old(forgotten) + {pr}
      ensures pendingRequests == old(pendingRequests) - {pr.id}
    {
      pendingRequests := pendingRequests - {pr.id};
      forgotten := forgotten + {pr};
      forall x | x in registered && x !in resolved + forgotten && FreshIds()
        ensures x.id in pendingRequests && pendingRequests[x.id] == x
      {
        assert x.id in old(pendingRequests) && old(pendingRequests)[x.id] == x;
        var i :| 0 <= i < |registered| && registered[i] == x;
        var j :| 0 <= j < |registered| && registered[j] == pr;
        assert i < j ==> registered[i].id != registered[j].id;
        assert j < i ==> registered[j].id != registered[i].id;
      }
    }
  }
}
