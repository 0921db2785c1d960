/** A node's own list of waiting calls. */
module NodeCalls {
  import opened Common
  import opened Star

  datatype Result = Answer(payload: Payload) | NotConnected | NotSent | TimedOut | NoResult

  class Node {
    var connected: bool
    var counter: nat
    var pending: map<Rid, Option<Payload>>

    ghost predicate Valid()
      reads this
    {
      forall rid | rid in pending :: rid <= counter
    }

    constructor ()
      ensures Valid() && !connected && pending == map[]
    {
      connected, counter, pending := false, 0, map[];
    }

    /** One call: `sent` is what the link made of the frame, `box` what arrived before the timeout.
        Its entry is taken off the list again, except when a frame to wait for could not be sent. */
    method Send(wait: bool, event: bool, sent: bool, box: Option<Payload>) returns (result: Result)
      requires Valid()
      modifies this
      ensures Valid() && connected == old(connected)
      ensures pending == if connected && wait && !event && !sent
                         then old(pending)[counter := None] else old(pending)
      ensures counter == old(counter) + if connected then 1 else 0
      ensures result.Answer? <==> connected && wait && !event && sent && box.Some?
      ensures result.Answer? ==> box == Some(result.payload)
      ensures result == NoResult <==> !wait || (connected && event && sent)
    {
      if !connected {
        return if wait then NotConnected else NoResult;
      }
      counter := counter + 1;
      var rid := counter;
      if wait && !event {
        pending := pending[rid := None];
      }
      if !sent {
        return if wait then NotSent else NoResult;
      }
      if !wait || event {
        return NoResult;
      }
      pending := pending[rid := box];
      result := if pending[rid].Some? then Answer(pending[rid].value) else TimedOut;
      pending := pending - {rid};
      assert pending == old(pending);
    }

    /** A reply from the hub; only a call that is still listed gets it. */
    method ResolvePending(rid: Rid, payload: Payload) returns (found: bool)
      requires Valid()
      modifies `pending
      ensures Valid() && found == (rid in old(pending))
      ensures pending == if found then old(pending)[rid := Some(payload)] else old(pending)
    {
      found := rid in pending;
      if found {
        pending := pending[rid := Some(payload)];
      }
    }

    /** The link is gone: every listed call is taken off and handed back to be woken. */
    method AbortPending() returns (doomed: set<Rid>)
      requires Valid()
      modifies `pending
      ensures Valid() && pending == map[] && doomed == old(pending.Keys)
    {
      doomed := pending.Keys;
      pending := map[];
    }
  }

  /** A list only shrinks again when the link drops: n failed calls leave n entries behind. */
  method FailedCallsPileUp(node: Node, n: nat)
    requires node.Valid() && node.connected
    modifies node
    ensures node.Valid() && |node.pending| == old(|node.pending|) + n
  {
    var i := 0;
    while i < n
      invariant 0 <= i <= n && node.Valid() && node.connected
      invariant |node.pending| == old(|node.pending|) + i
    {
      var result := node.Send(true, false, false, None);
      i := i + 1;
    }
  }
}
