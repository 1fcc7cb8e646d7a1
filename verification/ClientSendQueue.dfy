/**
 The send side of a client connection: a bounded FIFO of payloads with one asynchronous
 write at a time. Handlers run one after another on the connection's strand, in any order
 the outside world produces, including write completions that arrive after the stop.
 */
module ClientSendQueue {
  import opened Wrappers
  import opened Packet

  function TotalSize(queue: seq<Bytes>): nat {
    if queue == [] then 0 else |queue[0]| + TotalSize(queue[1..])
  }

  lemma {:induction false} TotalSizeAppend(queue: seq<Bytes>, payload: Bytes)
    ensures TotalSize(queue + [payload]) == TotalSize(queue) + |payload|
  {
    if queue == [] {
      assert [] + [payload] == [payload] && [payload][1..] == [];
    } else {
      TotalSizeAppend(queue[1..], payload);
      assert (queue + [payload])[1..] == queue[1..] + [payload];
    }
  }

  /**
   Both forms of the budget test refuse exactly what would lift the total above a cap that is set;
   they differ only on an empty payload when the queue is already above the cap.
   */
  lemma BudgetTests(max: nat, queued: nat, size: nat)
    ensures ExceedsQueueBudget(max, queued, size) <==> max > 0 && queued + size > max
    ensures max > 0 && size > Remaining(max, queued) <==> max > 0 && size > 0 && queued + size > max
  {
  }

  function Remaining(max: nat, queued: nat): nat {
    max - (if max < queued then max else queued)
  }

  predicate ExceedsQueueBudget(max: nat, queued: nat, incoming: nat) {
    max != 0 && (incoming > max || queued > max - incoming)
  }

  class Connection {
    const maxBytes: nat                 // 0 means unbounded
    var stopped: bool
    var finalized: bool                 // the stop has been carried out on the strand
    var queue: seq<Bytes>
    var queuedBytes: nat
    var writing: Option<Bytes>          // the buffer of the outstanding write, if any
    ghost var accepted: seq<Bytes>      // payloads admitted to the queue, in order
    ghost var written: seq<Bytes>       // payloads whose write completed, in order

    constructor (maxBytes: nat)
      ensures Valid() && this.maxBytes == maxBytes && !stopped && accepted == [] && written == []
    {
      this.maxBytes := maxBytes;
      stopped, finalized, queue, queuedBytes, writing, accepted, written := false, false, [], 0, None, [], [];
    }

    ghost predicate Valid()
      reads this
    {
      && queuedBytes == TotalSize(queue)
      && (maxBytes > 0 ==> queuedBytes <= maxBytes)
      && (finalized ==> stopped && queue == [])
      // what is queued is exactly what was accepted and not yet written
      && (!finalized ==> written + queue == accepted)
      // the outstanding write is of the queue's front; before a stop a non-empty queue is being written
      && (writing.Some? && !finalized ==> queue != [] && writing.value == queue[0])
      && (!stopped && queue != [] ==> writing.Some?)
      // a completion that is still to come continues the order, even after the queue was cleared
      && written + (if writing.Some? then [writing.value] else []) <= accepted
    }

    /** Start writing the front of the queue; never while another write is outstanding. */
    method DoWrite()
      requires writing.None? && !finalized && queue != []
      modifies this`writing
      ensures writing == Some(queue[0])
    {
      writing := Some(queue[0]);
    }

    /** The strand part of stopping. */
    method FinalizeStop()
      requires Valid() && stopped && !finalized
      modifies this`finalized, this`queue, this`queuedBytes
      ensures Valid() && finalized && queue == [] && queuedBytes == 0
    {
      queue := [];
      queuedBytes := 0;
      finalized := true;
    }

    /** Stop requested elsewhere: only the flag changes until the strand gets to it. */
    method RequestStop()
      requires Valid()
      modifies this`stopped
      ensures Valid() && stopped
    {
      stopped := true;
    }

    /** Stop from a handler on the strand: the first to raise the flag finalizes at once. */
    method StopOnStrand()
      requires Valid()
      modifies this`stopped, this`finalized, this`queue, this`queuedBytes
      ensures Valid() && stopped
      ensures finalized == (old(finalized) || !old(stopped))
      ensures old(stopped) ==> queue == old(queue) && queuedBytes == old(queuedBytes)
    {
      if !stopped {
        stopped := true;
        FinalizeStop();
      }
    }

    /** The posted part of async_send. */
    method HandleSend(payload: Bytes)
      requires Valid()
      modifies this
      ensures Valid() && written == old(written)
      ensures old(stopped) ==> accepted == old(accepted) && queue == old(queue) && stopped
      ensures !old(stopped) && maxBytes > 0 && old(queuedBytes) + |payload| > maxBytes ==>
        stopped && finalized && queue == [] && accepted == old(accepted)
      ensures !old(stopped) && (maxBytes > 0 ==> old(queuedBytes) + |payload| <= maxBytes) ==>
        !stopped && accepted == old(accepted) + [payload] && queue == old(queue) + [payload]
    {
      if stopped {
        return;
      }
      if maxBytes > 0 {
        var remaining := maxBytes - (if maxBytes < queuedBytes then maxBytes else queuedBytes);
        if |payload| > remaining {
          StopOnStrand();
          return;
        }
      }
      var idle := queue == [];
      TotalSizeAppend(queue, payload);
      queuedBytes := queuedBytes + |payload|;
      assert written + (queue + [payload]) == accepted + [payload];
      queue := queue + [payload];
      accepted := accepted + [payload];
      if idle {
        assert writing.None?;
        DoWrite();
        assert accepted == written + [payload];
      }
    }

    /** Completion of the outstanding write. */
    method HandleWrite(ok: bool)
      requires Valid() && writing.Some?
      modifies this
      ensures Valid() && accepted == old(accepted)
      ensures written == old(written) + (if ok then [old(writing).value] else [])
      ensures finalized == (old(finalized) || (!ok && !old(stopped))) && stopped == (old(stopped) || !ok)
      ensures !ok ==> writing.None?
      ensures ok && !old(finalized) ==>
        queue == old(queue)[1..] && writing == if queue == [] then None else Some(queue[0])
      ensures ok && old(finalized) ==> writing.None? && queue == []
    {
      var buffer := writing.value;
      writing := None;
      assert written + [buffer] <= accepted;
      if !ok {
        if !stopped {
          stopped := true;
          FinalizeStop();
        }
        return;
      }
      written := written + [buffer];
      if queuedBytes >= |buffer| {
        queuedBytes := queuedBytes - |buffer|;
      } else {
        queuedBytes := 0;
      }
      if queue != [] {
        queue := queue[1..];
      }
      if queue != [] {
        DoWrite();
        assert written + queue == accepted;
        assert written + [queue[0]] <= accepted;
      }
    }
  }

  // what the outside world may do; a completion needs an outstanding write, and a requested stop
  // is carried out on the strand once
  datatype Event = SendPosted(payload: Bytes) | WriteCompleted(ok: bool) | StopRequested | StopOnItsTurn

  /** Whatever happens in whatever order, completed writes are a prefix of what was accepted, within the cap. */
  method Drive(c: Connection, events: seq<Event>)
    requires c.Valid()
    modifies c
    ensures c.Valid() && old(c.accepted) <= c.accepted && old(c.written) <= c.written <= c.accepted
    ensures c.queuedBytes == TotalSize(c.queue) && (c.maxBytes > 0 ==> c.queuedBytes <= c.maxBytes)
    ensures old(c.stopped) ==> c.stopped && c.accepted == old(c.accepted)
  {
    for i := 0 to |events|
      invariant c.Valid() && old(c.accepted) <= c.accepted && old(c.written) <= c.written
      invariant old(c.stopped) ==> c.stopped && c.accepted == old(c.accepted)
    {
      match events[i] {
        case SendPosted(payload) =>
          c.HandleSend(payload);
        case WriteCompleted(ok) =>
          if c.writing.Some? {
            c.HandleWrite(ok);
          }
        case StopRequested =>
          c.RequestStop();
        case StopOnItsTurn =>
          if c.stopped && !c.finalized {
            c.FinalizeStop();
          }
      }
    }
  }
}
