/**
 The gateway's connection to a backend: payloads queue up while the connection is being made,
 through any number of failed attempts, and are written in order once it stands.

 Every callback is a step of its own, the awkward ones included: a connect timeout that was
 already on its way when the connect succeeded, and a connect that succeeds after its timeout.
 All callbacks run on one event loop. Closing a socket queues the completions of its pending
 operations at once, so they arrive before a retry timer that is at least ten milliseconds away.
 */
module BackendQueue {
  import opened Packet
  import opened ClientSendQueue

  // Adrift: connected after the timeout had closed the socket
  datatype Phase = Resolving | Connecting | RetryWait | Up | Adrift

  // an outstanding write; on a socket that was already closed it can only fail
  datatype Write = Write(bytes: Bytes, live: bool)

  datatype Backend = Backend(
    closed: bool,
    phase: Phase,
    connecting: bool,         // a connect has not reported yet
    timer: bool,              // the connect timer may still fire
    connected: bool,
    writeInProgress: bool,
    queue: seq<Bytes>,
    queuedBytes: nat,
    inflight: seq<Write>,
    accepted: seq<Bytes>,
    completed: seq<Bytes>,    // buffers whose write was reported complete, in that order
    stream: seq<Bytes>)       // those of them that went to the latest connection

  const START := Backend(false, Resolving, false, false, false, false, [], 0, [], [], [], [])

  // ---- what the callbacks do ---------------------------------------------------------------------

  function DoWrite(b: Backend): Backend {
    if b.queue == [] then b.(writeInProgress := false)
    else b.(writeInProgress := true, inflight := b.inflight + [Write(b.queue[0], b.phase == Up)])
  }

  function Close(b: Backend): Backend {
    if b.closed then b
    else b.(closed := true, queue := [], queuedBytes := 0, connected := false, writeInProgress := false)
  }

  function Send(b: Backend, cap: nat, payload: Bytes): Backend {
    if payload == [] || b.closed then b
    else if ExceedsQueueBudget(cap, b.queuedBytes, |payload|) then Close(b)
    else
      var b' := b.(queuedBytes := b.queuedBytes + |payload|,
                   queue := b.queue + [payload], accepted := b.accepted + [payload]);
      if b'.connected && !b'.writeInProgress then DoWrite(b') else b'
  }

  // an attempt failed: close the socket and wait for the retry timer, or give up
  function AttemptFailed(b: Backend, retry: bool): Backend {
    if b.closed then b
    else if retry then b.(phase := RetryWait, connected := false, writeInProgress := false)
    else Close(b)
  }

  function Connected(b: Backend): Backend {
    if b.closed then b.(connecting := false)
    else
      var b' :=
        if b.phase == Connecting then b.(connecting := false, phase := Up, connected := true, stream := [])
        else b.(connecting := false, phase := Adrift, connected := true);
      if b'.queue != [] then DoWrite(b') else b'
  }

  function Without(s: seq<Write>, k: nat): seq<Write>
    requires k < |s|
  {
    s[..k] + s[k + 1..]
  }

  function WriteDone(b: Backend, k: nat): Backend
    requires k < |b.inflight|
  {
    var sent := b.inflight[k].bytes;
    var b1 := b.(inflight := Without(b.inflight, k), completed := b.completed + [sent], stream := b.stream + [sent]);
    if b.closed then b1
    else
      var b2 :=
        if b1.queue == [] then b1
        else b1.(queuedBytes := if b1.queuedBytes >= |sent| then b1.queuedBytes - |sent| else 0, queue := b1.queue[1..]);
      if b2.queue != [] then DoWrite(b2) else b2.(writeInProgress := false)
  }

  function WriteFailed(b: Backend, k: nat, aborted: bool): Backend
    requires k < |b.inflight|
  {
    var b1 := b.(inflight := Without(b.inflight, k));
    if aborted || b.closed then b1 else Close(b1)
  }

  datatype Event =
    | SendRequest(payload: Bytes)
    | ResolveFailed(retry: bool)
    | Resolved
    | ConnectFailed(retry: bool)    // also the report of an attempt its timeout has aborted
    | ConnectOk                     // also when the timeout came first
    | Timeout(retry: bool)          // also when the connect came first
    | RetryDue
    | WriteOk(k: nat)
    | WriteError(k: nat, aborted: bool)
    | CloseRequest

  predicate CanHappen(b: Backend, e: Event) {
    match e
    case SendRequest(_) => true
    case ResolveFailed(_) => b.phase == Resolving
    case Resolved => b.phase == Resolving
    case ConnectFailed(_) => b.connecting
    case ConnectOk => b.connecting
    case Timeout(_) => b.timer
    // whatever the closed socket still had to report has been reported
    case RetryDue => b.phase == RetryWait && !b.connecting && b.inflight == []
    case WriteOk(k) => k < |b.inflight| && b.inflight[k].live
    // a write is aborted only by closing its socket
    case WriteError(k, aborted) => k < |b.inflight| && (aborted ==> b.inflight[k].live && (b.closed || b.phase != Up))
    case CloseRequest => true
  }

  function Handle(b: Backend, cap: nat, e: Event): Backend {
    match e
    case SendRequest(payload) => Send(b, cap, payload)
    case ResolveFailed(retry) => AttemptFailed(b, retry)
    case Resolved => if b.closed then b else b.(phase := Connecting, connecting := true, timer := true)
    case ConnectFailed(retry) => AttemptFailed(b.(connecting := false), retry)
    case ConnectOk => Connected(b)
    case Timeout(retry) => AttemptFailed(b.(timer := false), retry)
    case RetryDue =>
      if b.closed then b else b.(phase := Resolving, timer := false, connected := false, writeInProgress := false)
    case WriteOk(k) => if k < |b.inflight| then WriteDone(b, k) else b
    case WriteError(k, aborted) => if k < |b.inflight| then WriteFailed(b, k, aborted) else b
    case CloseRequest => Close(b)
  }

  function BackendAt(cap: nat, run: seq<Event>, n: nat): Backend
    requires n <= |run|
  {
    if n == 0 then START else Handle(BackendAt(cap, run, n - 1), cap, run[n - 1])
  }

  predicate Possible(cap: nat, run: seq<Event>) {
    forall i :: 0 <= i < |run| ==> CanHappen(BackendAt(cap, run, i), run[i])
  }

  lemma {:induction false} BackendOfPrefix(cap: nat, run: seq<Event>, more: seq<Event>, n: nat)
    requires run <= more && n <= |run|
    ensures BackendAt(cap, run, n) == BackendAt(cap, more, n)
    decreases n
  {
    hide Handle;
    if n > 0 {
      BackendOfPrefix(cap, run, more, n - 1);
    }
  }

  lemma RunOn(cap: nat, run: seq<Event>, e: Event)
    requires Possible(cap, run) && CanHappen(BackendAt(cap, run, |run|), e)
    ensures Possible(cap, run + [e])
    ensures BackendAt(cap, run + [e], |run| + 1) == Handle(BackendAt(cap, run, |run|), cap, e)
  {
    hide Handle, CanHappen;
    var more := run + [e];
    BackendOfPrefix(cap, run, more, |run|);
    forall i | 0 <= i < |more| ensures CanHappen(BackendAt(cap, more, i), more[i]) {
      BackendOfPrefix(cap, run, more, i);
    }
  }

  // ---- the callbacks as they are written ---------------------------------------------------------

  class BackendConnection {
    const cap: nat
    var closed: bool
    var phase: Phase
    var connecting: bool
    var timer: bool
    var connected: bool
    var writeInProgress: bool
    var writeQueue: seq<Bytes>
    var queuedBytes: nat
    var inflight: seq<Write>
    ghost var accepted: seq<Bytes>
    ghost var completed: seq<Bytes>
    ghost var stream: seq<Bytes>
    ghost var run: seq<Event>

    ghost function View(): Backend
      reads this
    {
      Backend(closed, phase, connecting, timer, connected, writeInProgress, writeQueue, queuedBytes, inflight,
              accepted, completed, stream)
    }

    constructor (cap: nat)
      ensures this.cap == cap && View() == START && run == [] && Valid()
    {
      this.cap := cap;
      closed, phase, connecting, timer, connected, writeInProgress := false, Resolving, false, false, false, false;
      writeQueue, queuedBytes, inflight, accepted, completed, stream, run := [], 0, [], [], [], [], [];
    }

    // the connection is where its run has brought it
    ghost predicate Valid()
      reads this
    {
      Possible(cap, run) && View() == BackendAt(cap, run, |run|)
    }

    /** Whatever has been delivered to it, a connection's queue is in order, exact and within the cap. */
    lemma AlwaysSound()
      requires Valid()
      ensures Sound(View(), cap)
    {
      hide Sound, Possible, BackendAt;
      SoundRun(cap, run, |run|);
    }

    /** Deliver one event of the loop to the callback it belongs to. */
    method Deliver(e: Event)
      requires Valid() && CanHappen(View(), e)
      modifies this
      ensures Valid() && run == old(run) + [e] && View() == Handle(old(View()), cap, e)
    {
      hide Possible, BackendAt, Send, Connected, AttemptFailed, Close, WriteDone, WriteFailed, DoWrite;
      RunOn(cap, run, e);
      match e {
        case SendRequest(payload) => SendPayload(payload);
        case ResolveFailed(retry) => OnAttemptFailed(retry);
        case Resolved => OnResolved();
        case ConnectFailed(retry) => OnConnect(false, retry);
        case ConnectOk => OnConnect(true, false);
        case Timeout(retry) => OnTimeout(retry);
        case RetryDue => OnRetryDue();
        case WriteOk(k) => OnWriteDone(k);
        case WriteError(k, aborted) => OnWriteFailed(k, aborted);
        case CloseRequest => CloseNow();
      }
      run := run + [e];
    }

    method StartWrite()
      modifies this`writeInProgress, this`inflight
      ensures View() == DoWrite(old(View()))
    {
      if writeQueue == [] {
        writeInProgress := false;
        return;
      }
      writeInProgress := true;
      inflight := inflight + [Write(writeQueue[0], phase == Up)];
    }

    method CloseNow()
      modifies this
      ensures run == old(run)
      ensures View() == Close(old(View()))
    {
      if closed {
        return;
      }
      closed := true;
      writeQueue := [];
      queuedBytes := 0;
      connected := false;
      writeInProgress := false;
    }

    method SendPayload(payload: Bytes)
      modifies this
      ensures run == old(run)
      ensures View() == Handle(old(View()), cap, SendRequest(payload))
    {
      if payload == [] || closed {
        return;
      }
      if ExceedsQueueBudget(cap, queuedBytes, |payload|) {
        CloseNow();
      } else {
        queuedBytes := queuedBytes + |payload|;
        writeQueue := writeQueue + [payload];
        accepted := accepted + [payload];
        if connected && !writeInProgress {
          StartWrite();
        }
      }
    }

    // ask for a retry; without one the connection is given up
    method OnAttemptFailed(retryGranted: bool)
      modifies this
      ensures run == old(run)
      ensures View() == AttemptFailed(old(View()), retryGranted)
    {
      if closed {
        return;
      }
      if retryGranted {
        connected := false;
        writeInProgress := false;
        phase := RetryWait;
      } else {
        CloseNow();
      }
    }

    method OnResolved()
      modifies this
      ensures run == old(run)
      ensures View() == Handle(old(View()), cap, Resolved)
    {
      if closed {
        return;
      }
      timer := true;
      connecting := true;
      phase := Connecting;
    }

    method OnConnect(ok: bool, retryGranted: bool)
      modifies this
      ensures run == old(run)
      ensures View() == Handle(old(View()), cap, if ok then ConnectOk else ConnectFailed(retryGranted))
    {
      connecting := false;
      if closed {
        return;
      }
      if !ok {
        OnAttemptFailed(retryGranted);
        return;
      }
      if phase == Connecting {
        phase := Up;
        stream := [];
      } else {
        phase := Adrift;
      }
      connected := true;
      if writeQueue != [] {
        StartWrite();
      }
    }

    method OnTimeout(retryGranted: bool)
      modifies this
      ensures run == old(run)
      ensures View() == Handle(old(View()), cap, Timeout(retryGranted))
    {
      timer := false;
      OnAttemptFailed(retryGranted);
    }

    method OnRetryDue()
      modifies this
      ensures run == old(run)
      ensures View() == Handle(old(View()), cap, RetryDue)
    {
      if closed {
        return;
      }
      phase := Resolving;
      timer := false;
      connected := false;
      writeInProgress := false;
    }

    method OnWriteDone(k: nat)
      requires k < |inflight|
      modifies this
      ensures run == old(run)
      ensures View() == Handle(old(View()), cap, WriteOk(k))
    {
      var sent := inflight[k].bytes;
      inflight := Without(inflight, k);
      completed := completed + [sent];
      stream := stream + [sent];
      if closed {
        return;
      }
      if writeQueue != [] {
        queuedBytes := if queuedBytes >= |sent| then queuedBytes - |sent| else 0;
        writeQueue := writeQueue[1..];
      }
      if writeQueue != [] {
        StartWrite();
      } else {
        writeInProgress := false;
      }
    }

    method OnWriteFailed(k: nat, aborted: bool)
      requires k < |inflight|
      modifies this
      ensures run == old(run)
      ensures View() == Handle(old(View()), cap, WriteError(k, aborted))
    {
      inflight := Without(inflight, k);
      if aborted || closed {
        return;
      }
      CloseNow();
    }
  }

  // ---- what holds in every run -------------------------------------------------------------------

  // every accepted payload is either written, in its turn, or still waiting in line
  predicate InOrder(b: Backend) {
    if b.closed then b.completed <= b.accepted else b.completed + b.queue == b.accepted
  }

  // one write at a time, of the front of the queue; after a close its completion may still come
  predicate OneWrite(b: Backend) {
    && |b.inflight| <= 1
    && (b.inflight != [] ==>
          if b.closed then b.completed + [b.inflight[0].bytes] <= b.accepted
          else b.queue != [] && b.inflight[0].bytes == b.queue[0])
  }

  predicate Exact(b: Backend, cap: nat) {
    b.queuedBytes == TotalSize(b.queue) && (cap > 0 ==> b.queuedBytes <= cap)
  }

  predicate Steady(b: Backend) {
    if b.closed then b.queue == [] && !b.connected && !b.writeInProgress
    else
      && (b.connected <==> b.phase == Up || b.phase == Adrift)
      && (b.connected ==> (b.writeInProgress <==> b.inflight != []) && (b.queue != [] <==> b.inflight != []))
      && (b.phase == Connecting ==> b.connecting)
      && (b.phase == Resolving ==> !b.connecting && !b.timer)
      && (b.connecting ==> b.phase == Connecting || b.phase == RetryWait)
      && (b.connecting || b.phase == Resolving ==> b.inflight == [] && !b.writeInProgress)
      && (b.connecting && b.phase == RetryWait ==> !b.timer)
      && (b.phase == Adrift ==> !b.timer && (b.inflight != [] ==> !b.inflight[0].live))
  }

  predicate Sound(b: Backend, cap: nat) {
    InOrder(b) && OneWrite(b) && Exact(b, cap) && Steady(b)
  }

  // ready for the next write
  predicate Ready(b: Backend, cap: nat) {
    InOrder(b) && Exact(b, cap) && !b.closed && b.inflight == [] && b.queue != []
  }

  lemma SoundDoWrite(b: Backend, cap: nat)
    requires Ready(b, cap) && !b.connecting && b.phase != Resolving && b.phase != Connecting
    requires b.connected <==> b.phase == Up || b.phase == Adrift
    requires b.phase == Adrift ==> !b.timer
    ensures Sound(DoWrite(b), cap)
  {
  }

  lemma SoundSend(b: Backend, cap: nat, payload: Bytes)
    requires Sound(b, cap)
    ensures Sound(Send(b, cap, payload), cap)
  {
    if payload != [] && !b.closed && !ExceedsQueueBudget(cap, b.queuedBytes, |payload|) {
      TotalSizeAppend(b.queue, payload);
      var b' := b.(queuedBytes := b.queuedBytes + |payload|,
                   queue := b.queue + [payload], accepted := b.accepted + [payload]);
      assert b'.completed + b'.queue == (b.completed + b.queue) + [payload];
      if b'.connected && !b'.writeInProgress {
        SoundDoWrite(b', cap);
      }
    } else if !b.closed {
      SoundClose(b, cap);
    }
  }

  lemma SoundClose(b: Backend, cap: nat)
    requires InOrder(b) && OneWrite(b) && Exact(b, cap) && (b.closed ==> Steady(b))
    ensures Sound(Close(b), cap)
  {
    if !b.closed && b.inflight != [] {
      assert b.completed + [b.queue[0]] <= b.completed + b.queue;
    }
  }

  lemma SoundWriteDone(b: Backend, cap: nat)
    requires Sound(b, cap) && b.inflight != [] && b.inflight[0].live
    ensures Sound(WriteDone(b, 0), cap)
  {
    assert Without(b.inflight, 0) == [];
    if !b.closed {
      var sent := b.queue[0];
      var b2 := b.(inflight := [], completed := b.completed + [sent], stream := b.stream + [sent],
                   queuedBytes := b.queuedBytes - |sent|, queue := b.queue[1..]);
      assert b2.completed + b2.queue == b.completed + b.queue;
      if b2.queue != [] {
        SoundDoWrite(b2, cap);
      }
    }
  }

  lemma SoundConnected(b: Backend, cap: nat)
    requires Sound(b, cap) && b.connecting
    ensures Sound(Connected(b), cap)
  {
    if !b.closed && b.queue != [] {
      if b.phase == Connecting {
        SoundDoWrite(b.(connecting := false, phase := Up, connected := true, stream := []), cap);
      } else {
        SoundDoWrite(b.(connecting := false, phase := Adrift, connected := true), cap);
      }
    }
  }

  lemma SoundAttemptFailed(b: Backend, cap: nat, retry: bool)
    requires InOrder(b) && OneWrite(b) && Exact(b, cap) && (b.closed ==> Steady(b))
    requires !b.closed && b.connecting ==> b.inflight == [] && !b.timer
    ensures Sound(AttemptFailed(b, retry), cap)
  {
    hide TotalSize, InOrder, OneWrite;
    if !b.closed && !retry {
      SoundClose(b, cap);
    } else if !b.closed {
      assert b.(phase := RetryWait, connected := false, writeInProgress := false) == AttemptFailed(b, retry);
      SameQueue(b, AttemptFailed(b, retry), cap);
    }
  }

  // the queue's properties do not depend on the phase and the flags
  lemma SameQueue(b: Backend, c: Backend, cap: nat)
    requires InOrder(b) && OneWrite(b) && Exact(b, cap)
    requires b.closed == c.closed && b.queue == c.queue && b.queuedBytes == c.queuedBytes
    requires b.inflight == c.inflight && b.accepted == c.accepted && b.completed == c.completed
    ensures InOrder(c) && OneWrite(c) && Exact(c, cap)
  {
  }

  lemma SoundWriteFailed(b: Backend, cap: nat, aborted: bool)
    requires Sound(b, cap) && CanHappen(b, WriteError(0, aborted))
    ensures Sound(WriteFailed(b, 0, aborted), cap)
  {
    hide TotalSize;
    assert Without(b.inflight, 0) == [];
    if !aborted && !b.closed {
      SoundClose(b.(inflight := []), cap);
    }
  }

  lemma SoundStep(b: Backend, cap: nat, e: Event)
    requires Sound(b, cap) && CanHappen(b, e)
    ensures Sound(Handle(b, cap, e), cap)
  {
    hide TotalSize, Send, Connected, AttemptFailed, WriteDone, WriteFailed, Close, InOrder, Exact;
    SameQueue(b, Handle(b, cap, e).(closed := b.closed, queue := b.queue, queuedBytes := b.queuedBytes,
                 inflight := b.inflight, accepted := b.accepted, completed := b.completed), cap);
    match e
    case SendRequest(payload) => SoundSend(b, cap, payload);
    case WriteOk(k) => SoundWriteDone(b, cap);
    case WriteError(k, aborted) => SoundWriteFailed(b, cap, aborted);
    case ConnectOk => SoundConnected(b, cap);
    case ConnectFailed(retry) => SoundFailedConnect(b, cap, retry);
    case Timeout(retry) => SoundTimeout(b, cap, retry);
    case ResolveFailed(retry) => SoundAttemptFailed(b, cap, retry);
    case CloseRequest => SoundClose(b, cap);
    case Resolved =>
    case RetryDue =>
  }

  lemma SoundFailedConnect(b: Backend, cap: nat, retry: bool)
    requires Sound(b, cap) && b.connecting
    ensures Sound(AttemptFailed(b.(connecting := false), retry), cap)
  {
    hide InOrder, Exact, OneWrite;
    SameQueue(b, b.(connecting := false), cap);
    SoundAttemptFailed(b.(connecting := false), cap, retry);
  }

  lemma SoundTimeout(b: Backend, cap: nat, retry: bool)
    requires Sound(b, cap) && b.timer
    ensures Sound(AttemptFailed(b.(timer := false), retry), cap)
  {
    hide InOrder, Exact;
    SameQueue(b, b.(timer := false), cap);
    SoundAttemptFailed(b.(timer := false), cap, retry);
  }

  /**
   In every run, through any number of failed attempts, timeouts that come too late and connects
   that come too late: completed writes followed by the queue are everything accepted, in order;
   at most one write is outstanding, of the front of the queue; the byte count is exact and
   within the cap.
   */
  lemma {:induction false} SoundRun(cap: nat, run: seq<Event>, n: nat)
    requires Possible(cap, run) && n <= |run|
    ensures Sound(BackendAt(cap, run, n), cap)
    decreases n
  {
    hide Handle, Sound, CanHappen;
    if n == 0 {
      SoundAtStart(cap);
    } else {
      SoundRun(cap, run, n - 1);
      SoundStep(BackendAt(cap, run, n - 1), cap, run[n - 1]);
    }
  }

  lemma SoundAtStart(cap: nat)
    ensures Sound(START, cap)
  {
  }

  predicate Untouched(b: Backend) {
    b.phase != Up && b.phase != Adrift && b.inflight == [] && b.completed == []
  }

  lemma UntouchedStep(b: Backend, cap: nat, e: Event)
    requires Untouched(b) && Steady(b) && CanHappen(b, e) && !e.ConnectOk?
    ensures Untouched(Handle(b, cap, e))
  {
  }

  /** In every run nothing is written, not even started, before a connect has succeeded. */
  lemma {:induction false} NothingWrittenUnconnected(cap: nat, run: seq<Event>, n: nat)
    requires Possible(cap, run) && n <= |run| && forall i :: 0 <= i < n ==> !run[i].ConnectOk?
    ensures Untouched(BackendAt(cap, run, n))
    decreases n
  {
    hide Handle, CanHappen, InOrder, OneWrite, Exact, Steady;
    if n > 0 {
      NothingWrittenUnconnected(cap, run, n - 1);
      SoundRun(cap, run, n - 1);
      UntouchedStep(BackendAt(cap, run, n - 1), cap, run[n - 1]);
    }
  }

  // ---- what the backend at the other end has been sent -------------------------------------------

  predicate Wrote(run: seq<Event>, n: nat)
    requires n <= |run|
  {
    exists i :: 0 <= i < n && run[i].WriteOk?
  }

  // a write completed, and a connection was made after it
  predicate WroteBeforeConnect(run: seq<Event>, n: nat)
    requires n <= |run|
  {
    exists j :: 0 <= j < n && run[j].ConnectOk? && Wrote(run, j)
  }

  // the latest connection's part of the completed writes is their end, and all of them unless
  // something was written before that connection
  ghost predicate Traced(b: Backend, run: seq<Event>, n: nat)
    requires n <= |run|
  {
    && |b.stream| <= |b.completed| && b.completed[|b.completed| - |b.stream|..] == b.stream
    && (b.completed != [] <==> Wrote(run, n))
    && (!b.closed && b.phase != Adrift ==> (|b.stream| == |b.completed| <==> !WroteBeforeConnect(run, n)))
  }

  lemma WroteNext(run: seq<Event>, n: nat)
    requires n < |run|
    ensures Wrote(run, n + 1) <==> Wrote(run, n) || run[n].WriteOk?
    ensures WroteBeforeConnect(run, n + 1) <==> WroteBeforeConnect(run, n) || (run[n].ConnectOk? && Wrote(run, n))
    ensures WroteBeforeConnect(run, n) ==> Wrote(run, n)
  {
    if WroteBeforeConnect(run, n) {
      var j :| 0 <= j < n && run[j].ConnectOk? && Wrote(run, j);
      var i :| 0 <= i < j && run[i].WriteOk?;
    }
  }

  // a step other than a completed write or a connect leaves what was written alone
  lemma OthersKeepWritten(b: Backend, cap: nat, e: Event)
    requires Steady(b) && CanHappen(b, e) && !e.WriteOk? && !e.ConnectOk?
    ensures var c := Handle(b, cap, e);
      && c.completed == b.completed && c.stream == b.stream && (b.closed ==> c.closed)
      && (!c.closed ==> (c.phase == Adrift <==> b.phase == Adrift))
  {
  }

  lemma ConnectResets(b: Backend, cap: nat)
    requires Steady(b) && b.connecting
    ensures var c := Handle(b, cap, ConnectOk);
      && c.completed == b.completed && (c.closed <==> b.closed)
      && (!b.closed ==> b.phase != Adrift)
      && (c.closed || c.phase == Adrift ==> c.stream == b.stream)
      && (!c.closed && c.phase != Adrift ==> c.stream == [])
  {
  }

  lemma WriteAdds(b: Backend, cap: nat, k: nat)
    requires k < |b.inflight|
    ensures var c, sent := Handle(b, cap, WriteOk(k)), b.inflight[k].bytes;
      c.completed == b.completed + [sent] && c.stream == b.stream + [sent] && c.closed == b.closed && c.phase == b.phase
  {
  }

  lemma TracedStep(b: Backend, cap: nat, run: seq<Event>, n: nat)
    requires n < |run| && Steady(b) && CanHappen(b, run[n]) && Traced(b, run, n)
    ensures Traced(Handle(b, cap, run[n]), run, n + 1)
  {
    hide Handle, Wrote, WroteBeforeConnect, Steady;
    WroteNext(run, n);
    match run[n]
    case WriteOk(k) =>
      WriteAdds(b, cap, k);
    case ConnectOk =>
      ConnectResets(b, cap);
    case _ =>
      OthersKeepWritten(b, cap, run[n]);
  }

  lemma {:induction false} TracedRun(cap: nat, run: seq<Event>, n: nat)
    requires Possible(cap, run) && n <= |run|
    ensures Traced(BackendAt(cap, run, n), run, n)
    decreases n
  {
    hide Handle, Traced, CanHappen, InOrder, OneWrite, Exact, Steady;
    if n == 0 {
      TracedAtStart(run);
    } else {
      TracedRun(cap, run, n - 1);
      SoundRun(cap, run, n - 1);
      TracedStep(BackendAt(cap, run, n - 1), cap, run, n - 1);
    }
  }

  lemma TracedAtStart(run: seq<Event>)
    ensures Traced(START, run, 0)
  {
    NoWriteYet(run);
    hide Wrote, WroteBeforeConnect;
    var b := START;
    assert b.completed == b.stream == [] && b.completed[0..] == b.stream;
  }

  /**
   A standing connection has been sent everything accepted so far, from the first payload on and
   but for what is queued, exactly if no write had completed before it was made.
   */
  lemma WholeStreamExactly(cap: nat, run: seq<Event>, n: nat)
    requires Possible(cap, run) && n <= |run|
    requires !BackendAt(cap, run, n).closed && BackendAt(cap, run, n).phase == Up
    ensures var b := BackendAt(cap, run, n);
      b.stream + b.queue == b.accepted <==> !WroteBeforeConnect(run, n)
  {
    hide Handle, CanHappen, OneWrite, Exact, Steady, BackendAt, Possible, WroteBeforeConnect, Wrote;
    SoundRun(cap, run, n);
    TracedRun(cap, run, n);
    var b := BackendAt(cap, run, n);
    assert |b.stream| == |b.completed| ==> b.stream == b.completed;
    assert b.stream + b.queue == b.accepted ==> |b.stream| == |b.completed|;
  }

  // no connect timeout is delivered once its connect has succeeded
  ghost predicate Timely(cap: nat, run: seq<Event>) {
    forall i :: 0 <= i < |run| && run[i].Timeout? ==> BackendAt(cap, run, i).phase != Up
  }

  lemma TimelyStep(b: Backend, cap: nat, e: Event)
    requires Steady(b) && CanHappen(b, e) && (e.Timeout? ==> b.phase != Up)
    requires !b.closed && b.phase != Up && b.phase != Adrift ==> b.inflight == [] && b.completed == []
    ensures var c := Handle(b, cap, e);
      !c.closed && c.phase != Up && c.phase != Adrift ==> c.inflight == [] && c.completed == []
    ensures var c := Handle(b, cap, e);
      !c.closed && c.phase == Up && e.ConnectOk? ==> c.completed == []
  {
  }

  lemma WroteExactly(cap: nat, run: seq<Event>, n: nat)
    requires Possible(cap, run) && n <= |run|
    ensures BackendAt(cap, run, n).completed != [] <==> Wrote(run, n)
  {
    hide Possible, BackendAt, Wrote, WroteBeforeConnect;
    TracedRun(cap, run, n);
  }

  lemma StepOf(cap: nat, run: seq<Event>, n: nat)
    requires Possible(cap, run) && Timely(cap, run) && n < |run|
    ensures var b, e := BackendAt(cap, run, n), run[n];
      CanHappen(b, e) && BackendAt(cap, run, n + 1) == Handle(b, cap, e) && (e.Timeout? ==> b.phase != Up)
  {
    hide Handle, CanHappen;
  }

  // without late timeouts: nothing written until the connection stands
  ghost predicate Clean(b: Backend, run: seq<Event>, n: nat)
    requires n <= |run|
  {
    && (!b.closed && b.phase != Up && b.phase != Adrift ==> b.inflight == [] && b.completed == [])
    && (!b.closed && b.phase == Up ==> !WroteBeforeConnect(run, n))
  }

  lemma CleanStep(b: Backend, cap: nat, run: seq<Event>, n: nat)
    requires n < |run| && Steady(b) && CanHappen(b, run[n]) && (run[n].Timeout? ==> b.phase != Up)
    requires Clean(b, run, n) && (Handle(b, cap, run[n]).completed != [] <==> Wrote(run, n + 1))
    ensures Clean(Handle(b, cap, run[n]), run, n + 1)
  {
    hide Handle, CanHappen, Steady, Wrote, WroteBeforeConnect;
    var c := Handle(b, cap, run[n]);
    WroteNext(run, n);
    TimelyStep(b, cap, run[n]);
    if !c.closed && c.phase == Up && !run[n].ConnectOk? {
      EntersUp(b, cap, run[n]);
    }
  }

  lemma {:induction false} NothingBeforeConnect(cap: nat, run: seq<Event>, n: nat)
    requires Possible(cap, run) && Timely(cap, run) && n <= |run|
    ensures Clean(BackendAt(cap, run, n), run, n)
    decreases n
  {
    hide *;
    if n == 0 {
      CleanAtStart(cap, run);
    } else {
      NothingBeforeConnect(cap, run, n - 1);
      StepOf(cap, run, n - 1);
      SteadyRun(cap, run, n - 1);
      WroteExactly(cap, run, n);
      CleanStep(BackendAt(cap, run, n - 1), cap, run, n - 1);
    }
  }

  lemma CleanAtStart(cap: nat, run: seq<Event>)
    ensures Clean(BackendAt(cap, run, 0), run, 0)
  {
    NoWriteYet(run);
    hide WroteBeforeConnect, Wrote;
  }

  lemma SteadyRun(cap: nat, run: seq<Event>, n: nat)
    requires Possible(cap, run) && n <= |run|
    ensures Steady(BackendAt(cap, run, n))
  {
    hide Possible, BackendAt, Steady;
    SoundRun(cap, run, n);
  }

  lemma NoWriteYet(run: seq<Event>)
    ensures !Wrote(run, 0) && !WroteBeforeConnect(run, 0)
  {
  }

  lemma EntersUp(b: Backend, cap: nat, e: Event)
    requires !Handle(b, cap, e).closed && Handle(b, cap, e).phase == Up && !e.ConnectOk?
    ensures !b.closed && b.phase == Up
  {
  }

  /** Without late timeouts a standing connection is sent every accepted payload, from the first on. */
  lemma TimelyStreamIsWhole(cap: nat, run: seq<Event>, n: nat)
    requires Possible(cap, run) && Timely(cap, run) && n <= |run|
    requires !BackendAt(cap, run, n).closed && BackendAt(cap, run, n).phase == Up
    ensures var b := BackendAt(cap, run, n); b.stream + b.queue == b.accepted
  {
    hide Possible, Timely, BackendAt;
    NothingBeforeConnect(cap, run, n);
    WholeStreamExactly(cap, run, n);
  }

  // ---- a late timeout ----------------------------------------------------------------------------

  // the timeout is delivered right after the connect, the first write's completion right after that
  function LateTimeoutRun(): seq<Event> {
    [SendRequest([1]), Resolved, ConnectOk, Timeout(true), WriteOk(0), RetryDue, Resolved, ConnectOk]
  }

  function LateTimeoutState(i: nat): Backend {
    var one: Bytes := [1];
    var first := Write(one, true);
    if i == 1 then Backend(false, Resolving, false, false, false, false, [one], 1, [], [one], [], [])
    else if i == 2 then Backend(false, Connecting, true, true, false, false, [one], 1, [], [one], [], [])
    else if i == 3 then Backend(false, Up, false, true, true, true, [one], 1, [first], [one], [], [])
    else if i == 4 then Backend(false, RetryWait, false, false, false, false, [one], 1, [first], [one], [], [])
    else if i == 5 then Backend(false, RetryWait, false, false, false, false, [], 0, [], [one], [one], [one])
    else if i == 6 then Backend(false, Resolving, false, false, false, false, [], 0, [], [one], [one], [one])
    else if i == 7 then Backend(false, Connecting, true, true, false, false, [], 0, [], [one], [one], [one])
    else if i == 8 then Backend(false, Up, false, true, true, false, [], 0, [], [one], [one], [])
    else START
  }

  lemma LateTimeoutStep(cap: nat, i: nat)
    requires i < 8
    ensures CanHappen(LateTimeoutState(i), LateTimeoutRun()[i])
    ensures Handle(LateTimeoutState(i), cap, LateTimeoutRun()[i]) == LateTimeoutState(i + 1)
  {
  }

  lemma {:induction false} LateTimeoutStates(cap: nat, n: nat)
    requires n <= 8
    ensures BackendAt(cap, LateTimeoutRun(), n) == LateTimeoutState(n)
    decreases n
  {
    if n > 0 {
      hide Handle, LateTimeoutState;
      LateTimeoutStates(cap, n - 1);
      LateTimeoutStep(cap, n - 1);
    }
  }

  /** A late timeout can leave a standing connection without the first payload, although its write completed. */
  lemma LateTimeoutSkips(cap: nat)
    ensures Possible(cap, LateTimeoutRun()) && !Timely(cap, LateTimeoutRun())
    ensures var b := BackendAt(cap, LateTimeoutRun(), 8);
      !b.closed && b.phase == Up && b.accepted == [[1]] && b.stream == [] && b.queue == []
  {
    hide BackendAt, Handle;
    var run := LateTimeoutRun();
    forall i | 0 <= i < |run| ensures CanHappen(BackendAt(cap, run, i), run[i]) {
      LateTimeoutStates(cap, i);
      LateTimeoutStep(cap, i);
    }
    LateTimeoutStates(cap, 3);
    LateTimeoutStates(cap, 8);
  }
}
