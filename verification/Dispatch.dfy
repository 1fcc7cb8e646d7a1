/**
 Message dispatch: checks at arrival, then the handler runs inline, on the session's strand, or
 through the job queue and then the strand. Recorded calls, started handlers and recorded
 rejects are kept as logs of tasks; their lengths are the counters.
 */
module Dispatch {
  datatype Place = Inline | Worker | RoomStrand
  datatype Status = Any | Authenticated | InRoom | Admin
  datatype Transport = Tcp | Udp
  datatype Mask = NoTransport | TcpOnly | UdpOnly | Both

  datatype Policy = Policy(required: Status, place: Place, mask: Mask)

  // a message that passed the checks, with what the checks saw
  datatype Task = Task(msg: nat, session: nat, policy: Policy, status: Status, transport: Transport)

  predicate Satisfies(required: Status, current: Status) {
    match required
    case Any => true
    case Authenticated => current == Authenticated || current == InRoom || current == Admin
    case InRoom => current == InRoom || current == Admin
    case Admin => current == Admin
  }

  predicate Allows(mask: Mask, transport: Transport) {
    match mask
    case Both => true
    case NoTransport => false
    case TcpOnly => transport == Tcp
    case UdpOnly => transport == Udp
  }

  predicate Allowed(t: Task) {
    Allows(t.policy.mask, t.transport) && Satisfies(t.policy.required, t.status)
  }

  datatype State = State(
    calls: seq<Task>,
    started: seq<Task>,
    rejected: seq<Task>,
    dropped: seq<Task>,           // closures whose session had stopped when their turn came
    queue: seq<Task>,             // in the job queue
    held: seq<Task>,              // taken by a worker thread, not yet posted
    strand: seq<Task>)            // posted to their session's strand, oldest first

  const IDLE := State([], [], [], [], [], [], [])

  // what the surroundings answer while a message is dispatched
  datatype Answers = Answers(sessionShared: bool, queuePresent: bool, queueAccepts: bool, strandAccepts: bool)

  datatype Event =
    | Arrive(task: Task, answers: Answers)
    | TakeJob
    | PostHeld(i: nat, strandAccepts: bool)
    | RunPosted(i: nat, stopped: bool)

  function Rejected(s: State, t: Task): State {
    s.(rejected := s.rejected + [t])
  }

  function Posted(s: State, t: Task, accepts: bool): State {
    if accepts then s.(strand := s.strand + [t]) else Rejected(s, t)
  }

  // the next closure of a session's strand is its oldest
  predicate Enabled(s: State, e: Event) {
    match e
    case Arrive(_, _) => true
    case TakeJob => s.queue != []
    case PostHeld(i, _) => i < |s.held|
    case RunPosted(i, _) => i < |s.strand| && forall j :: 0 <= j < i ==> s.strand[j].session != s.strand[i].session
  }

  function Next(s: State, e: Event): State
    requires Enabled(s, e)
  {
    match e
    case Arrive(t, a) =>
      if !Allowed(t) then s
      else
        var c := s.(calls := s.calls + [t]);
        if t.policy.place.Inline? then c.(started := s.started + [t])
        else if !a.sessionShared then Rejected(c, t)
        else if t.policy.place.RoomStrand? then Posted(c, t, a.strandAccepts)
        else if a.queuePresent && a.queueAccepts then c.(queue := s.queue + [t])
        else Rejected(c, t)
    case TakeJob => s.(queue := s.queue[1..], held := s.held + [s.queue[0]])
    case PostHeld(i, accepts) => Posted(s.(held := s.held[..i] + s.held[i + 1..]), s.held[i], accepts)
    case RunPosted(i, stopped) =>
      var t, rest := s.strand[i], s.(strand := s.strand[..i] + s.strand[i + 1..]);
      if stopped then rest.(dropped := s.dropped + [t]) else rest.(started := s.started + [t])
  }

  ghost predicate Run(run: seq<Event>, states: seq<State>) {
    && |states| == |run| + 1 && states[0] == IDLE
    && forall k :: 0 <= k < |run| ==> Enabled(states[k], run[k]) && states[k + 1] == Next(states[k], run[k])
  }

  lemma RunOn(run: seq<Event>, states: seq<State>, e: Event)
    requires Run(run, states) && Enabled(states[|run|], e)
    ensures Run(run + [e], states + [Next(states[|run|], e)])
  {
    hide Next, Enabled;
    var run', states' := run + [e], states + [Next(states[|run|], e)];
    forall k | 0 <= k < |run'| ensures Enabled(states'[k], run'[k]) && states'[k + 1] == Next(states'[k], run'[k]) {
      if k < |run| {
        assert states'[k] == states[k] && states'[k + 1] == states[k + 1];
      }
    }
  }

  class Dispatcher {
    const table: map<nat, Policy>
    var s: State
    ghost var run: seq<Event>
    ghost var states: seq<State>

    // the state is where the run of arrivals, workers and strands has brought it
    ghost predicate Valid()
      reads this
    {
      Run(run, states) && states[|run|] == s
    }

    constructor (table: map<nat, Policy>)
      ensures Valid() && this.table == table && s == IDLE && run == []
    {
      this.table := table;
      s, run, states := IDLE, [], [IDLE];
    }

    /** Whatever was dispatched, every call is accounted for and only allowed messages have reached a handler. */
    lemma AlwaysConserved(f: Task -> bool)
      requires Valid()
      ensures Balanced(s, f) && OnlyAllowed(s)
    {
      hide Run, Balanced, OnlyAllowed;
      CallsConserved(run, states, |run|, f);
    }

    // the step that is about to be made
    ghost method Advance(e: Event)
      requires Valid() && Enabled(s, e)
      modifies this`run, this`states
      ensures Run(run, states) && run == old(run) + [e] && states[|run|] == Next(s, e)
    {
      RunOn(run, states, e);
      run, states := run + [e], states + [Next(s, e)];
    }

    /** A worker thread takes the oldest job. */
    method WorkerTakes()
      requires Valid() && s.queue != []
      modifies this
      ensures Valid() && run == old(run) + [TakeJob]
    {
      hide Run;
      Advance(TakeJob);
      var t := s.queue[0];
      s := s.(queue := s.queue[1..]);
      s := s.(held := s.held + [t]);
    }

    /** A worker posts the closure it holds to the session's strand, or records a reject. */
    method WorkerPosts(i: nat, accepted: bool)
      requires Valid() && i < |s.held|
      modifies this
      ensures Valid() && run == old(run) + [PostHeld(i, accepted)]
    {
      hide Run;
      Advance(PostHeld(i, accepted));
      var t := s.held[i];
      s := s.(held := s.held[..i] + s.held[i + 1..]);
      if accepted {
        s := s.(strand := s.strand + [t]);
      } else {
        s := s.(rejected := s.rejected + [t]);
      }
    }

    /** A strand runs a session's oldest closure, unless the session has stopped. */
    method StrandRuns(i: nat, stopped: bool)
      requires Valid() && Enabled(s, RunPosted(i, stopped))
      modifies this
      ensures Valid() && run == old(run) + [RunPosted(i, stopped)]
    {
      hide Run;
      Advance(RunPosted(i, stopped));
      var t := s.strand[i];
      s := s.(strand := s.strand[..i] + s.strand[i + 1..]);
      if stopped {
        s := s.(dropped := s.dropped + [t]);
      } else {
        s := s.(started := s.started + [t]);
      }
    }

    /** Dispatch one message; false exactly if no handler is registered for it. */
    method Handle(msg: nat, session: nat, status: Status, transport: Transport, answers: Answers) returns (known: bool)
      requires Valid()
      modifies this
      ensures Valid() && (known <==> msg in table)
      ensures s == if known then Next(old(s), Arrive(Task(msg, session, table[msg], status, transport), answers)) else old(s)
    {
      hide Run;
      if msg !in table {
        return false;
      }
      var policy := table[msg];
      var t := Task(msg, session, policy, status, transport);
      Advance(Arrive(t, answers));
      known := true;
      if !Allows(policy.mask, transport) {
        return;
      }
      if !Satisfies(policy.required, status) {
        return;
      }
      s := s.(calls := s.calls + [t]);
      if policy.place.Inline? {
        s := s.(started := s.started + [t]);
        return;
      }
      if !answers.sessionShared {
        s := s.(rejected := s.rejected + [t]);
        return;
      }
      if policy.place.RoomStrand? {
        if answers.strandAccepts {
          s := s.(strand := s.strand + [t]);
        } else {
          s := s.(rejected := s.rejected + [t]);
        }
        return;
      }
      if !answers.queuePresent {
        s := s.(rejected := s.rejected + [t]);
        return;
      }
      if answers.queueAccepts {
        s := s.(queue := s.queue + [t]);
      } else {
        s := s.(rejected := s.rejected + [t]);
      }
    }
  }

  // how many of the tasks are of the given kind
  function Count(tasks: seq<Task>, f: Task -> bool): nat {
    if tasks == [] then 0 else Count(tasks[1..], f) + Weight(tasks[0], f)
  }

  function Weight(t: Task, f: Task -> bool): nat {
    if f(t) then 1 else 0
  }

  lemma {:induction false} CountConcat(a: seq<Task>, b: seq<Task>, f: Task -> bool)
    ensures Count(a + b, f) == Count(a, f) + Count(b, f)
    decreases |a|
  {
    if a == [] {
      assert a + b == b;
    } else {
      assert (a + b)[1..] == a[1..] + b;
      CountConcat(a[1..], b, f);
    }
  }

  lemma CountAdded(a: seq<Task>, t: Task, f: Task -> bool)
    ensures Count(a + [t], f) == Count(a, f) + Weight(t, f)
  {
    CountConcat(a, [t], f);
  }

  lemma CountRemoved(a: seq<Task>, i: nat, f: Task -> bool)
    requires i < |a|
    ensures Count(a, f) == Count(a[..i] + a[i + 1..], f) + Weight(a[i], f)
  {
    hide Count, Weight;
    var l, r := a[..i], a[i + 1..];
    assert a == l + [a[i]] + r;
    CountAdded(l, a[i], f);
    CountConcat(l + [a[i]], r, f);
    CountConcat(l, r, f);
  }

  function Waiting(s: State, f: Task -> bool): nat {
    Count(s.queue, f) + Count(s.held, f) + Count(s.strand, f)
  }

  // every recorded call of that kind was started, rejected or dropped, or still waits
  predicate Balanced(s: State, f: Task -> bool) {
    Count(s.calls, f) == Count(s.started, f) + Count(s.rejected, f) + Count(s.dropped, f) + Waiting(s, f)
  }

  // no message reaches a handler unless its transport and its session's state were right at dispatch
  ghost predicate OnlyAllowed(s: State) {
    forall t :: t in s.started || t in s.queue || t in s.held || t in s.strand ==> Allowed(t)
  }

  lemma BalancedStep(s: State, e: Event, f: Task -> bool)
    requires Enabled(s, e) && Balanced(s, f)
    ensures Balanced(Next(s, e), f)
  {
    hide Count, Weight, Allowed;
    match e
    case Arrive(t, a) =>
      CountAdded(s.calls, t, f);
      CountAdded(s.started, t, f);
      CountAdded(s.rejected, t, f);
      CountAdded(s.queue, t, f);
      CountAdded(s.strand, t, f);
    case TakeJob =>
      assert s.queue[..0] + s.queue[1..] == s.queue[1..];
      CountRemoved(s.queue, 0, f);
      CountAdded(s.held, s.queue[0], f);
    case PostHeld(i, _) =>
      CountRemoved(s.held, i, f);
      CountAdded(s.rejected, s.held[i], f);
      CountAdded(s.strand, s.held[i], f);
    case RunPosted(i, _) =>
      CountRemoved(s.strand, i, f);
      CountAdded(s.dropped, s.strand[i], f);
      CountAdded(s.started, s.strand[i], f);
  }

  lemma OnlyAllowedStep(s: State, e: Event)
    requires Enabled(s, e) && OnlyAllowed(s)
    ensures OnlyAllowed(Next(s, e))
  {
    hide Allowed;
  }

  /** In every run, for every kind of task, all calls are accounted for; only allowed messages reach a handler. */
  lemma {:induction false} CallsConserved(run: seq<Event>, states: seq<State>, n: nat, f: Task -> bool)
    requires Run(run, states) && n <= |run|
    ensures Balanced(states[n], f) && OnlyAllowed(states[n])
    decreases n
  {
    hide Enabled, Next;
    if n > 0 {
      CallsConserved(run, states, n - 1, f);
      BalancedStep(states[n - 1], run[n - 1], f);
      OnlyAllowedStep(states[n - 1], run[n - 1]);
    }
  }

  function AtPlace(p: Place): Task -> bool {
    (t: Task) => t.policy.place == p
  }

  // the equation the counters suggest: calls are handlers started, rejects and closures waiting
  predicate CountersAgree(s: State, p: Place) {
    Count(s.calls, AtPlace(p)) == Count(s.started, AtPlace(p)) + Count(s.rejected, AtPlace(p)) + Waiting(s, AtPlace(p))
  }

  // a closure's turn comes after its session has stopped
  predicate Drops(e: Event) {
    e.RunPosted? && e.stopped
  }

  lemma DroppedNext(s: State, e: Event)
    requires Enabled(s, e)
    ensures Next(s, e).dropped == [] <==> s.dropped == [] && !Drops(e)
  {
  }

  lemma {:induction false} DroppedExactly(run: seq<Event>, states: seq<State>, n: nat)
    requires Run(run, states) && n <= |run|
    ensures states[n].dropped == [] <==> forall k :: 0 <= k < n ==> !Drops(run[k])
    decreases n
  {
    hide Enabled, Next, Drops;
    if n > 0 {
      DroppedExactly(run, states, n - 1);
      DroppedNext(states[n - 1], run[n - 1]);
    }
  }

  lemma AgreeWithoutDropped(run: seq<Event>, states: seq<State>, n: nat)
    requires Run(run, states) && n <= |run|
    ensures (forall p: Place :: CountersAgree(states[n], p)) <==> states[n].dropped == []
  {
    hide Enabled, Next, Waiting, OnlyAllowed;
    var s := states[n];
    forall p: Place ensures CountersAgree(s, p) <==> Count(s.dropped, AtPlace(p)) == 0 {
      CallsConserved(run, states, n, AtPlace(p));
    }
    if s.dropped != [] {
      var p := s.dropped[0].policy.place;
      assert Weight(s.dropped[0], AtPlace(p)) == 1;
      assert !CountersAgree(s, p);
    }
  }

  /**
   At any point of any run, the counters of every place agree exactly if no closure's turn has
   come after its session had stopped.
   */
  lemma CountersAgreeExactly(run: seq<Event>, states: seq<State>, n: nat)
    requires Run(run, states) && n <= |run|
    ensures (forall p: Place :: CountersAgree(states[n], p)) <==> forall k :: 0 <= k < n ==> !Drops(run[k])
  {
    hide Run, CountersAgree, Drops;
    AgreeWithoutDropped(run, states, n);
    DroppedExactly(run, states, n);
  }

  /** A message posted to a session that stops before the handler's turn is counted as a call and as nothing else. */
  lemma StoppedSessionUncounted() returns (run: seq<Event>, states: seq<State>)
    ensures Run(run, states) && |run| == 2
    ensures |states[2].calls| == 1 && states[2].started == [] && states[2].rejected == []
    ensures states[2].queue == [] && states[2].held == [] && states[2].strand == []
    ensures !CountersAgree(states[2], RoomStrand)
  {
    var t := Task(1, 1, Policy(Any, RoomStrand, Both), Any, Tcp);
    run := [Arrive(t, Answers(true, true, true, true)), RunPosted(0, true)];
    var s1 := Next(IDLE, run[0]);
    assert s1.strand == [t];
    var s2 := Next(s1, run[1]);
    assert s2.strand == [] && s2.calls == [t] && s2.dropped == [t];
    states := [IDLE, s1, s2];
    assert Count([t], AtPlace(RoomStrand)) == 1 && Count([], AtPlace(RoomStrand)) == 0;
  }
}
