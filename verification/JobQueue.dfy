/**
 The job queue shared by producers and worker threads: one mutex, one condition variable for
 both sides. A step is what one thread does while it holds the mutex, or one notification
 taking effect; a thread between its unlock and its notify is counted in `one` or `all`.
 Spurious wake-ups are allowed everywhere.
 */
module JobQueue {
  import opened Wrappers

  type Job = nat

  datatype State = State(
    jobs: seq<Job>,
    stopping: bool,
    waiting: nat,                  // consumers inside wait
    woken: nat,                    // consumers notified, mutex not yet taken again
    blocked: multiset<Job>,        // jobs of producers inside wait
    roused: multiset<Job>,         // jobs of producers notified, mutex not yet taken again
    one: nat,                      // notify_one calls still to happen
    all: nat,                      // notify_all calls still to happen
    pushed: seq<Job>,              // every job ever queued, in order
    popped: seq<Job>)              // every job ever handed to a consumer, in order

  const INITIAL := State([], false, 0, 0, multiset{}, multiset{}, 0, 0, [], [])

  datatype Waiter = Consumer | Producer(job: Job) | Nobody

  datatype Event =
    | TryPush(job: Job)
    | Push(job: Job, resumed: bool)
    | Pop(resumed: bool)
    | Stop
    | NotifyOne(waiter: Waiter)
    | NotifyAll
    | Spurious(waiter: Waiter)

  predicate Full(max: nat, s: State) {
    max > 0 && |s.jobs| >= max
  }

  function Enqueue(s: State, job: Job): State {
    s.(jobs := s.jobs + [job], pushed := s.pushed + [job], one := s.one + 1)
  }

  function Dequeue(max: nat, s: State): State
    requires s.jobs != []
  {
    s.(jobs := s.jobs[1..], popped := s.popped + [s.jobs[0]], one := if max > 0 then s.one + 1 else s.one)
  }

  function Wake(s: State, waiter: Waiter): State
    requires CanWake(s, waiter)
  {
    match waiter
    case Consumer => s.(waiting := s.waiting - 1, woken := s.woken + 1)
    case Producer(job) => s.(blocked := s.blocked - multiset{job}, roused := s.roused + multiset{job})
    case Nobody => s
  }

  predicate CanWake(s: State, waiter: Waiter) {
    match waiter
    case Consumer => s.waiting > 0
    case Producer(job) => job in s.blocked
    case Nobody => s.waiting == 0 && s.blocked == multiset{}
  }

  predicate Enabled(s: State, e: Event) {
    match e
    case TryPush(_) => true
    case Push(job, resumed) => resumed ==> job in s.roused
    case Pop(resumed) => resumed ==> s.woken > 0
    case Stop => true
    case NotifyOne(waiter) => s.one > 0 && CanWake(s, waiter)
    case NotifyAll => s.all > 0
    case Spurious(waiter) => CanWake(s, waiter)
  }

  function Next(max: nat, s: State, e: Event): State
    requires Enabled(s, e)
  {
    match e
    case TryPush(job) => if s.stopping || Full(max, s) then s else Enqueue(s, job)
    case Push(job, resumed) =>
      var t := if resumed then s.(roused := s.roused - multiset{job}) else s;
      if t.stopping then t
      else if Full(max, t) then t.(blocked := t.blocked + multiset{job})
      else Enqueue(t, job)
    case Pop(resumed) =>
      var t := if resumed then s.(woken := s.woken - 1) else s;
      if t.jobs != [] then Dequeue(max, t)
      else if t.stopping then t
      else t.(waiting := t.waiting + 1)
    case Stop => s.(stopping := true, all := s.all + 1)
    case NotifyOne(waiter) => Wake(s.(one := s.one - 1), waiter)
    case NotifyAll =>
      s.(all := s.all - 1, waiting := 0, woken := s.woken + s.waiting,
         blocked := multiset{}, roused := s.roused + s.blocked)
    case Spurious(waiter) => Wake(s, waiter)
  }

  ghost predicate Run(max: nat, run: seq<Event>, states: seq<State>) {
    && |states| == |run| + 1 && states[0] == INITIAL
    && forall k :: 0 <= k < |run| ==> Enabled(states[k], run[k]) && states[k + 1] == Next(max, states[k], run[k])
  }

  lemma RunOn(max: nat, run: seq<Event>, states: seq<State>, e: Event)
    requires Run(max, run, states) && Enabled(states[|run|], e)
    ensures Run(max, run + [e], states + [Next(max, states[|run|], e)])
  {
    hide Next, Enabled;
    var run', states' := run + [e], states + [Next(max, states[|run|], e)];
    forall k | 0 <= k < |run'| ensures Enabled(states'[k], run'[k]) && states'[k + 1] == Next(max, states'[k], run'[k]) {
      if k < |run| {
        assert states'[k] == states[k] && states'[k + 1] == states[k + 1];
      }
    }
  }

  // ---- the critical sections ---------------------------------------------------------------------

  datatype PushResult = Queued | Refused | MustWait
  datatype PopResult = Took(job: Job) | Closed | NoJobYet

  class Queue {
    const maxSize: nat
    var jobs: seq<Job>
    var stopping: bool
    ghost var s: State
    ghost var run: seq<Event>
    ghost var states: seq<State>

    // the fields are where the run of the threads' steps has brought them
    ghost predicate Valid()
      reads this
    {
      s.jobs == jobs && s.stopping == stopping && Run(maxSize, run, states) && states[|run|] == s
    }

    constructor (maxSize: nat)
      ensures Valid() && this.maxSize == maxSize && s == INITIAL && run == []
    {
      this.maxSize := maxSize;
      jobs, stopping, s, run, states := [], false, INITIAL, [], [INITIAL];
    }

    /** Whatever its threads did, the queue is first in first out, within its bound and leaves nobody waiting. */
    lemma AlwaysOrderly()
      requires Valid()
      ensures Orderly(maxSize, s)
    {
      hide Run;
      OrderlyRun(maxSize, run, states, |run|);
    }

    // the step that is about to be made
    ghost method Advance(e: Event)
      requires Run(maxSize, run, states) && states[|run|] == s && Enabled(s, e)
      modifies this`run, this`states
      ensures Run(maxSize, run, states) && run == old(run) + [e] && states[|run|] == Next(maxSize, s, e)
    {
      RunOn(maxSize, run, states, e);
      run, states := run + [e], states + [Next(maxSize, s, e)];
    }

    /** A notification, or a spurious wake-up, reaches its waiter. */
    ghost method Deliver(e: Event)
      requires Valid() && Enabled(s, e) && (e.NotifyOne? || e.NotifyAll? || e.Spurious?)
      modifies this`s, this`run, this`states
      ensures Valid() && s == Next(maxSize, old(s), e) && run == old(run) + [e]
    {
      hide Run;
      Advance(e);
      s := Next(maxSize, s, e);
    }

    // a null job is turned away before the mutex is taken
    method TryAdd(job: Option<Job>) returns (queued: bool)
      requires Valid()
      modifies this
      ensures Valid()
      ensures s == (if job.Some? then Next(maxSize, old(s), TryPush(job.value)) else old(s))
      ensures queued <==> |s.pushed| > |old(s).pushed|
    {
      hide Run;
      if job.None? {
        return false;
      }
      Advance(TryPush(job.value));
      if stopping {
        return false;
      }
      if maxSize > 0 && |jobs| >= maxSize {
        return false;
      }
      jobs := jobs + [job.value];
      s := Enqueue(s, job.value);
      return true;
    }

    // one pass of the blocking push: on entry, or again after a wake-up
    method Add(job: Job, resumed: bool) returns (r: PushResult)
      requires Valid() && Enabled(s, Push(job, resumed))
      modifies this
      ensures Valid() && s == Next(maxSize, old(s), Push(job, resumed))
      ensures r.Queued? <==> |s.pushed| > |old(s).pushed|
      ensures r.Refused? <==> old(stopping)
    {
      hide Run;
      Advance(Push(job, resumed));
      s := if resumed then s.(roused := s.roused - multiset{job}) else s;
      if stopping {
        return Refused;
      }
      if maxSize > 0 && |jobs| >= maxSize {
        s := s.(blocked := s.blocked + multiset{job});
        return MustWait;
      }
      jobs := jobs + [job];
      s := Enqueue(s, job);
      return Queued;
    }

    // one pass of the blocking pop
    method Take(resumed: bool) returns (r: PopResult)
      requires Valid() && Enabled(s, Pop(resumed))
      modifies this
      ensures Valid() && s == Next(maxSize, old(s), Pop(resumed))
      ensures match r
        case Took(job) => s.popped == old(s).popped + [job]
        case Closed => stopping && jobs == [] && s.popped == old(s).popped
        case NoJobYet => s.waiting == old(s).waiting + 1 && s.popped == old(s).popped
    {
      hide Run;
      Advance(Pop(resumed));
      s := if resumed then s.(woken := s.woken - 1) else s;
      if jobs == [] && !stopping {
        s := s.(waiting := s.waiting + 1);
        return NoJobYet;
      }
      if stopping && jobs == [] {
        return Closed;
      }
      var job := jobs[0];
      s := Dequeue(maxSize, s);
      jobs := jobs[1..];
      return Took(job);
    }

    method Close()
      requires Valid()
      modifies this
      ensures Valid() && s == Next(maxSize, old(s), Stop)
    {
      hide Run;
      Advance(Stop);
      stopping := true;
      s := s.(stopping := true, all := s.all + 1);
    }
  }

  // ---- what every run keeps ----------------------------------------------------------------------

  // first in, first out, within the bound, and nobody is left waiting once stopped
  ghost predicate Orderly(max: nat, s: State) {
    && s.pushed == s.popped + s.jobs
    && (max > 0 ==> |s.jobs| <= max)
    && (s.stopping && (s.waiting > 0 || s.blocked != multiset{}) ==> s.all > 0)
  }

  lemma OrderlyStep(max: nat, s: State, e: Event)
    requires Enabled(s, e) && Orderly(max, s)
    ensures Orderly(max, Next(max, s, e))
  {
    if e.Pop? && s.jobs != [] {
      assert s.popped + s.jobs == s.popped + [s.jobs[0]] + s.jobs[1..];
    }
  }

  /** Every run, with blocking producers or without, is first in first out and bounded. */
  lemma {:induction false} OrderlyRun(max: nat, run: seq<Event>, states: seq<State>, n: nat)
    requires Run(max, run, states) && n <= |run|
    ensures Orderly(max, states[n])
    decreases n
  {
    if n > 0 {
      OrderlyRun(max, run, states, n - 1);
      OrderlyStep(max, states[n - 1], run[n - 1]);
    }
  }

  // a consumer waits while more jobs are queued than threads are on their way to them
  predicate LostWakeUp(s: State) {
    s.waiting > 0 && |s.jobs| > s.woken + s.one
  }

  ghost predicate NeverBlocks(max: nat, run: seq<Event>) {
    max == 0 || forall k :: 0 <= k < |run| ==> !run[k].Push?
  }

  ghost predicate Attentive(s: State) {
    s.blocked == multiset{} && s.roused == multiset{} && !LostWakeUp(s)
  }

  lemma AttentiveStep(max: nat, s: State, e: Event)
    requires Enabled(s, e) && Attentive(s) && (max == 0 || !e.Push?)
    ensures Attentive(Next(max, s, e))
  {
  }

  /** Without producers that block, no wake-up is ever lost. */
  lemma {:induction false} NoLostWakeUp(max: nat, run: seq<Event>, states: seq<State>, n: nat)
    requires Run(max, run, states) && n <= |run| && NeverBlocks(max, run)
    ensures Attentive(states[n])
    decreases n
  {
    if n > 0 {
      NoLostWakeUp(max, run, states, n - 1);
      AttentiveStep(max, states[n - 1], run[n - 1]);
    }
  }

  // nothing will happen until a thread outside the queue calls into it
  predicate AtRest(s: State) {
    s.woken == 0 && s.roused == multiset{} && s.one == 0 && s.all == 0
  }

  /** A queue at rest with a consumer still waiting has no work and was not stopped. */
  lemma RestMeansIdle(max: nat, run: seq<Event>, states: seq<State>, n: nat)
    requires Run(max, run, states) && n <= |run| && NeverBlocks(max, run)
    requires AtRest(states[n]) && states[n].waiting > 0
    ensures states[n].jobs == [] && !states[n].stopping && states[n].pushed == states[n].popped
  {
    NoLostWakeUp(max, run, states, n);
    OrderlyRun(max, run, states, n);
  }

  // ---- blocking producers: where the guarantee ends ----------------------------------------------

  ghost predicate Reachable(max: nat, s: State) {
    exists run, states :: Run(max, run, states) && states[|run|] == s
  }

  lemma ReachableInitially(max: nat)
    ensures Reachable(max, INITIAL)
  {
    var run: seq<Event>, states := [], [INITIAL];
    assert Run(max, run, states) && states[|run|] == INITIAL;
  }

  lemma ReachableNext(max: nat, s: State, e: Event)
    requires Reachable(max, s) && Enabled(s, e)
    ensures Reachable(max, Next(max, s, e))
  {
    hide Next, Enabled;
    var run, states :| Run(max, run, states) && states[|run|] == s;
    var run', states' := run + [e], states + [Next(max, s, e)];
    assert Run(max, run', states') && states'[|run'|] == Next(max, s, e);
  }

  // a consumer went to wait, then k jobs were queued, none of their notifications delivered yet
  lemma {:induction false} FillReached(max: nat, k: nat) returns (s: State)
    requires k <= max
    ensures Reachable(max, s) && |s.jobs| == k && !s.stopping
    ensures s.waiting == 1 && s.woken == 0 && s.one == k && s.all == 0
    ensures s.blocked == multiset{} && s.roused == multiset{}
    decreases k
  {
    if k == 0 {
      ReachableInitially(max);
      ReachableNext(max, INITIAL, Pop(false));
      s := Next(max, INITIAL, Pop(false));
    } else {
      var t := FillReached(max, k - 1);
      ReachableNext(max, t, TryPush(0));
      s := Next(max, t, TryPush(0));
    }
  }

  // each notification wakes the blocked producer, which finds the queue full and waits again
  lemma {:induction false} NotifiesAbsorbed(max: nat, s: State) returns (t: State)
    requires Reachable(max, s) && Full(max, s) && !s.stopping && s.blocked == multiset{0} && s.roused == multiset{}
    requires s.waiting == 1 && s.woken == 0 && s.all == 0
    ensures Reachable(max, t) && AtRest(t) && LostWakeUp(t)
    decreases s.one
  {
    if s.one == 0 {
      t := s;
    } else {
      var u := Next(max, s, NotifyOne(Producer(0)));
      ReachableNext(max, s, NotifyOne(Producer(0)));
      assert u.roused == multiset{0};
      var v := Next(max, u, Push(0, true));
      ReachableNext(max, u, Push(0, true));
      assert v.blocked == multiset{0} && v.roused == multiset{};
      t := NotifiesAbsorbed(max, v);
    }
  }

  /** With a bounded queue and one blocking producer a run comes to rest with work and a waiting consumer. */
  lemma BlockingLosesWakeUp(max: nat) returns (t: State)
    requires max > 0
    ensures Reachable(max, t) && AtRest(t) && LostWakeUp(t) && t.waiting > 0 && t.jobs != []
  {
    var s := FillReached(max, max);
    var u := Next(max, s, Push(0, false));
    ReachableNext(max, s, Push(0, false));
    assert u.blocked == multiset{0};
    t := NotifiesAbsorbed(max, u);
  }

  /** No run at all can lose a wake-up exactly if the queue is unbounded, so that no producer ever blocks. */
  lemma WakeUpsSafeExactly(max: nat)
    ensures (forall s :: Reachable(max, s) ==> !LostWakeUp(s)) <==> max == 0
  {
    if max == 0 {
      forall s | Reachable(max, s) ensures !LostWakeUp(s) {
        var run, states :| Run(max, run, states) && states[|run|] == s;
        NoLostWakeUp(max, run, states, |run|);
      }
    } else {
      var t := BlockingLosesWakeUp(max);
    }
  }
}
