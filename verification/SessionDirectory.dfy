/**
 Sticky routing: which backend a client is bound to. Every gateway keeps a local cache in
 front of one shared Redis store and changes the store only by compare-and-set scripts.

 Any number of calls of any number of gateways are in progress at once. A step is one script,
 one read of the store, or one critical section on a cache; requests and replies may get lost,
 cache entries and bindings may expire at any moment.
 */
module SessionDirectory {
  import opened Wrappers

  // backends by client; all gateways use the same key prefix
  type Bindings = map<string, string>

  // ---- the store's scripts -----------------------------------------------------------------------

  datatype StoreOp =
    | SetIfAbsent(key: string, value: string)
    | SetIfEquals(key: string, value: string)      // expected and new value are the same
    | DelIfEquals(key: string, expected: string)
    | Expire(key: string)

  function Run(m: Bindings, op: StoreOp): Bindings {
    match op
    case SetIfAbsent(k, v) => if k in m then m else m[k := v]
    case SetIfEquals(k, v) => if k in m && m[k] == v then m[k := v] else m
    case DelIfEquals(k, v) => if k in m && m[k] == v then m - {k} else m
    case Expire(k) => m - {k}
  }

  function Binding(m: Bindings, key: string): Option<string> {
    if key in m then Some(m[key]) else None
  }

  /**
   A binding only goes from absent to b, stays b, or goes from b to absent, and a removal by a
   gateway removes only the backend it names: acting on a stale cache never overwrites or
   deletes a newer binding.
   */
  lemma BindingMoves(m: Bindings, op: StoreOp, key: string)
    ensures var (b, b') := (Binding(m, key), Binding(Run(m, op), key));
      && (b.None? && b'.Some? ==> op == SetIfAbsent(key, b'.value))
      && (b.Some? && b'.Some? ==> b == b')
      && (b.Some? && b'.None? ==> op == DelIfEquals(key, b.value) || op == Expire(key))
  {
  }

  // ---- calls in progress -------------------------------------------------------------------------

  datatype Slot = Slot(gateway: nat, client: string)

  datatype Task = Find | Ensure(desired: string) | Release(backend: string)

  datatype Stage =
    | Looking                                   // in the cache
    | Getting                                   // from the store
    | Caching(backend: string, found: bool)     // about to remember; found: by the lookup
    | Refreshing(backend: string)
    | Claiming
    | Rereading
    | FallingBack                               // about to cache a backend the store did not confirm
    | Dropping
    | Deleting
    | Answered(answer: Option<string>)

  datatype Call = Call(gateway: nat, client: string, task: Task, stage: Stage) {
    function SlotOf(): Slot {
      Slot(gateway, client)
    }
  }

  datatype World = World(store: Bindings, caches: map<Slot, string>, calls: map<nat, Call>)

  datatype Event =
    | Start(c: nat, gateway: nat, client: string, task: Task)
    | Step(c: nat, arrives: bool, answered: bool)     // whether the request and the reply get through
    | Evict(slot: Slot)
    | Lapse(client: string)                           // the store's binding expires

  function FirstStage(client: string, task: Task): Stage {
    if client == "" || (task.Ensure? && task.desired == "") || (task.Release? && task.backend == "") then Answered(None)
    else if task.Release? then Dropping
    else Looking
  }

  // the lookup has found a backend, or none
  function Found(call: Call, backend: string): Call {
    call.(stage := if call.task == Ensure(backend) then Refreshing(backend) else Answered(Some(backend)))
  }

  function Missing(call: Call): Call {
    call.(stage := if call.task.Ensure? then Claiming else Answered(None))
  }

  // a lost reply looks like an absent key, and so does an empty value
  function Read(store: Bindings, client: string, gotThrough: bool): Option<string> {
    if gotThrough && client in store && store[client] != "" then Some(store[client]) else None
  }

  // the script a call's step sends to the store, if it does
  function ScriptOf(call: Call): Option<StoreOp> {
    match call.stage
    case Refreshing(backend) => Some(SetIfEquals(call.client, backend))
    case Claiming => if call.task.Ensure? then Some(SetIfAbsent(call.client, call.task.desired)) else None
    case Deleting => if call.task.Release? then Some(DelIfEquals(call.client, call.task.backend)) else None
    case _ => None
  }

  function StoreAfter(store: Bindings, call: Call, arrives: bool): Bindings {
    if arrives && ScriptOf(call).Some? then Run(store, ScriptOf(call).value) else store
  }

  function CachesAfter(caches: map<Slot, string>, call: Call): map<Slot, string> {
    var slot := call.SlotOf();
    match call.stage
    case Caching(backend, _) => caches[slot := backend]
    case FallingBack => if call.task.Ensure? then caches[slot := call.task.desired] else caches
    case Dropping => if slot in caches && call.task == Release(caches[slot]) then caches - {slot} else caches
    case _ => caches
  }

  function CallAfter(store: Bindings, caches: map<Slot, string>, call: Call, arrives: bool, answered: bool): Call {
    match call.stage
    case Looking => if call.SlotOf() in caches then Found(call, caches[call.SlotOf()]) else call.(stage := Getting)
    case Getting =>
      var got := Read(store, call.client, arrives && answered);
      if got.Some? then call.(stage := Caching(got.value, true)) else Missing(call)
    case Caching(backend, found) => if found then Found(call, backend) else call.(stage := Answered(Some(backend)))
    case Refreshing(backend) => call.(stage := Answered(Some(backend)))
    case Claiming =>
      if call.task.Ensure? && call.client !in store && arrives && answered
      then call.(stage := Caching(call.task.desired, false)) else call.(stage := Rereading)
    case Rereading =>
      var got := Read(store, call.client, arrives && answered);
      call.(stage := if got.Some? then Caching(got.value, false) else FallingBack)
    case FallingBack => call.(stage := Answered(if call.task.Ensure? then Some(call.task.desired) else None))
    case Dropping => call.(stage := Deleting)
    case Deleting => call.(stage := Answered(None))
    case Answered(_) => call
  }

  predicate Enabled(w: World, e: Event) {
    match e
    case Start(c, _, _, _) => c !in w.calls
    case Step(c, _, _) => c in w.calls && !w.calls[c].stage.Answered?
    case Evict(_) => true
    case Lapse(_) => true
  }

  function Next(w: World, e: Event): World {
    match e
    case Start(c, gateway, client, task) =>
      w.(calls := w.calls[c := Call(gateway, client, task, FirstStage(client, task))])
    case Step(c, arrives, answered) =>
      if c !in w.calls then w
      else
        var call := w.calls[c];
        World(StoreAfter(w.store, call, arrives), CachesAfter(w.caches, call),
              w.calls[c := CallAfter(w.store, w.caches, call, arrives, answered)])
    case Evict(slot) => w.(caches := w.caches - {slot})
    case Lapse(client) => w.(store := Run(w.store, Expire(client)))
  }

  function WorldAt(w: World, run: seq<Event>, n: nat): World
    requires n <= |run|
  {
    if n == 0 then w else Next(WorldAt(w, run, n - 1), run[n - 1])
  }

  predicate Possible(w: World, run: seq<Event>) {
    forall i :: 0 <= i < |run| ==> Enabled(WorldAt(w, run, i), run[i])
  }

  // nothing in progress, and every cache agrees with the store
  predicate Initial(w: World) {
    && w.calls == map[] && (forall k :: k in w.store ==> w.store[k] != "")
    && (forall s :: s in w.caches ==> s.client in w.store && w.caches[s] == w.store[s.client])
  }

  // ---- bindings over whole runs ------------------------------------------------------------------

  // the event takes the client's binding away
  predicate Unbinds(w: World, e: Event, client: string) {
    client in w.store && client !in Next(w, e).store
  }

  /** One step of anybody leaves a client's binding alone, makes it, or takes it away. */
  lemma StepMoves(w: World, e: Event, client: string)
    requires client in w.store && !Unbinds(w, e, client)
    ensures client in Next(w, e).store && Next(w, e).store[client] == w.store[client]
  {
  }

  /** A bound client stays bound to the same backend until its binding is taken away. */
  lemma {:induction false} BindingStays(w: World, run: seq<Event>, client: string, i: nat, j: nat)
    requires i <= j <= |run| && client in WorldAt(w, run, i).store
    requires forall k :: i <= k < j ==> !Unbinds(WorldAt(w, run, k), run[k], client)
    ensures client in WorldAt(w, run, j).store && WorldAt(w, run, j).store[client] == WorldAt(w, run, i).store[client]
    decreases j
  {
    hide Next, Unbinds;
    if i < j {
      BindingStays(w, run, client, i, j - 1);
      StepMoves(WorldAt(w, run, j - 1), run[j - 1], client);
    }
  }

  /** A client changes backends only after a moment in which it was bound to none. */
  lemma {:induction false} RebindingNeedsGap(w: World, run: seq<Event>, client: string, i: nat, j: nat) returns (gap: nat)
    requires i <= j <= |run| && client in WorldAt(w, run, i).store && client in WorldAt(w, run, j).store
    requires WorldAt(w, run, i).store[client] != WorldAt(w, run, j).store[client]
    ensures i < gap < j && client !in WorldAt(w, run, gap).store
    decreases j
  {
    hide Next;
    if client in WorldAt(w, run, j - 1).store {
      assert !Unbinds(WorldAt(w, run, j - 1), run[j - 1], client);
      StepMoves(WorldAt(w, run, j - 1), run[j - 1], client);
      gap := RebindingNeedsGap(w, run, client, i, j - 1);
    } else {
      gap := j - 1;
    }
  }

  // ---- agreement ---------------------------------------------------------------------------------

  // the client's binding goes away, the claim of an unbound client is lost on the way, or a second reading is lost
  predicate Disturbs(w: World, e: Event, client: string) {
    || Unbinds(w, e, client)
    || (&& e.Step? && e.c in w.calls && w.calls[e.c].client == client
        && ((w.calls[e.c].stage.Claiming? && client !in w.store && !e.arrives) || (w.calls[e.c].stage.Rereading? && !(e.arrives && e.answered))))
  }

  ghost predicate Undisturbed(w: World, run: seq<Event>, n: nat, client: string)
    requires n <= |run|
  {
    forall k :: 0 <= k < n ==> !Disturbs(WorldAt(w, run, k), run[k], client)
  }

  predicate Is(store: Bindings, client: string, backend: string) {
    client in store && store[client] == backend
  }

  // whatever backend a call holds is the one the store holds
  predicate CallAgrees(store: Bindings, call: Call) {
    match call.stage
    case Looking => call.client != "" && (call.task.Ensure? ==> call.task.desired != "")
    case Getting => call.client != "" && (call.task.Ensure? ==> call.task.desired != "")
    case Caching(backend, _) => Is(store, call.client, backend)
    case Refreshing(backend) => Is(store, call.client, backend)
    case Claiming => call.task.Ensure? && call.task.desired != ""
    case Rereading => call.client in store && call.task.Ensure?
    case FallingBack => false
    case Dropping => call.task.Release?
    case Deleting => call.task.Release?
    case Answered(answer) =>
      && (answer.Some? ==> Is(store, call.client, answer.value))
      && (call.task.Ensure? && call.client != "" && call.task.desired != "" ==> answer.Some?)
  }

  predicate CacheAgrees(store: Bindings, caches: map<Slot, string>, client: string) {
    && (client in store ==> store[client] != "")
    && (forall s :: s in caches && s.client == client ==> Is(store, client, caches[s]))
  }

  ghost predicate Agreed(w: World, client: string) {
    && CacheAgrees(w.store, w.caches, client)
    && (forall c :: c in w.calls && w.calls[c].client == client ==> CallAgrees(w.store, w.calls[c]))
  }

  // the client's binding is as it was, or has just been made
  predicate Grown(store: Bindings, store': Bindings, client: string) {
    client in store ==> Is(store', client, store[client])
  }

  lemma CallStillAgrees(store: Bindings, store': Bindings, call: Call)
    requires CallAgrees(store, call) && Grown(store, store', call.client)
    ensures CallAgrees(store', call)
  {
  }

  lemma CallAfterAgrees(w: World, c: nat, arrives: bool, answered: bool)
    requires c in w.calls && CallAgrees(w.store, w.calls[c]) && CacheAgrees(w.store, w.caches, w.calls[c].client)
    requires !Disturbs(w, Step(c, arrives, answered), w.calls[c].client)
    ensures var call := w.calls[c];
      CallAgrees(StoreAfter(w.store, call, arrives), CallAfter(w.store, w.caches, call, arrives, answered))
  {
  }

  lemma CachesAfterAgree(w: World, c: nat, arrives: bool, answered: bool, client: string)
    requires c in w.calls && CacheAgrees(w.store, w.caches, client)
    requires w.calls[c].client == client ==> CallAgrees(w.store, w.calls[c])
    requires !Disturbs(w, Step(c, arrives, answered), client)
    ensures Grown(w.store, StoreAfter(w.store, w.calls[c], arrives), client)
    ensures CacheAgrees(StoreAfter(w.store, w.calls[c], arrives), CachesAfter(w.caches, w.calls[c]), client)
  {
  }

  lemma CallKeepsClient(store: Bindings, caches: map<Slot, string>, call: Call, arrives: bool, answered: bool)
    ensures CallAfter(store, caches, call, arrives, answered).client == call.client
  {
  }

  lemma StepAgreed(w: World, c: nat, arrives: bool, answered: bool, client: string)
    requires c in w.calls && Agreed(w, client) && !Disturbs(w, Step(c, arrives, answered), client)
    ensures Agreed(Next(w, Step(c, arrives, answered)), client)
  {
    CachesAfterAgree(w, c, arrives, answered, client);
    CallKeepsClient(w.store, w.caches, w.calls[c], arrives, answered);
    if w.calls[c].client == client {
      CallAfterAgrees(w, c, arrives, answered);
    }
    hide StoreAfter, CachesAfter, CallAfter, CallAgrees, CacheAgrees, Grown, Disturbs;
    var w' := Next(w, Step(c, arrives, answered));
    forall d | d in w'.calls && w'.calls[d].client == client ensures CallAgrees(w'.store, w'.calls[d]) {
      if d != c {
        CallStillAgrees(w.store, w'.store, w.calls[d]);
      }
    }
  }

  lemma OtherAgreed(w: World, e: Event, client: string)
    requires !e.Step? && Agreed(w, client) && !Disturbs(w, e, client)
    ensures Agreed(Next(w, e), client)
  {
    if e.Lapse? {
      var w' := Next(w, e);
      forall d | d in w'.calls && w'.calls[d].client == client ensures CallAgrees(w'.store, w'.calls[d]) {
        CallStillAgrees(w.store, w'.store, w.calls[d]);
      }
    }
  }

  lemma {:induction false} AgreedRun(w: World, run: seq<Event>, n: nat, client: string)
    requires Initial(w) && Possible(w, run) && n <= |run| && Undisturbed(w, run, n, client)
    ensures Agreed(WorldAt(w, run, n), client)
    decreases n
  {
    hide Next, Disturbs, CallAgrees;
    if n > 0 {
      hide Agreed, Initial;
      AgreedRun(w, run, n - 1, client);
      if run[n - 1].Step? {
        assert Enabled(WorldAt(w, run, n - 1), run[n - 1]);
        StepAgreed(WorldAt(w, run, n - 1), run[n - 1].c, run[n - 1].arrives, run[n - 1].answered, client);
      } else {
        OtherAgreed(WorldAt(w, run, n - 1), run[n - 1], client);
      }
    }
  }

  // the call has been answered with a backend
  predicate Got(w: World, c: nat, client: string, backend: string) {
    c in w.calls && w.calls[c].client == client && w.calls[c].stage == Answered(Some(backend))
  }

  /**
   Agreement. However the calls of any gateways overlap, whatever expires in their caches and
   whatever else gets lost: as long as the client's binding is not taken away, no claim for it is
   lost while it is unbound and no second reading is lost, all answers for the client name one backend, which is
   the one in the store, and every claim that is answered at all is answered with it.
   */
  lemma AnswersAgree(w: World, run: seq<Event>, n: nat, client: string, c: nat, d: nat, a: string, b: string)
    requires Initial(w) && Possible(w, run) && n <= |run| && Undisturbed(w, run, n, client)
    requires Got(WorldAt(w, run, n), c, client, a) && Got(WorldAt(w, run, n), d, client, b)
    ensures a == b && Is(WorldAt(w, run, n).store, client, a)
  {
    hide Possible, Undisturbed, Initial, WorldAt;
    AgreedRun(w, run, n, client);
    var s := WorldAt(w, run, n);
    assert CallAgrees(s.store, s.calls[c]) && CallAgrees(s.store, s.calls[d]);
  }

  /** Under the same conditions no claim goes unanswered, and none falls back on its own wish. */
  lemma ClaimsAnswered(w: World, run: seq<Event>, n: nat, client: string, c: nat)
    requires Initial(w) && Possible(w, run) && n <= |run| && Undisturbed(w, run, n, client)
    requires c in WorldAt(w, run, n).calls
    requires var call := WorldAt(w, run, n).calls[c];
      call.client == client != "" && call.task.Ensure? && call.task.desired != ""
    ensures var call := WorldAt(w, run, n).calls[c];
      !call.stage.FallingBack? && (call.stage.Answered? ==> call.stage.answer.Some?)
  {
    hide Possible, Undisturbed, Initial, WorldAt;
    AgreedRun(w, run, n, client);
    var s := WorldAt(w, run, n);
    assert CallAgrees(s.store, s.calls[c]);
  }

  // ---- each disturbance alone can make answers differ -----------------------------------------------

  // the run is possible and leads there
  ghost predicate Leads(w: World, run: seq<Event>, w': World) {
    Possible(w, run) && WorldAt(w, run, |run|) == w'
  }

  lemma {:induction false} WorldAtPrefix(w: World, a: seq<Event>, b: seq<Event>, n: nat)
    requires n <= |a|
    ensures WorldAt(w, a + b, n) == WorldAt(w, a, n)
    decreases n
  {
    hide Next;
    if n > 0 {
      WorldAtPrefix(w, a, b, n - 1);
    }
  }

  lemma {:induction false} WorldAtRest(w: World, a: seq<Event>, b: seq<Event>, n: nat)
    requires n <= |b|
    ensures WorldAt(w, a + b, |a| + n) == WorldAt(WorldAt(w, a, |a|), b, n)
    decreases n
  {
    hide Next;
    if n == 0 {
      WorldAtPrefix(w, a, b, |a|);
    } else {
      WorldAtRest(w, a, b, n - 1);
      assert (a + b)[|a| + n - 1] == b[n - 1];
    }
  }

  lemma LeadsOn(w: World, a: seq<Event>, u: World, b: seq<Event>, v: World)
    requires Leads(w, a, u) && Leads(u, b, v)
    ensures Leads(w, a + b, v)
  {
    hide WorldAt, Enabled;
    var run := a + b;
    forall i | 0 <= i < |run| ensures Enabled(WorldAt(w, run, i), run[i]) {
      if i < |a| {
        WorldAtPrefix(w, a, b, i);
      } else {
        WorldAtRest(w, a, b, i - |a|);
      }
    }
    WorldAtRest(w, a, b, |b|);
  }

  lemma LeadsOne(w: World, e: Event)
    requires Enabled(w, e)
    ensures Leads(w, [e], Next(w, e))
  {
    assert WorldAt(w, [e], 1) == Next(WorldAt(w, [e], 0), e);
  }

  lemma Nowhere(w: World)
    ensures Leads(w, [], w)
  {
  }

  lemma More(w: World, run: seq<Event>, u: World, e: Event) returns (run': seq<Event>, u': World)
    requires Leads(w, run, u) && Enabled(u, e)
    ensures Leads(w, run', u') && u' == Next(u, e)
  {
    LeadsOne(u, e);
    LeadsOn(w, run, u, [e], Next(u, e));
    run', u' := run + [e], Next(u, e);
  }

  // the call steps on, with or without losses
  lemma Steps(w: World, run: seq<Event>, u: World, c: nat, call: Call, arrives: bool, answered: bool)
    returns (run': seq<Event>, u': World)
    requires Leads(w, run, u) && c in u.calls && u.calls[c] == call && !call.stage.Answered?
    ensures Leads(w, run', u')
    ensures u' == World(StoreAfter(u.store, call, arrives), CachesAfter(u.caches, call),
                        u.calls[c := CallAfter(u.store, u.caches, call, arrives, answered)])
  {
    hide Leads, StoreAfter, CachesAfter, CallAfter;
    run', u' := More(w, run, u, Step(c, arrives, answered));
  }

  lemma Starts(w: World, run: seq<Event>, u: World, c: nat, g: nat, client: string, task: Task)
    returns (run': seq<Event>, u': World)
    requires Leads(w, run, u) && c !in u.calls
    ensures Leads(w, run', u')
    ensures u' == u.(calls := u.calls[c := Call(g, client, task, FirstStage(client, task))])
  {
    hide Leads, FirstStage;
    run', u' := More(w, run, u, Start(c, g, client, task));
  }

  function Answer(g: nat, client: string, task: Task, backend: string): Call {
    Call(g, client, task, Answered(Some(backend)))
  }

  // a claim that has looked in vain, up to the moment it sends its script
  lemma ReachesClaim(w: World, run: seq<Event>, u: World, c: nat, g: nat, client: string, b: string)
    returns (run': seq<Event>, u': World)
    requires Leads(w, run, u) && client != "" && b != ""
    requires client !in u.store && Slot(g, client) !in u.caches && c !in u.calls
    ensures Leads(w, run', u') && u' == u.(calls := u.calls[c := Call(g, client, Ensure(b), Claiming)])
  {
    hide Leads;
    run', u' := Starts(w, run, u, c, g, client, Ensure(b));
    run', u' := Steps(w, run', u', c, Call(g, client, Ensure(b), Looking), true, true);
    run', u' := Steps(w, run', u', c, Call(g, client, Ensure(b), Getting), true, true);
    assert u'.calls == u.calls[c := Call(g, client, Ensure(b), Claiming)];
  }

  // a claim of a client nobody has bound or cached binds it
  lemma ClaimBinds(w: World, run: seq<Event>, u: World, c: nat, g: nat, client: string, b: string)
    returns (run': seq<Event>, u': World)
    requires Leads(w, run, u) && client != "" && b != ""
    requires client !in u.store && Slot(g, client) !in u.caches && c !in u.calls
    ensures Leads(w, run', u')
    ensures u' == World(u.store[client := b], u.caches[Slot(g, client) := b], u.calls[c := Answer(g, client, Ensure(b), b)])
  {
    hide Leads;
    run', u' := ReachesClaim(w, run, u, c, g, client, b);
    run', u' := Steps(w, run', u', c, Call(g, client, Ensure(b), Claiming), true, true);
    run', u' := Steps(w, run', u', c, Call(g, client, Ensure(b), Caching(b, false)), true, true);
    assert u'.calls == u.calls[c := Answer(g, client, Ensure(b), b)];
  }

  // gateway 0 knows the client's backend from its cache
  function Cached(client: string, a: string): World {
    World(map[client := a], map[Slot(0, client) := a], map[])
  }

  lemma CacheAnswers(client: string, a: string) returns (run: seq<Event>, u: World)
    requires client != "" && a != ""
    ensures Initial(Cached(client, a)) && Leads(Cached(client, a), run, u)
    ensures u == Cached(client, a).(calls := map[0 := Answer(0, client, Find, a)])
  {
    hide Leads;
    var w := Cached(client, a);
    Nowhere(w);
    run, u := Starts(w, [], w, 0, 0, client, Find);
    run, u := Steps(w, run, u, 0, Call(0, client, Find, Looking), true, true);
  }

  /** After the binding has expired, a second gateway's claim gets another backend than the first answered. */
  lemma ExpiryDivides(client: string, a: string, b: string) returns (run: seq<Event>, u: World)
    requires client != "" && a != "" && b != ""
    ensures Initial(Cached(client, a)) && Leads(Cached(client, a), run, u) && Got(u, 0, client, a) && Got(u, 1, client, b)
  {
    hide Leads;
    var w := Cached(client, a);
    run, u := CacheAnswers(client, a);
    run, u := More(w, run, u, Lapse(client));
    run, u := ClaimBinds(w, run, u, 1, 1, client, b);
  }

  /** So it does after a release. */
  lemma ReleaseDivides(client: string, a: string, b: string) returns (run: seq<Event>, u: World)
    requires client != "" && a != "" && b != ""
    ensures Initial(Cached(client, a)) && Leads(Cached(client, a), run, u) && Got(u, 0, client, a) && Got(u, 1, client, b)
  {
    hide Leads;
    var w := Cached(client, a);
    run, u := CacheAnswers(client, a);
    run, u := Starts(w, run, u, 2, 0, client, Release(a));
    run, u := Steps(w, run, u, 2, Call(0, client, Release(a), Dropping), true, true);
    run, u := Steps(w, run, u, 2, Call(0, client, Release(a), Deleting), true, true);
    run, u := ClaimBinds(w, run, u, 1, 1, client, b);
  }

  /** A claim lost on its way falls back on its own wish, and the next gateway binds another backend. */
  lemma LostClaimDivides(client: string, a: string, b: string) returns (run: seq<Event>, u: World)
    requires client != "" && a != "" && b != ""
    ensures Initial(World(map[], map[], map[])) && Leads(World(map[], map[], map[]), run, u)
    ensures Got(u, 0, client, a) && Got(u, 1, client, b)
  {
    hide Leads;
    var w := World(map[], map[], map[]);
    Nowhere(w);
    run, u := ReachesClaim(w, [], w, 0, 0, client, a);
    run, u := Steps(w, run, u, 0, Call(0, client, Ensure(a), Claiming), false, false);
    run, u := Steps(w, run, u, 0, Call(0, client, Ensure(a), Rereading), true, true);
    run, u := Steps(w, run, u, 0, Call(0, client, Ensure(a), FallingBack), true, true);
    run, u := ClaimBinds(w, run, u, 1, 1, client, b);
  }

  /** The loser of a race whose second reading is lost falls back on its own wish. */
  lemma LostRereadDivides(client: string, a: string, b: string) returns (run: seq<Event>, u: World)
    requires client != "" && a != "" && b != ""
    ensures Initial(World(map[], map[], map[])) && Leads(World(map[], map[], map[]), run, u)
    ensures Got(u, 0, client, a) && Got(u, 1, client, b)
  {
    hide Leads;
    var w := World(map[], map[], map[]);
    Nowhere(w);
    run, u := ReachesClaim(w, [], w, 0, 0, client, a);
    run, u := ClaimBinds(w, run, u, 1, 1, client, b);
    run, u := Steps(w, run, u, 0, Call(0, client, Ensure(a), Claiming), true, true);
    run, u := Steps(w, run, u, 0, Call(0, client, Ensure(a), Rereading), true, false);
    run, u := Steps(w, run, u, 0, Call(0, client, Ensure(a), FallingBack), true, true);
  }

  // ---- the operations as they are written ------------------------------------------------------------

  /**
   The gateways' caches and the store they share. Each operation is a call of the machine, made
   step by step; between two steps all other calls may have gone on.
   */
  class Cluster {
    var store: Bindings
    var caches: map<Slot, string>
    ghost var calls: map<nat, Call>
    ghost const first: World
    ghost var run: seq<Event>

    ghost function Now(): World
      reads this
    {
      World(store, caches, calls)
    }

    ghost predicate Valid()
      reads this
    {
      Initial(first) && Leads(first, run, Now())
    }

    constructor (store: Bindings, caches: map<Slot, string>)
      requires Initial(World(store, caches, map[]))
      ensures Valid() && Now() == first == World(store, caches, map[]) && run == []
    {
      this.store, this.caches := store, caches;
      calls, first, run := map[], World(store, caches, map[]), [];
      Nowhere(World(store, caches, map[]));
    }

    /** All answers the gateways have given for an undisturbed client are the same. */
    lemma Agreement(client: string, c: nat, d: nat, a: string, b: string)
      requires Valid() && Undisturbed(first, run, |run|, client) && Got(Now(), c, client, a) && Got(Now(), d, client, b)
      ensures a == b && Is(store, client, a)
    {
      hide Initial, Undisturbed, Got, Possible, WorldAt;
      AnswersAgree(first, run, |run|, client, c, d, a, b);
    }

    // the step from u has been made on the fields; make it in the run
    ghost method Record(u: World, e: Event)
      requires Initial(first) && Leads(first, run, u) && Enabled(u, e)
      requires Next(u, e).store == store && Next(u, e).caches == caches
      modifies this`calls, this`run
      ensures Valid() && run == old(run) + [e] && calls == Next(u, e).calls
    {
      hide Initial, Leads, Enabled, Next;
      LeadsOne(u, e);
      LeadsOn(first, run, u, [e], Next(u, e));
      calls, run := Next(u, e).calls, run + [e];
    }

    /** Stands for whatever all other calls, and the passing of time, do between two steps of call c. */
    method Others(ghost c: nat)
      requires Valid() && c in calls
      modifies this
      ensures Valid() && old(run) <= run && c in calls && calls[c] == old(calls)[c]
    {
    }

    ghost method Begin(c: nat, g: nat, client: string, task: Task)
      requires Valid() && c !in calls
      modifies this`calls, this`run
      ensures Valid() && old(run) <= run && c in calls && calls[c] == Call(g, client, task, FirstStage(client, task))
    {
      hide Initial, Leads, FirstStage;
      Record(Now(), Start(c, g, client, task));
    }

    // the cache first, then the store
    method LookUp(ghost c: nat, g: nat, client: string, ghost task: Task) returns (backend: Option<string>)
      requires Valid() && c in calls && calls[c] == Call(g, client, task, Looking)
      modifies this
      ensures Valid() && old(run) <= run && c in calls
      ensures calls[c] == if backend.Some? then Found(old(calls)[c], backend.value) else Missing(old(calls)[c])
    {
      hide Initial, Leads;
      var slot := Slot(g, client);
      ghost var u := Now();
      if slot in caches {
        var current: bool := *;
        if current {
          backend := Some(caches[slot]);
          Record(u, Step(c, true, true));
          return;
        }
        caches := caches - {slot};
        Record(u, Evict(slot));
        u := Now();
      }
      Record(u, Step(c, true, true));
      Others(c);
      backend := Get(c, client);
      if backend.None? {
        return;
      }
      Others(c);
      Remember(c, slot, backend.value);
    }

    // read the store; a lost reply looks like an absent key
    method Get(ghost c: nat, client: string) returns (value: Option<string>)
      requires Valid() && c in calls && calls[c].client == client && (calls[c].stage.Getting? || calls[c].stage.Rereading?)
      modifies this
      ensures Valid() && old(run) <= run && c in calls
      ensures old(calls)[c].stage.Getting? ==>
        calls[c] == if value.Some? then old(calls)[c].(stage := Caching(value.value, true)) else Missing(old(calls)[c])
      ensures old(calls)[c].stage.Rereading? ==>
        calls[c] == old(calls)[c].(stage := if value.Some? then Caching(value.value, false) else FallingBack)
    {
      hide Initial, Leads;
      var arrives: bool, answered: bool := *, *;
      value := None;
      if arrives && answered && client in store && store[client] != "" {
        value := Some(store[client]);
      }
      Record(Now(), Step(c, arrives, answered));
    }

    // put the backend into the cache
    method Remember(ghost c: nat, slot: Slot, backend: string)
      requires Valid() && c in calls && calls[c].SlotOf() == slot
      requires (calls[c].stage.Caching? && calls[c].stage.backend == backend)
        || (calls[c].stage.FallingBack? && calls[c].task == Ensure(backend))
      modifies this
      ensures Valid() && old(run) <= run && c in calls
      ensures calls[c] ==
        if old(calls)[c].stage.Caching? && old(calls)[c].stage.found then Found(old(calls)[c], backend)
        else old(calls)[c].(stage := Answered(Some(backend)))
    {
      hide Initial, Leads;
      ghost var u := Now();
      caches := caches[slot := backend];
      Record(u, Step(c, true, true));
    }

    method FindBackend(ghost c: nat, g: nat, client: string) returns (backend: Option<string>)
      requires Valid() && c !in calls
      modifies this
      ensures Valid() && old(run) <= run && c in calls && calls[c] == Call(g, client, Find, Answered(backend))
    {
      hide Initial, Leads;
      Begin(c, g, client, Find);
      if client == "" {
        return None;
      }
      Others(c);
      backend := LookUp(c, g, client, Find);
    }

    // keep the binding from expiring if it is still the given one
    method Refresh(ghost c: nat, client: string, backend: string)
      requires Valid() && c in calls && calls[c].client == client && calls[c].stage == Refreshing(backend)
      modifies this
      ensures Valid() && old(run) <= run && c in calls && calls[c] == old(calls)[c].(stage := Answered(Some(backend)))
    {
      hide Initial, Leads;
      ghost var u := Now();
      var arrives: bool := *;
      if arrives && client in store && store[client] == backend {
        store := store[client := backend];
      }
      Record(u, Step(c, arrives, true));
    }

    // bind the client unless it is bound; a lost request or reply looks like a taken key
    method Claim(ghost c: nat, client: string, desired: string) returns (ok: bool)
      requires Valid() && c in calls && calls[c].client == client && calls[c].stage == Claiming && calls[c].task == Ensure(desired)
      modifies this
      ensures Valid() && old(run) <= run && c in calls
      ensures calls[c] == old(calls)[c].(stage := if ok then Caching(desired, false) else Rereading)
    {
      hide Initial, Leads;
      ghost var u := Now();
      var arrives: bool, answered: bool := *, *;
      ok := client !in store;
      if arrives && client !in store {
        store := store[client := desired];
      }
      ok := ok && arrives && answered;
      Record(u, Step(c, arrives, answered));
    }

    /** Claim the client for the desired backend, or learn who has it. */
    method EnsureBackend(ghost c: nat, g: nat, client: string, desired: string) returns (backend: Option<string>)
      requires Valid() && c !in calls
      modifies this
      ensures Valid() && old(run) <= run && c in calls && calls[c] == Call(g, client, Ensure(desired), Answered(backend))
    {
      hide Initial, Leads, Next, Enabled;
      Begin(c, g, client, Ensure(desired));
      if client == "" || desired == "" {
        return None;
      }
      Others(c);
      backend := LookUp(c, g, client, Ensure(desired));
      if backend.Some? {
        if backend.value == desired {
          Others(c);
          Refresh(c, client, desired);
        }
        return;
      }
      Others(c);
      var settled := Settle(c, g, client, desired);
      return Some(settled);
    }

    // nothing found: claim, or else read again, or else fall back on the desired backend
    method Settle(ghost c: nat, g: nat, client: string, desired: string) returns (backend: string)
      requires Valid() && c in calls && calls[c] == Call(g, client, Ensure(desired), Claiming)
      modifies this
      ensures Valid() && old(run) <= run && c in calls
      ensures calls[c] == Call(g, client, Ensure(desired), Answered(Some(backend)))
    {
      hide Initial, Leads, Next, Enabled;
      var claimed := Claim(c, client, desired);
      Others(c);
      if claimed {
        Remember(c, Slot(g, client), desired);
        return desired;
      }
      var current := Get(c, client);
      Others(c);
      backend := if current.Some? then current.value else desired;
      Remember(c, Slot(g, client), backend);
    }

    method Drop(ghost c: nat, slot: Slot, backend: string)
      requires Valid() && c in calls && calls[c].SlotOf() == slot && calls[c].task == Release(backend)
      requires calls[c].stage == Dropping
      modifies this
      ensures Valid() && old(run) <= run && c in calls && calls[c] == old(calls)[c].(stage := Deleting)
    {
      hide Initial, Leads;
      ghost var u := Now();
      if slot in caches && caches[slot] == backend {
        caches := caches - {slot};
      }
      Record(u, Step(c, true, true));
    }

    method Delete(ghost c: nat, client: string, backend: string)
      requires Valid() && c in calls && calls[c].client == client && calls[c].task == Release(backend)
      requires calls[c].stage == Deleting
      modifies this
      ensures Valid() && old(run) <= run && c in calls && calls[c] == old(calls)[c].(stage := Answered(None))
    {
      hide Initial, Leads;
      ghost var u := Now();
      var arrives: bool := *;
      if arrives && client in store && store[client] == backend {
        store := store - {client};
      }
      Record(u, Step(c, arrives, true));
    }

    /** Drop the client's binding if it is still the given one, here and, if the request gets there, in the store. */
    method ReleaseBackend(ghost c: nat, g: nat, client: string, backend: string)
      requires Valid() && c !in calls
      modifies this
      ensures Valid() && old(run) <= run && c in calls && calls[c] == Call(g, client, Release(backend), Answered(None))
    {
      hide Initial, Leads, Next, Enabled;
      Begin(c, g, client, Release(backend));
      if client == "" || backend == "" {
        return;
      }
      Others(c);
      Drop(c, Slot(g, client), backend);
      Others(c);
      Delete(c, client, backend);
    }
  }
}
