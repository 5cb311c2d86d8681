/** The reactive engine behind `signal`, `computed`, `effect`, `effectScope` and
    `untrack`: an arena of nodes addressed by integer ids, with per-node
    dependency and subscriber lists, a dirty flag and cached value per computed,
    an active flag per effect, a duplicate-free pending queue, effect scopes and
    an explicit flush step standing for the microtask the scheduler waits for.

    Evaluator bodies are scripts of reads (`Expr`); an effect body may also
    create nested effects (`Job`). The tracking stack and the evaluating flags
    are an explicit context (`Ctx`) passed down the evaluation, so that every
    push is matched by a pop on every path, including the failing ones. */
module Signals {

  import opened Options

  type Id = nat

  /** An evaluator body. `Get(x)` calls the getter of signal or computed `x`;
      `Cond` treats a nonzero test as true; `Untrack(b)` evaluates `b` inside
      `untrack`; `WriteThen(s, v, rest)` calls the setter of signal `s` with
      the value of `v` and continues with `rest`; `Throw` throws. */
  datatype Expr =
    | Lit(n: int)
    | Get(source: Id)
    | Add(left: Expr, right: Expr)
    | Mul(left: Expr, right: Expr)
    | Cond(test: Expr, ifTrue: Expr, ifFalse: Expr)
    | Untrack(inner: Expr)
    | WriteThen(target: Id, written: Expr, rest: Expr)
    | Throw

  /** An effect body: evaluate `body`, then create the effects `children`, in
      order, from inside the running effect. */
  datatype Job = Job(body: Expr, children: seq<Job>)

  datatype Kind = SignalKind | ComputedKind(evaluator: Expr) | EffectKind(job: Job)

  /** One arena slot. `value` holds a signal's value, a computed's cached value,
      or what an effect's body produced on its last run. `dirty` is meaningful
      for computeds and `active` for effects; `runs` counts how often the
      evaluator of a computed or effect was invoked. */
  datatype Node = Node(kind: Kind, value: int, dirty: bool, active: bool,
                       deps: seq<Id>, subs: seq<Id>, runs: nat)

  /** An effect scope: the effects it owns, in creation order. */
  datatype Scope = Scope(effects: seq<Id>, active: bool)

  /** `NotCallable` is the error of calling something that is not a getter or
      setter (an effect id, or an id not allocated yet). */
  datatype Error = CircularDependency | NotCallable | Thrown

  datatype Res = Ok(value: int) | Err(error: Error)

  datatype Status = Done | Failed(error: Error)

  /** An error an effect threw during a flush, reported instead of aborting the batch. */
  datatype Failure = Failure(effect: Id, error: Error)

  datatype State = State(nodes: seq<Node>, pending: seq<Id>, flushScheduled: bool,
                         scopes: seq<Scope>, failures: seq<Failure>)

  /** A tracking-stack entry: a computed or effect collecting its reads, or the
      marker `untrack` pushes. */
  datatype Frame = Tracking(subscriber: Id) | Untracked

  /** The tracking stack, the computeds currently evaluating, and the stack of
      scopes that newly created effects register with. */
  datatype Ctx = Ctx(frames: seq<Frame>, evaluating: set<Id>, scopes: seq<nat>)

  /** The context of code outside any evaluator, scope callback or untrack. */
  const TopLevel: Ctx := Ctx([], {}, [])

  /** The engine before anything was created. */
  const Initial: State := State([], [], false, [], [])

  // ---------------------------------------------------------------------------
  // Ordered sets of ids (insertion-ordered, as JavaScript's Set iterates)

  function Insert(xs: seq<Id>, x: Id): (r: seq<Id>)
    ensures forall y :: y in r <==> y in xs || y == x
    ensures x in xs ==> r == xs
  {
    if x in xs then xs else xs + [x]
  }

  function Without(xs: seq<Id>, x: Id): (r: seq<Id>)
    ensures forall y :: y in r <==> y in xs && y != x
    ensures x !in xs ==> r == xs
  {
    if xs == [] then []
    else if xs[0] == x then Without(xs[1..], x)
    else [xs[0]] + Without(xs[1..], x)
  }

  // ---------------------------------------------------------------------------
  // Node predicates

  predicate IsSignal(st: State, x: Id) {
    x < |st.nodes| && st.nodes[x].kind.SignalKind?
  }

  predicate IsComputed(st: State, x: Id) {
    x < |st.nodes| && st.nodes[x].kind.ComputedKind?
  }

  predicate IsEffect(st: State, x: Id) {
    x < |st.nodes| && st.nodes[x].kind.EffectKind?
  }

  /** What evaluation never changes: the arena's size, every node's kind and
      every effect's lifecycle flag, run counter and last value, the scopes and
      the failure log. The queue only grows at its end. */
  ghost predicate EvalFrame(st: State, st': State) {
    && |st'.nodes| == |st.nodes|
    && (forall i :: 0 <= i < |st.nodes| ==> st'.nodes[i].kind == st.nodes[i].kind)
    && (forall i :: 0 <= i < |st.nodes| && st.nodes[i].kind.EffectKind? ==>
          st'.nodes[i].active == st.nodes[i].active &&
          st'.nodes[i].runs == st.nodes[i].runs &&
          st'.nodes[i].value == st.nodes[i].value)
    && st'.scopes == st.scopes
    && st'.failures == st.failures
    && st.pending <= st'.pending
  }

  /** What running effects never changes: existing nodes keep their kinds, new
      nodes are appended, and existing scopes keep their activity and only gain
      effects at their end. */
  ghost predicate Grows(st: State, st': State) {
    && |st.nodes| <= |st'.nodes|
    && (forall i :: 0 <= i < |st.nodes| ==> st'.nodes[i].kind == st.nodes[i].kind)
    && |st'.scopes| == |st.scopes|
    && (forall k :: 0 <= k < |st.scopes| ==>
          st'.scopes[k].active == st.scopes[k].active &&
          st.scopes[k].effects <= st'.scopes[k].effects)
  }

  // ---------------------------------------------------------------------------
  // Dependency edges

  /** The subscriber on top of the tracking stack, if tracking is not suspended. */
  predicate Tracks(ctx: Ctx) {
    |ctx.frames| > 0 && ctx.frames[|ctx.frames| - 1].Tracking?
  }

  function Subscriber(ctx: Ctx): Id
    requires Tracks(ctx)
  {
    ctx.frames[|ctx.frames| - 1].subscriber
  }

  /** A getter call registering itself: the reader on top of the tracking stack
      becomes a subscriber of `source`, and `source` one of its dependencies. */
  function Track(st: State, ctx: Ctx, source: Id): (r: State)
    ensures EvalFrame(st, r) && r.pending == st.pending
  {
    if Tracks(ctx) && source < |st.nodes| && Subscriber(ctx) < |st.nodes| then
      var sub := Subscriber(ctx);
      var n1 := st.nodes[source := st.nodes[source].(subs := Insert(st.nodes[source].subs, sub))];
      st.(nodes := n1[sub := n1[sub].(deps := Insert(n1[sub].deps, source))])
    else st
  }

  /** Removes `sub` from the subscriber list of each of `sources`. */
  function Detach(st: State, sub: Id, sources: seq<Id>): (r: State)
    ensures EvalFrame(st, r) && r == st.(nodes := r.nodes)
    ensures forall i :: 0 <= i < |st.nodes| ==> r.nodes[i] == st.nodes[i].(subs := r.nodes[i].subs)
    decreases |sources|
  {
    if sources == [] then st
    else
      var d := sources[0];
      var st1 := if d < |st.nodes|
                 then st.(nodes := st.nodes[d := st.nodes[d].(subs := Without(st.nodes[d].subs, sub))])
                 else st;
      Detach(st1, sub, sources[1..])
  }

  /** Drops every dependency edge of `sub` in both directions, as a computed
      does before it re-evaluates and an effect before it re-runs. */
  function Unlink(st: State, sub: Id): (r: State)
    ensures EvalFrame(st, r) && r.pending == st.pending
    ensures sub < |st.nodes| ==> r.nodes[sub].deps == []
  {
    if sub < |st.nodes| then
      var st1 := Detach(st, sub, st.nodes[sub].deps);
      st1.(nodes := st1.nodes[sub := st1.nodes[sub].(deps := [])])
    else st
  }

  /** Counts one invocation of the evaluator of `x`. */
  function Bump(st: State, x: Id): State
  {
    if x < |st.nodes| then st.(nodes := st.nodes[x := st.nodes[x].(runs := st.nodes[x].runs + 1)])
    else st
  }

  /** Stores a freshly computed value of computed `x` and marks it clean. */
  function Cache(st: State, x: Id, v: int): State
  {
    if x < |st.nodes| then st.(nodes := st.nodes[x := st.nodes[x].(value := v, dirty := false)])
    else st
  }

  // ---------------------------------------------------------------------------
  // Propagation and the scheduler queue

  /** Adds an effect to the pending queue (set semantics) and requests a flush. */
  function Enqueue(st: State, x: Id): State
  {
    st.(pending := Insert(st.pending, x), flushScheduled := true)
  }

  function MarkDirty(st: State, x: Id): State
  {
    if x < |st.nodes| then st.(nodes := st.nodes[x := st.nodes[x].(dirty := true)])
    else st
  }

  /** The ids below `n` not yet visited by a propagation walk. */
  function Unvisited(n: nat, visited: set<Id>): set<Id>
  {
    set i | 0 <= i < n && i !in visited
  }

  /** The reachability walk over subscriber edges, with a visited set so that
      each node is processed at most once however many paths reach it. A clean
      computed becomes dirty and its subscribers join the worklist; an already
      dirty computed stops the walk; an active effect joins the queue. */
  function Walk(st: State, work: seq<Id>, visited: set<Id>): (r: State)
    ensures EvalFrame(st, r) && r == st.(nodes := r.nodes, pending := r.pending, flushScheduled := r.flushScheduled)
    ensures forall i :: 0 <= i < |st.nodes| ==> r.nodes[i] == st.nodes[i].(dirty := r.nodes[i].dirty)
    decreases Unvisited(|st.nodes|, visited), |work|
  {
    if work == [] then st
    else
      var x := work[0];
      if x >= |st.nodes| || x in visited then Walk(st, work[1..], visited)
      else
        var nd := st.nodes[x];
        assert Unvisited(|st.nodes|, visited + {x}) < Unvisited(|st.nodes|, visited) by {
          assert x in Unvisited(|st.nodes|, visited);
        }
        match nd.kind
        case ComputedKind(_) =>
          if nd.dirty then Walk(st, work[1..], visited + {x})
          else Walk(MarkDirty(st, x), work[1..] + nd.subs, visited + {x})
        case EffectKind(_) =>
          Walk(if nd.active then Enqueue(st, x) else st, work[1..], visited + {x})
        case SignalKind =>
          Walk(st, work[1..], visited + {x})
  }

  /** `Propagate(source)`: the walk from the subscribers of a changed signal. */
  function Propagate(st: State, s: Id): (r: State)
    requires s < |st.nodes|
    ensures EvalFrame(st, r)
  {
    Walk(st, st.nodes[s].subs, {s})
  }

  /** A signal's setter: a write of the current value does nothing; any other
      value is stored and propagated. Writing a non-signal does nothing. */
  function Write(st: State, s: Id, v: int): (r: State)
    ensures EvalFrame(st, r)
  {
    if !IsSignal(st, s) || st.nodes[s].value == v then st
    else Propagate(st.(nodes := st.nodes[s := st.nodes[s].(value := v)]), s)
  }

  // ---------------------------------------------------------------------------
  // Evaluation

  /** The computeds that may still start evaluating below the current context. */
  function Idle(n: nat, ctx: Ctx): set<Id>
  {
    set i | 0 <= i < n && i !in ctx.evaluating
  }

  /** The context a computed or effect evaluates its body in. */
  function Enter(ctx: Ctx, x: Id, isComputed: bool): Ctx
  {
    Ctx(ctx.frames + [Tracking(x)], if isComputed then ctx.evaluating + {x} else ctx.evaluating, ctx.scopes)
  }

  /** A getter call `x()` in context `ctx`. A signal returns its value; a
      clean computed returns its cache; a dirty computed that is not evaluating
      drops its old dependencies, evaluates its body with itself on top of the
      tracking stack and caches the result; a dirty computed that is already
      evaluating fails with `CircularDependency`. On success the reader on top
      of the stack subscribes to `x`; on failure the computed's partial
      dependencies are dropped and it stays dirty. */
  function Call(st: State, ctx: Ctx, x: Id): (out: (State, Res))
    ensures EvalFrame(st, out.0)
    decreases Idle(|st.nodes|, ctx), Get(x), 0
  {
    if x >= |st.nodes| then (st, Err(NotCallable))
    else
      var nd := st.nodes[x];
      match nd.kind
      case SignalKind => (Track(st, ctx, x), Ok(nd.value))
      case EffectKind(_) => (st, Err(NotCallable))
      case ComputedKind(body) =>
        if !nd.dirty then (Track(st, ctx, x), Ok(nd.value))
        else if x in ctx.evaluating then (st, Err(CircularDependency))
        else
          var st1 := Bump(Unlink(st, x), x);
          assert Idle(|st1.nodes|, Enter(ctx, x, true)) < Idle(|st.nodes|, ctx) by {
            assert x in Idle(|st.nodes|, ctx);
          }
          var (st2, r) := Eval(st1, Enter(ctx, x, true), body);
          if r.Err? then (Unlink(st2, x), r)
          else (Track(Cache(st2, x, r.value), ctx, x), r)
  }

  /** Evaluates a body in context `ctx`: getter calls register dependencies
      with the subscriber on top of the tracking stack, dirty computeds
      re-evaluate on read, a computed read while it is evaluating fails with
      `CircularDependency`, and the first error aborts the rest of the body. */
  function Eval(st: State, ctx: Ctx, e: Expr): (out: (State, Res))
    ensures EvalFrame(st, out.0)
    decreases Idle(|st.nodes|, ctx), e, 1
  {
    match e
    case Lit(n) => (st, Ok(n))
    case Get(x) => Call(st, ctx, x)
    case Add(l, rt) =>
      var (st1, a) := Eval(st, ctx, l);
      if a.Err? then (st1, a)
      else
        var (st2, b) := Eval(st1, ctx, rt);
        if b.Err? then (st2, b) else (st2, Ok(a.value + b.value))
    case Mul(l, rt) =>
      var (st1, a) := Eval(st, ctx, l);
      if a.Err? then (st1, a)
      else
        var (st2, b) := Eval(st1, ctx, rt);
        if b.Err? then (st2, b) else (st2, Ok(a.value * b.value))
    case Cond(t, y, n) =>
      var (st1, c) := Eval(st, ctx, t);
      if c.Err? then (st1, c)
      else if c.value != 0 then Eval(st1, ctx, y)
      else Eval(st1, ctx, n)
    case Untrack(b) =>
      Eval(st, Ctx(ctx.frames + [Untracked], ctx.evaluating, ctx.scopes), b)
    case WriteThen(s, w, rest) =>
      var (st1, v) := Eval(st, ctx, w);
      if v.Err? then (st1, v)
      else if !IsSignal(st1, s) then (st1, Err(NotCallable))
      else Eval(Write(st1, s, v.value), ctx, rest)
    case Throw => (st, Err(Thrown))
  }

  // ---------------------------------------------------------------------------
  // Effects

  function JobSize(j: Job): nat
  {
    1 + JobsSize(j.children)
  }

  function JobsSize(js: seq<Job>): nat
  {
    if js == [] then 0 else JobSize(js[0]) + JobsSize(js[1..])
  }

  /** Stores what an effect's body produced. */
  function Record(st: State, x: Id, v: int): State
  {
    if x < |st.nodes| then st.(nodes := st.nodes[x := st.nodes[x].(value := v)])
    else st
  }

  /** Allocates a new active effect and registers it with the innermost scope
      whose callback is running, if any. */
  function Alloc(st: State, ctx: Ctx, job: Job): State
  {
    var n := Node(EffectKind(job), 0, false, true, [], [], 0);
    var st1 := st.(nodes := st.nodes + [n]);
    if |ctx.scopes| > 0 && ctx.scopes[|ctx.scopes| - 1] < |st.scopes| then
      var k := ctx.scopes[|ctx.scopes| - 1];
      st1.(scopes := st.scopes[k := st.scopes[k].(effects := st.scopes[k].effects + [|st.nodes|])])
    else st1
  }

  /** The re-evaluation procedure of effect `x` (first run and re-runs alike):
      drop its old dependencies, count the run, evaluate its body with `x` on
      top of the tracking stack, record the value, then create its nested
      effects. Nested effects of earlier runs are left alive. */
  function RunJob(st: State, ctx: Ctx, x: Id, job: Job): (out: (State, Status))
    ensures Grows(st, out.0) && out.0.failures == st.failures
    decreases JobSize(job), 0
  {
    var st1 := Bump(Unlink(st, x), x);
    var inner := Enter(ctx, x, false);
    var (st2, r) := Eval(st1, inner, job.body);
    if r.Err? then (st2, Failed(r.error))
    else CreateAll(Record(st2, x, r.value), inner, job.children)
  }

  /** `effect(job)` called in context `ctx`: the new effect's id is the old arena size. */
  function Spawn(st: State, ctx: Ctx, job: Job): (out: (State, Status))
    ensures Grows(st, out.0) && out.0.failures == st.failures && |out.0.nodes| > |st.nodes|
    decreases JobSize(job), 1
  {
    RunJob(Alloc(st, ctx, job), ctx, |st.nodes|, job)
  }

  /** Creates effects in order; the first failure aborts the rest. */
  function CreateAll(st: State, ctx: Ctx, jobs: seq<Job>): (out: (State, Status))
    ensures Grows(st, out.0) && out.0.failures == st.failures
    decreases JobsSize(jobs), 2
  {
    if jobs == [] then (st, Done)
    else
      var (st1, r) := Spawn(st, ctx, jobs[0]);
      if r.Failed? then (st1, r) else CreateAll(st1, ctx, jobs[1..])
  }

  // ---------------------------------------------------------------------------
  // Lifecycle

  /** `stop()` of effect `x`: inactive, unsubscribed from every dependency and
      out of the pending queue. */
  function Stop(st: State, x: Id): (r: State)
  {
    if !IsEffect(st, x) then st
    else
      var st1 := Unlink(st, x);
      st1.(nodes := st1.nodes[x := st1.nodes[x].(active := false)], pending := Without(st1.pending, x))
  }

  function StopAll(st: State, xs: seq<Id>): (r: State)
    ensures |r.nodes| == |st.nodes| && r.scopes == st.scopes
    decreases |xs|
  {
    if xs == [] then st else StopAll(Stop(st, xs[0]), xs[1..])
  }

  /** A scope's stop function: stops every owned effect and marks the scope
      inactive; on an inactive scope it does nothing. */
  function StopScope(st: State, k: nat): (r: State)
  {
    if k >= |st.scopes| || !st.scopes[k].active then st
    else
      var st1 := StopAll(st, st.scopes[k].effects);
      st1.(scopes := st1.scopes[k := st1.scopes[k].(active := false)])
  }

  // ---------------------------------------------------------------------------
  // The scheduler's flush

  /** How the run of snapshot entry `x` ends: the status of its job when it is
      still an active effect; an entry that is skipped does not fail. */
  function EntryStatus(st: State, x: Id): Status {
    if IsEffect(st, x) && st.nodes[x].active then RunJob(st, TopLevel, x, st.nodes[x].kind.job).1 else Done
  }

  /** One entry of a flush snapshot: re-runs `x` if it is still an active
      effect, logging its failure, if any; any other entry changes nothing. */
  function RunEntry(st: State, x: Id): (r: State)
    ensures Grows(st, r) && st.failures <= r.failures
  {
    if IsEffect(st, x) && st.nodes[x].active then
      var (st2, r) := RunJob(st, TopLevel, x, st.nodes[x].kind.job);
      if r.Failed? then st2.(failures := st2.failures + [Failure(x, r.error)]) else st2
    else st
  }

  /** The failure entry `x` reports: its effect and error when its run fails,
      nothing when it succeeds or is skipped. */
  function EntryLog(st: State, x: Id): seq<Failure> {
    var s := EntryStatus(st, x);
    if s.Failed? then [Failure(x, s.error)] else []
  }

  /** A flush entry appends exactly the failure it reports to the log. */
  lemma RunEntryLog(st: State, x: Id)
    ensures RunEntry(st, x).failures == st.failures + EntryLog(st, x)
  {
    if IsEffect(st, x) && st.nodes[x].active {
      var (st2, s) := RunJob(st, TopLevel, x, st.nodes[x].kind.job);
      assert st2.failures == st.failures;
    }
  }

  /** Runs the snapshot `batch` in order, skipping effects no longer active; an
      effect's failure is logged and the batch goes on. */
  function RunBatch(st: State, batch: seq<Id>): (r: State)
    ensures Grows(st, r) && st.failures <= r.failures
    decreases |batch|
  {
    if batch == [] then st else RunBatch(RunEntry(st, batch[0]), batch[1..])
  }

  /** The flush the scheduler arranges for the next microtask: snapshot and
      clear the queue, then re-run the snapshot. */
  function Flush(st: State): (r: State)
    ensures Grows(st, r) && st.failures <= r.failures
  {
    RunBatch(st.(pending := [], flushScheduled := false), st.pending)
  }

  /** A flush of a queue holding one entry runs that entry alone. */
  lemma FlushSingle(st: State, x: Id)
    requires st.pending == [x]
    ensures Flush(st) == RunEntry(st.(pending := [], flushScheduled := false), x)
  {
    var st0 := st.(pending := [], flushScheduled := false);
    assert Flush(st) == RunBatch(st0, [x]);
    assert RunBatch(st0, [x]) == RunBatch(RunEntry(st0, x), [x][1..]);
    assert [x][1..] == [];
  }

  // ---------------------------------------------------------------------------
  // The public operations

  /** `signal(v)`: the new signal's id is the old arena size. */
  function NewSignal(st: State, v: int): (r: State)
  {
    st.(nodes := st.nodes + [Node(SignalKind, v, false, false, [], [], 0)])
  }

  /** `computed(f)`: created dirty and not evaluated. */
  function NewComputed(st: State, f: Expr): (r: State)
  {
    st.(nodes := st.nodes + [Node(ComputedKind(f), 0, true, false, [], [], 0)])
  }

  /** `effect(job)` outside any evaluator: runs once before it returns. */
  function NewEffect(st: State, job: Job): (out: (State, Status))
  {
    Spawn(st, TopLevel, job)
  }

  /** A getter called outside any evaluator. */
  function Read(st: State, x: Id): (out: (State, Res))
  {
    Call(st, TopLevel, x)
  }

  /** A scope callback: the effects it creates, in order, and whether it throws
      after creating them. */
  datatype Callback = Callback(effects: seq<Job>, throws: bool)

  /** `effectScope(callback?)`: the new scope's index is the old number of
      scopes. Effects the callback creates, nested ones included, register with
      it; an error still leaves the scope in place and is passed on. */
  function NewScope(st: State, callback: Option<Callback>): (out: (State, Status))
  {
    var k := |st.scopes|;
    var st1 := st.(scopes := st.scopes + [Scope([], true)]);
    match callback
    case None => (st1, Done)
    case Some(cb) =>
      var (st2, r) := CreateAll(st1, Ctx([], {}, [k]), cb.effects);
      (st2, if r.Failed? then r else if cb.throws then Failed(Thrown) else Done)
  }
}
