/** The structural invariant of the engine and its preservation by every step:
    dependency and subscriber edges point at nodes of the right kinds and
    mirror each other exactly, the pending queue holds active effects without
    repetition, and scopes own effect ids only. */
module SignalInvariants {

  import opened Options
  import opened Signals

  /** A node a getter call can subscribe to. */
  predicate IsSource(st: State, x: Id) {
    IsSignal(st, x) || IsComputed(st, x)
  }

  /** A node that collects dependencies while it evaluates. */
  predicate IsReader(st: State, x: Id) {
    IsComputed(st, x) || IsEffect(st, x)
  }

  predicate NoDup(xs: seq<Id>) {
    forall i, j :: 0 <= i < j < |xs| ==> xs[i] != xs[j]
  }

  /** Every dependency is a source, every subscriber a reader, and `j` is a
      subscriber of `i` exactly when `i` is a dependency of `j`. */
  ghost predicate EdgesOk(st: State) {
    && (forall i, j :: 0 <= i < |st.nodes| && j in st.nodes[i].deps ==> IsSource(st, j))
    && (forall i, j :: 0 <= i < |st.nodes| && j in st.nodes[i].subs ==> IsReader(st, j))
    && (forall i, j :: 0 <= i < |st.nodes| && 0 <= j < |st.nodes| ==>
          (j in st.nodes[i].subs <==> i in st.nodes[j].deps))
  }

  ghost predicate QueueOk(st: State) {
    && (forall x :: x in st.pending ==> IsEffect(st, x) && st.nodes[x].active)
    && NoDup(st.pending)
  }

  ghost predicate ScopesOk(st: State) {
    forall k, x :: 0 <= k < |st.scopes| && x in st.scopes[k].effects ==> IsEffect(st, x)
  }

  ghost predicate Wf(st: State) {
    EdgesOk(st) && QueueOk(st) && ScopesOk(st)
  }

  /** The subscriber on top of the tracking stack, if any, is a reader. */
  ghost predicate TopOk(st: State, ctx: Ctx) {
    Tracks(ctx) ==> IsReader(st, Subscriber(ctx))
  }

  /** Two states with the same nodes up to values, dirty flags, activity of
      nothing and run counters: edges, kinds, queue and scopes agree. */
  ghost predicate SameShape(st: State, st': State) {
    && |st'.nodes| == |st.nodes|
    && (forall i :: 0 <= i < |st.nodes| ==>
          st'.nodes[i].kind == st.nodes[i].kind &&
          st'.nodes[i].deps == st.nodes[i].deps &&
          st'.nodes[i].subs == st.nodes[i].subs &&
          (st.nodes[i].kind.EffectKind? ==> st'.nodes[i].active == st.nodes[i].active))
    && st'.pending == st.pending
    && st'.scopes == st.scopes
  }

  lemma SameShapeWf(st: State, st': State)
    requires Wf(st) && SameShape(st, st')
    ensures Wf(st')
  {
    assert forall x :: IsEffect(st, x) ==> IsEffect(st', x);
    assert forall x :: IsSource(st, x) ==> IsSource(st', x);
    assert forall x :: IsReader(st, x) ==> IsReader(st', x);
  }

  /** Only the queue changed, into one that is still well-formed. */
  lemma QueueWf(st: State, st': State)
    requires Wf(st) && st'.nodes == st.nodes && st'.scopes == st.scopes && NoDup(st'.pending)
    requires forall x :: x in st'.pending ==> IsEffect(st, x) && st.nodes[x].active
    ensures Wf(st')
  {
    assert forall x :: IsEffect(st, x) ==> IsEffect(st', x);
    assert forall x :: IsSource(st, x) ==> IsSource(st', x);
    assert forall x :: IsReader(st, x) ==> IsReader(st', x);
  }

  /** Kinds of existing nodes are kept and nodes are only appended. */
  ghost predicate KindsKept(st: State, st': State) {
    |st.nodes| <= |st'.nodes| &&
    forall i :: 0 <= i < |st.nodes| ==> st'.nodes[i].kind == st.nodes[i].kind
  }

  /** The failure log plays no part in the invariant. */
  lemma FailuresWf(st: State, failures: seq<Failure>)
    requires Wf(st)
    ensures Wf(st.(failures := failures))
  {
    var r := st.(failures := failures);
    assert forall x :: IsEffect(st, x) ==> IsEffect(r, x);
    assert forall x :: IsSource(st, x) ==> IsSource(r, x);
    assert forall x :: IsReader(st, x) ==> IsReader(r, x);
  }

  /** Changing scope flags, or adding effects to scopes, keeps the invariant. */
  lemma ScopesWf(st: State, scopes: seq<Scope>)
    requires Wf(st)
    requires forall k, x :: 0 <= k < |scopes| && x in scopes[k].effects ==> IsEffect(st, x)
    ensures Wf(st.(scopes := scopes))
  {
    var r := st.(scopes := scopes);
    assert forall x :: IsEffect(st, x) ==> IsEffect(r, x);
    assert forall x :: IsSource(st, x) ==> IsSource(r, x);
    assert forall x :: IsReader(st, x) ==> IsReader(r, x);
  }

  lemma KindsKeptTopOk(st: State, st': State, ctx: Ctx)
    requires TopOk(st, ctx) && KindsKept(st, st')
    ensures TopOk(st', ctx)
  {
  }

  /** Appending a node without edges keeps the invariant. */
  lemma AppendWf(st: State, nd: Node)
    requires Wf(st) && nd.deps == [] && nd.subs == []
    ensures Wf(st.(nodes := st.nodes + [nd]))
  {
    var r := st.(nodes := st.nodes + [nd]);
    var n := |st.nodes|;
    assert forall i :: 0 <= i < n ==> r.nodes[i] == st.nodes[i];
    assert forall x :: IsEffect(st, x) ==> IsEffect(r, x);
    assert forall x :: IsSource(st, x) ==> IsSource(r, x);
    assert forall x :: IsReader(st, x) ==> IsReader(r, x);
    forall i, j | 0 <= i < |r.nodes| && 0 <= j < |r.nodes|
      ensures j in r.nodes[i].subs <==> i in r.nodes[j].deps
    {
      if i < n && j < n {
      } else if i < n {
        assert !IsReader(st, j);
      } else if j < n {
        assert !IsSource(st, i);
      }
    }
  }

  lemma InsertNoDup(xs: seq<Id>, x: Id)
    requires NoDup(xs)
    ensures NoDup(Insert(xs, x))
  {
  }

  lemma {:induction false} WithoutNoDup(xs: seq<Id>, x: Id)
    requires NoDup(xs)
    ensures NoDup(Without(xs, x))
    decreases |xs|
  {
    if xs != [] {
      assert NoDup(xs[1..]);
      WithoutNoDup(xs[1..], x);
      if xs[0] != x {
        assert xs[0] !in xs[1..];
        var w := Without(xs[1..], x);
        assert xs[0] !in w;
        assert Without(xs, x) == [xs[0]] + w;
      }
    }
  }

  // ---------------------------------------------------------------------------
  // Edges

  lemma TrackWf(st: State, ctx: Ctx, source: Id)
    requires Wf(st) && TopOk(st, ctx) && IsSource(st, source)
    ensures Wf(Track(st, ctx, source))
  {
    var r := Track(st, ctx, source);
    if Tracks(ctx) && source < |st.nodes| && Subscriber(ctx) < |st.nodes| {
      var sub := Subscriber(ctx);
      assert forall i :: 0 <= i < |st.nodes| ==>
        r.nodes[i].subs == (if i == source then Insert(st.nodes[i].subs, sub) else st.nodes[i].subs);
      assert forall i :: 0 <= i < |st.nodes| ==>
        r.nodes[i].deps == (if i == sub then Insert(st.nodes[i].deps, source) else st.nodes[i].deps);
      assert forall x :: IsEffect(st, x) ==> IsEffect(r, x);
      assert forall x :: IsSource(st, x) ==> IsSource(r, x);
      assert forall x :: IsReader(st, x) ==> IsReader(r, x);
    }
  }

  /** Detaching removes `sub` from the subscribers of the listed nodes, and only there. */
  lemma {:induction false} DetachSubs(st: State, sub: Id, sources: seq<Id>)
    ensures var r := Detach(st, sub, sources);
      forall i, y :: 0 <= i < |st.nodes| ==>
        (y in r.nodes[i].subs <==> y in st.nodes[i].subs && !(y == sub && i in sources))
    decreases |sources|
  {
    if sources != [] {
      var d := sources[0];
      var st1 := if d < |st.nodes|
                 then st.(nodes := st.nodes[d := st.nodes[d].(subs := Without(st.nodes[d].subs, sub))])
                 else st;
      DetachSubs(st1, sub, sources[1..]);
      assert forall i :: i in sources <==> i == d || i in sources[1..];
    }
  }

  lemma UnlinkWf(st: State, sub: Id)
    requires Wf(st)
    ensures Wf(Unlink(st, sub))
  {
    if sub < |st.nodes| {
      var r := Unlink(st, sub);
      DetachSubs(st, sub, st.nodes[sub].deps);
      assert forall i, y :: 0 <= i < |st.nodes| ==>
        (y in r.nodes[i].subs <==> y in st.nodes[i].subs && !(y == sub && i in st.nodes[sub].deps));
      assert forall i :: 0 <= i < |st.nodes| ==>
        r.nodes[i].deps == (if i == sub then [] else st.nodes[i].deps);
      assert forall x :: IsEffect(st, x) ==> IsEffect(r, x);
      assert forall x :: IsSource(st, x) ==> IsSource(r, x);
      assert forall x :: IsReader(st, x) ==> IsReader(r, x);
    }
  }

  lemma BumpWf(st: State, x: Id)
    requires Wf(st)
    ensures Wf(Bump(st, x))
  {
    SameShapeWf(st, Bump(st, x));
  }

  lemma CacheWf(st: State, x: Id, v: int)
    requires Wf(st)
    ensures Wf(Cache(st, x, v))
  {
    SameShapeWf(st, Cache(st, x, v));
  }

  lemma RecordWf(st: State, x: Id, v: int)
    requires Wf(st)
    ensures Wf(Record(st, x, v))
  {
    SameShapeWf(st, Record(st, x, v));
  }

  // ---------------------------------------------------------------------------
  // Propagation

  lemma {:induction false} WalkWf(st: State, work: seq<Id>, visited: set<Id>)
    requires Wf(st)
    ensures Wf(Walk(st, work, visited))
    decreases Unvisited(|st.nodes|, visited), |work|
  {
    if work != [] {
      var x := work[0];
      if x >= |st.nodes| || x in visited {
        WalkWf(st, work[1..], visited);
      } else {
        var nd := st.nodes[x];
        assert Unvisited(|st.nodes|, visited + {x}) < Unvisited(|st.nodes|, visited) by {
          assert x in Unvisited(|st.nodes|, visited);
        }
        match nd.kind
        case ComputedKind(_) =>
          if nd.dirty {
            WalkWf(st, work[1..], visited + {x});
          } else {
            SameShapeWf(st, MarkDirty(st, x));
            WalkWf(MarkDirty(st, x), work[1..] + nd.subs, visited + {x});
          }
        case EffectKind(_) =>
          if nd.active {
            var st1 := Enqueue(st, x);
            InsertNoDup(st.pending, x);
            QueueWf(st, st1);
            WalkWf(st1, work[1..], visited + {x});
          } else {
            WalkWf(st, work[1..], visited + {x});
          }
        case SignalKind =>
          WalkWf(st, work[1..], visited + {x});
      }
    }
  }

  lemma WriteWf(st: State, s: Id, v: int)
    requires Wf(st)
    ensures Wf(Write(st, s, v))
  {
    if IsSignal(st, s) && st.nodes[s].value != v {
      var st1 := st.(nodes := st.nodes[s := st.nodes[s].(value := v)]);
      SameShapeWf(st, st1);
      WalkWf(st1, st1.nodes[s].subs, {s});
    }
  }

  // ---------------------------------------------------------------------------
  // Evaluation

  lemma {:induction false} CallWf(st: State, ctx: Ctx, x: Id)
    requires Wf(st) && TopOk(st, ctx)
    ensures Wf(Call(st, ctx, x).0)
    decreases Idle(|st.nodes|, ctx), Get(x), 0
  {
    if x < |st.nodes| {
      var nd := st.nodes[x];
      match nd.kind
      case SignalKind => TrackWf(st, ctx, x);
      case EffectKind(_) =>
      case ComputedKind(body) =>
        if !nd.dirty {
          TrackWf(st, ctx, x);
        } else if x !in ctx.evaluating {
          UnlinkWf(st, x);
          BumpWf(Unlink(st, x), x);
          var st1 := Bump(Unlink(st, x), x);
          assert Idle(|st1.nodes|, Enter(ctx, x, true)) < Idle(|st.nodes|, ctx) by {
            assert x in Idle(|st.nodes|, ctx);
          }
          EvalWf(st1, Enter(ctx, x, true), body);
          var (st2, r) := Eval(st1, Enter(ctx, x, true), body);
          if r.Err? {
            UnlinkWf(st2, x);
          } else {
            CacheWf(st2, x, r.value);
            assert KindsKept(st, Cache(st2, x, r.value));
            KindsKeptTopOk(st, Cache(st2, x, r.value), ctx);
            TrackWf(Cache(st2, x, r.value), ctx, x);
          }
        }
    }
  }

  lemma {:induction false} EvalWf(st: State, ctx: Ctx, e: Expr)
    requires Wf(st) && TopOk(st, ctx)
    ensures Wf(Eval(st, ctx, e).0)
    decreases Idle(|st.nodes|, ctx), e, 1
  {
    match e
    case Lit(_) =>
    case Get(x) => CallWf(st, ctx, x);
    case Add(l, rt) =>
      EvalWf(st, ctx, l);
      var (st1, a) := Eval(st, ctx, l);
      if a.Ok? { EvalWf(st1, ctx, rt); }
    case Mul(l, rt) =>
      EvalWf(st, ctx, l);
      var (st1, a) := Eval(st, ctx, l);
      if a.Ok? { EvalWf(st1, ctx, rt); }
    case Cond(t, y, n) =>
      EvalWf(st, ctx, t);
      var (st1, c) := Eval(st, ctx, t);
      if c.Ok? {
        if c.value != 0 { EvalWf(st1, ctx, y); } else { EvalWf(st1, ctx, n); }
      }
    case Untrack(b) =>
      EvalWf(st, Ctx(ctx.frames + [Untracked], ctx.evaluating, ctx.scopes), b);
    case WriteThen(s, w, rest) =>
      EvalWf(st, ctx, w);
      var (st1, v) := Eval(st, ctx, w);
      if v.Ok? && IsSignal(st1, s) {
        WriteWf(st1, s, v.value);
        EvalWf(Write(st1, s, v.value), ctx, rest);
      }
    case Throw =>
  }

  // ---------------------------------------------------------------------------
  // Effects

  lemma AllocWf(st: State, ctx: Ctx, job: Job)
    requires Wf(st)
    ensures Wf(Alloc(st, ctx, job)) && IsEffect(Alloc(st, ctx, job), |st.nodes|)
  {
    var nd := Node(EffectKind(job), 0, false, true, [], [], 0);
    var st1 := st.(nodes := st.nodes + [nd]);
    AppendWf(st, nd);
    var r := Alloc(st, ctx, job);
    assert r.nodes == st1.nodes && r.pending == st1.pending;
    assert forall x :: IsEffect(st1, x) ==> IsEffect(r, x);
    assert forall x :: IsSource(st1, x) ==> IsSource(r, x);
    assert forall x :: IsReader(st1, x) ==> IsReader(r, x);
  }

  lemma {:induction false} RunJobWf(st: State, ctx: Ctx, x: Id, job: Job)
    requires Wf(st) && IsEffect(st, x)
    ensures Wf(RunJob(st, ctx, x, job).0)
    decreases JobSize(job), 0
  {
    UnlinkWf(st, x);
    BumpWf(Unlink(st, x), x);
    var st1 := Bump(Unlink(st, x), x);
    var inner := Enter(ctx, x, false);
    assert IsEffect(st1, x);
    EvalWf(st1, inner, job.body);
    var (st2, r) := Eval(st1, inner, job.body);
    if r.Ok? {
      RecordWf(st2, x, r.value);
      CreateAllWf(Record(st2, x, r.value), inner, job.children);
    }
  }

  lemma {:induction false} SpawnWf(st: State, ctx: Ctx, job: Job)
    requires Wf(st)
    ensures Wf(Spawn(st, ctx, job).0)
    decreases JobSize(job), 1
  {
    AllocWf(st, ctx, job);
    RunJobWf(Alloc(st, ctx, job), ctx, |st.nodes|, job);
  }

  lemma {:induction false} CreateAllWf(st: State, ctx: Ctx, jobs: seq<Job>)
    requires Wf(st)
    ensures Wf(CreateAll(st, ctx, jobs).0)
    decreases JobsSize(jobs), 2
  {
    if jobs != [] {
      SpawnWf(st, ctx, jobs[0]);
      var (st1, r) := Spawn(st, ctx, jobs[0]);
      if !r.Failed? {
        CreateAllWf(st1, ctx, jobs[1..]);
      }
    }
  }

  // ---------------------------------------------------------------------------
  // Lifecycle and flush

  lemma StopWf(st: State, x: Id)
    requires Wf(st)
    ensures Wf(Stop(st, x))
  {
    if IsEffect(st, x) {
      UnlinkWf(st, x);
      var st1 := Unlink(st, x);
      WithoutNoDup(st1.pending, x);
      var r := Stop(st, x);
      assert forall i :: 0 <= i < |st.nodes| && i != x ==> r.nodes[i] == st1.nodes[i];
      assert forall y :: IsEffect(st1, y) ==> IsEffect(r, y);
      assert forall y :: IsSource(st1, y) ==> IsSource(r, y);
      assert forall y :: IsReader(st1, y) ==> IsReader(r, y);
    }
  }

  lemma {:induction false} StopAllWf(st: State, xs: seq<Id>)
    requires Wf(st)
    ensures Wf(StopAll(st, xs))
    decreases |xs|
  {
    if xs != [] {
      StopWf(st, xs[0]);
      StopAllWf(Stop(st, xs[0]), xs[1..]);
    }
  }

  lemma StopScopeWf(st: State, k: nat)
    requires Wf(st)
    ensures Wf(StopScope(st, k))
  {
    if k < |st.scopes| && st.scopes[k].active {
      StopAllWf(st, st.scopes[k].effects);
      var st1 := StopAll(st, st.scopes[k].effects);
      ScopesWf(st1, st1.scopes[k := st1.scopes[k].(active := false)]);
    }
  }

  lemma {:induction false} RunBatchWf(st: State, batch: seq<Id>)
    requires Wf(st)
    ensures Wf(RunBatch(st, batch))
    decreases |batch|
  {
    if batch != [] {
      var x := batch[0];
      if IsEffect(st, x) && st.nodes[x].active {
        RunJobWf(st, TopLevel, x, st.nodes[x].kind.job);
        FailuresWf(RunJob(st, TopLevel, x, st.nodes[x].kind.job).0, RunEntry(st, x).failures);
      }
      RunBatchWf(RunEntry(st, x), batch[1..]);
    }
  }

  lemma FlushWf(st: State)
    requires Wf(st)
    ensures Wf(Flush(st))
  {
    QueueWf(st, st.(pending := [], flushScheduled := false));
    RunBatchWf(st.(pending := [], flushScheduled := false), st.pending);
  }

  // ---------------------------------------------------------------------------
  // The public operations preserve the invariant, starting from the empty engine

  lemma InitialWf()
    ensures Wf(Initial)
  {
  }

  lemma NewSignalWf(st: State, v: int)
    requires Wf(st)
    ensures Wf(NewSignal(st, v))
  {
    AppendWf(st, Node(SignalKind, v, false, false, [], [], 0));
  }

  lemma NewComputedWf(st: State, f: Expr)
    requires Wf(st)
    ensures Wf(NewComputed(st, f))
  {
    AppendWf(st, Node(ComputedKind(f), 0, true, false, [], [], 0));
  }

  lemma NewEffectWf(st: State, job: Job)
    requires Wf(st)
    ensures Wf(NewEffect(st, job).0)
  {
    SpawnWf(st, TopLevel, job);
  }

  lemma ReadWf(st: State, x: Id)
    requires Wf(st)
    ensures Wf(Read(st, x).0)
  {
    CallWf(st, TopLevel, x);
  }

  lemma NewScopeWf(st: State, callback: Option<Callback>)
    requires Wf(st)
    ensures Wf(NewScope(st, callback).0)
  {
    var st1 := st.(scopes := st.scopes + [Scope([], true)]);
    ScopesWf(st, st1.scopes);
    if callback.Some? {
      CreateAllWf(st1, Ctx([], {}, [|st.scopes|]), callback.value.effects);
    }
  }
}
