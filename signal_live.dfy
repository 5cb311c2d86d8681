/** The engine's end-to-end guarantee for effects that only read: every clean
    computed caches its meaning, and every active effect that is not queued
    depends on exactly the getters its body calls, through clean computeds.
    Hence a write that changes anything an effect reads queues it, a flush
    re-runs each queued effect once on the current values, and an effect
    whose inputs did not change is left alone. The invariant holds from the
    empty engine on and is kept by every public operation. */
module SignalLive {

  import opened Options
  import opened Signals
  import opened SignalInvariants
  import opened SignalCoherence
  import opened SignalPropagation
  import opened SignalEffects

  // ---------------------------------------------------------------------------
  // Reads leave the queue alone

  /** The queue and the flush request are as they were. */
  predicate Quiet(st: State, st': State) {
    st'.pending == st.pending && st'.flushScheduled == st.flushScheduled
  }

  lemma {:induction false} CallQuiet(st: State, ctx: Ctx, rank: map<Id, nat>, bound: nat, x: Id)
    requires Ranked(st, rank) && RefsBelow(st, rank, bound, Get(x))
    ensures Quiet(st, Call(st, ctx, x).0)
    decreases Idle(|st.nodes|, ctx), Get(x), 0
  {
    var nd := st.nodes[x];
    if nd.kind.ComputedKind? && nd.dirty && x !in ctx.evaluating {
      var body := Body(st, x);
      var st1 := Bump(Unlink(st, x), x);
      assert Idle(|st1.nodes|, Enter(ctx, x, true)) < Idle(|st.nodes|, ctx) by {
        assert x in Idle(|st.nodes|, ctx);
      }
      RankedKept(st, st1, rank);
      RefsKept(st, st1, rank, rank[x], body);
      EvalQuiet(st1, Enter(ctx, x, true), rank, rank[x], body);
    }
  }

  lemma {:induction false} EvalQuiet(st: State, ctx: Ctx, rank: map<Id, nat>, bound: nat, e: Expr)
    requires Ranked(st, rank) && RefsBelow(st, rank, bound, e)
    ensures Quiet(st, Eval(st, ctx, e).0)
    decreases Idle(|st.nodes|, ctx), e, 1
  {
    match e
    case Lit(_) =>
    case Get(x) => CallQuiet(st, ctx, rank, bound, x);
    case Add(l, r) =>
      EvalQuiet(st, ctx, rank, bound, l);
      var st1 := Eval(st, ctx, l).0;
      RankedKept(st, st1, rank);
      RefsKept(st, st1, rank, bound, r);
      EvalQuiet(st1, ctx, rank, bound, r);
    case Mul(l, r) =>
      EvalQuiet(st, ctx, rank, bound, l);
      var st1 := Eval(st, ctx, l).0;
      RankedKept(st, st1, rank);
      RefsKept(st, st1, rank, bound, r);
      EvalQuiet(st1, ctx, rank, bound, r);
    case Cond(t, y, n) =>
      EvalQuiet(st, ctx, rank, bound, t);
      var st1 := Eval(st, ctx, t).0;
      RankedKept(st, st1, rank);
      RefsKept(st, st1, rank, bound, y);
      RefsKept(st, st1, rank, bound, n);
      EvalQuiet(st1, ctx, rank, bound, y);
      EvalQuiet(st1, ctx, rank, bound, n);
    case Untrack(b) =>
      EvalQuiet(st, Ctx(ctx.frames + [Untracked], ctx.evaluating, ctx.scopes), rank, bound, b);
  }

  // ---------------------------------------------------------------------------
  // Effect bodies the guarantee covers

  /** No branch of `e` is chosen by a value read inside `untrack`, so the
      getters it tracks depend only on values it tracks. */
  predicate Steady(e: Expr) {
    match e
    case Lit(_) => true
    case Get(_) => true
    case Add(l, r) => Steady(l) && Steady(r)
    case Mul(l, r) => Steady(l) && Steady(r)
    case Cond(t, y, n) => Tracked(t) && Steady(y) && Steady(n)
    case Untrack(_) => true
    case WriteThen(_, _, _) => false
    case Throw => false
  }

  /** What a steady body tracks depends only on the values it tracks. */
  lemma {:induction false} TrackedLocal(st: State, st': State, rank: map<Id, nat>, bound: nat, e: Expr)
    requires Ranked(st, rank) && RefsBelow(st, rank, bound, e) && Steady(e)
    requires KindsKept(st, st') && |st'.nodes| == |st.nodes|
    requires forall y :: y in TrackedReads(st, rank, bound, e) ==>
      (IsSignal(st, y) ==> st'.nodes[y].value == st.nodes[y].value) &&
      (IsComputed(st, y) ==> CDen(st', rank, y) == CDen(st, rank, y))
    ensures TrackedReads(st', rank, bound, e) == TrackedReads(st, rank, bound, e)
  {
    match e
    case Lit(_) =>
    case Get(_) =>
    case Add(l, r) =>
      TrackedLocal(st, st', rank, bound, l); TrackedLocal(st, st', rank, bound, r);
    case Mul(l, r) =>
      TrackedLocal(st, st', rank, bound, l); TrackedLocal(st, st', rank, bound, r);
    case Cond(t, a, b) =>
      TrackedDirect(st, rank, bound, t);
      DenLocal(st, st', rank, bound, t);
      if Den(st, rank, bound, t) != 0 {
        TrackedLocal(st, st', rank, bound, a);
      } else {
        TrackedLocal(st, st', rank, bound, b);
      }
    case Untrack(_) =>
  }

  function JobOf(st: State, x: Id): Job
    requires IsEffect(st, x)
  {
    st.nodes[x].kind.job
  }

  /** An effect job whose body only reads, steadily, signals and computeds
      ranked below `B`, and whose nested effects are of the same sort. */
  ghost predicate Tame(st: State, rank: map<Id, nat>, B: nat, job: Job)
    decreases job
  {
    Steady(job.body) && RefsBelow(st, rank, B, job.body) &&
    forall j :: j in job.children ==> Tame(st, rank, B, j)
  }

  lemma {:induction false} TameKept(st: State, st': State, rank: map<Id, nat>, B: nat, job: Job)
    requires Tame(st, rank, B, job) && KindsKept(st, st')
    ensures Tame(st', rank, B, job)
    decreases job
  {
    RefsKept(st, st', rank, B, job.body);
    forall j | j in job.children
      ensures Tame(st', rank, B, j)
    {
      TameKept(st, st', rank, B, j);
    }
  }

  ghost predicate Tames(st: State, rank: map<Id, nat>, B: nat) {
    forall x: Id :: IsEffect(st, x) ==> Tame(st, rank, B, JobOf(st, x))
  }

  lemma TamesKept(st: State, st': State, rank: map<Id, nat>, B: nat)
    requires Tames(st, rank, B) && KindsKept(st, st') && |st'.nodes| == |st.nodes|
    ensures Tames(st', rank, B)
  {
    forall x: Id | IsEffect(st', x)
      ensures Tame(st', rank, B, JobOf(st', x))
    {
      assert IsEffect(st, x);
      TameKept(st, st', rank, B, JobOf(st, x));
    }
  }

  /** Effect `x` depends on exactly the getters its body tracks, and those of
      them that are computeds are clean. */
  ghost predicate EffectFresh(st: State, rank: map<Id, nat>, B: nat, x: Id)
    requires IsEffect(st, x)
  {
    Elems(st.nodes[x].deps) == TrackedReads(st, rank, B, JobOf(st, x).body) &&
    forall y :: y in TrackedReads(st, rank, B, JobOf(st, x).body) && IsComputed(st, y) ==> !st.nodes[y].dirty
  }

  /** Every active effect outside `E` is fresh. */
  ghost predicate FreshExcept(st: State, rank: map<Id, nat>, B: nat, E: set<Id>) {
    forall x: Id :: IsEffect(st, x) && st.nodes[x].active && x !in E ==> EffectFresh(st, rank, B, x)
  }

  /** The well-formed, ranked states whose clean computeds are coherent and
      covered and whose effects are tame. */
  ghost predicate Coherent(st: State, rank: map<Id, nat>, B: nat) {
    Wf(st) && Ranked(st, rank) && Coh(st, rank) && Covered(st, rank) && Tames(st, rank, B)
  }

  /** The invariant: coherent, and every active effect not queued is fresh. */
  ghost predicate Live(st: State, rank: map<Id, nat>, B: nat) {
    Coherent(st, rank, B) && FreshExcept(st, rank, B, Elems(st.pending))
  }

  // ---------------------------------------------------------------------------
  // Frames

  lemma FreshMono(st: State, rank: map<Id, nat>, B: nat, E1: set<Id>, E2: set<Id>)
    requires FreshExcept(st, rank, B, E1)
    requires forall x: Id :: IsEffect(st, x) && st.nodes[x].active && x in E1 ==> x in E2
    ensures FreshExcept(st, rank, B, E2)
  {
  }

  /** An effect stays fresh across a step that keeps signal values, its
      dependencies and the clean computeds. */
  lemma FreshKept(st: State, st': State, rank: map<Id, nat>, B: nat, y: Id)
    requires Ranked(st, rank) && IsEffect(st, y) && RefsBelow(st, rank, B, JobOf(st, y).body)
    requires EffectFresh(st, rank, B, y) && SignalsKept(st, st')
    requires Elems(st'.nodes[y].deps) == Elems(st.nodes[y].deps)
    requires forall c: Id :: IsComputed(st, c) && !st.nodes[c].dirty ==> !st'.nodes[c].dirty
    ensures IsEffect(st', y) && JobOf(st', y) == JobOf(st, y) && EffectFresh(st', rank, B, y)
  {
    var body := JobOf(st, y).body;
    ReadsFrame(st, st', rank, B, body);
    forall z | z in TrackedReads(st, rank, B, body) && IsComputed(st', z)
      ensures !st'.nodes[z].dirty
    {
      TrackedInDirect(st, rank, B, body);
      DirectRefs(st, rank, B, body, z);
    }
  }

  /** Covered survives a step that keeps signal values and every computed's
      dependencies and dirty flag, and adds only dirty computeds. */
  lemma CoveredKept(st: State, st': State, rank: map<Id, nat>)
    requires Ranked(st, rank) && Covered(st, rank) && SignalsKept(st, st')
    requires forall c: Id :: IsComputed(st, c) ==>
      st'.nodes[c].deps == st.nodes[c].deps && st'.nodes[c].dirty == st.nodes[c].dirty
    requires forall c: Id :: IsComputed(st', c) && c >= |st.nodes| ==> st'.nodes[c].dirty
    ensures Covered(st', rank)
  {
    DirectAllFrame(st, st', rank);
    forall c: Id | IsComputed(st', c) && c in rank && !st'.nodes[c].dirty
      ensures Elems(st'.nodes[c].deps) == Direct(st', rank, rank[c], Body(st', c))
      ensures forall y :: y in Direct(st', rank, rank[c], Body(st', c)) && IsComputed(st', y) ==> !st'.nodes[y].dirty
    {
      assert IsComputed(st, c);
      forall y | y in Direct(st, rank, rank[c], Body(st, c)) && IsComputed(st', y)
        ensures !st'.nodes[y].dirty
      {
        DirectRefs(st, rank, rank[c], Body(st, c), y);
      }
    }
  }

  /** Appending one node: a signal, an effect with a tame job, or a dirty
      computed whose rank is fixed in advance. */
  lemma GrowKept(st: State, st': State, rank: map<Id, nat>, B: nat, E: set<Id>)
    requires Coherent(st, rank, B) && FreshExcept(st, rank, B, E) && Wf(st')
    requires |st'.nodes| == |st.nodes| + 1 && forall i :: 0 <= i < |st.nodes| ==> st'.nodes[i] == st.nodes[i]
    requires var nd := st'.nodes[|st.nodes|];
      (nd.kind.ComputedKind? ==>
        nd.dirty && |st.nodes| in rank && Tracked(nd.kind.evaluator) &&
        RefsBelow(st', rank, rank[|st.nodes|], nd.kind.evaluator)) &&
      (nd.kind.EffectKind? ==> Tame(st', rank, B, nd.kind.job))
    ensures Coherent(st', rank, B) && FreshExcept(st', rank, B, E + {|st.nodes|})
    ensures SignalsKept(st, st')
  {
    var n := |st.nodes|;
    assert SignalsKept(st, st');
    forall c: Id | IsComputed(st', c)
      ensures c in rank && Tracked(Body(st', c)) && RefsBelow(st', rank, rank[c], Body(st', c))
    {
      if c < n {
        assert IsComputed(st, c);
        RefsKept(st, st', rank, rank[c], Body(st, c));
      }
    }
    CohKept(st, st', rank);
    CoveredKept(st, st', rank);
    forall x: Id | IsEffect(st', x)
      ensures Tame(st', rank, B, JobOf(st', x))
    {
      if x < n {
        assert IsEffect(st, x);
        TameKept(st, st', rank, B, JobOf(st, x));
      }
    }
    forall y: Id | IsEffect(st', y) && st'.nodes[y].active && y !in E + {n}
      ensures EffectFresh(st', rank, B, y)
    {
      assert IsEffect(st, y);
      FreshKept(st, st', rank, B, y);
    }
  }

  // ---------------------------------------------------------------------------
  // Running tame effects

  /** Dropping an effect's dependencies and counting its run. */
  lemma RunPrep(st: State, rank: map<Id, nat>, B: nat, E: set<Id>, x: Id)
    requires Coherent(st, rank, B) && FreshExcept(st, rank, B, E) && IsEffect(st, x)
    ensures var st1 := Bump(Unlink(st, x), x);
      && Coherent(st1, rank, B) && FreshExcept(st1, rank, B, E + {x})
      && SignalsKept(st, st1) && Quiet(st, st1) && |st1.nodes| == |st.nodes|
      && st1.scopes == st.scopes && st1.failures == st.failures
      && st1.nodes[x].deps == []
      && (forall y: Id :: IsEffect(st, y) ==> st1.nodes[y].value == st.nodes[y].value)
      && (forall z: Id :: z < |st.nodes| ==> st1.nodes[z].dirty == st.nodes[z].dirty)
      && (forall c: Id :: IsComputed(st, c) ==> st1.nodes[c].runs == st.nodes[c].runs)
  {
    var st0 := Unlink(st, x);
    UnlinkEdgesOnly(st, x);
    EdgesOnlyKept(st, st0, rank);
    UnlinkDeps(st, x);
    UnlinkWf(st, x);
    var st1 := Bump(st0, x);
    BumpWf(st0, x);
    assert SignalsKept(st, st1);
    RankedKept(st, st1, rank);
    CohKept(st0, st1, rank);
    CoveredKept(st, st1, rank);
    TamesKept(st, st1, rank, B);
    forall y: Id | IsEffect(st1, y) && st1.nodes[y].active && y !in E + {x}
      ensures EffectFresh(st1, rank, B, y)
    {
      assert IsEffect(st, y);
      FreshKept(st, st1, rank, B, y);
    }
  }

  /** Evaluating an effect's body with the effect on top of the stack leaves
      the effect fresh. */
  lemma RunEval(st1: State, ctx: Ctx, rank: map<Id, nat>, B: nat, E: set<Id>, x: Id)
    requires Coherent(st1, rank, B) && FreshExcept(st1, rank, B, E) && IsEffect(st1, x) && x in E
    requires st1.nodes[x].deps == [] && ctx.evaluating == {}
    ensures var body := JobOf(st1, x).body;
      var out := Eval(st1, Enter(ctx, x, false), body);
      && out.1 == Ok(Den(st1, rank, B, body))
      && Coherent(out.0, rank, B) && FreshExcept(out.0, rank, B, E) && EffectFresh(out.0, rank, B, x)
      && SignalsKept(st1, out.0) && Quiet(st1, out.0)
      && Accounted(st1, out.0, Reached(st1, rank, B, body))
  {
    var body := JobOf(st1, x).body;
    assert Tame(st1, rank, B, JobOf(st1, x));
    var inner := Enter(ctx, x, false);
    EvalDen(st1, inner, rank, B, body);
    EvalRuns(st1, inner, rank, B, body);
    EvalDeps(st1, inner, rank, B, body);
    EvalCovered(st1, inner, rank, B, body);
    EvalQuiet(st1, inner, rank, B, body);
    EvalWf(st1, inner, body);
    var st2 := Eval(st1, inner, body).0;
    RankedKept(st1, st2, rank);
    TamesKept(st1, st2, rank, B);
    ReadsFrame(st1, st2, rank, B, body);
    assert Elems(st1.nodes[x].deps) == {};
    forall z | z in TrackedReads(st1, rank, B, body) && IsComputed(st2, z)
      ensures !st2.nodes[z].dirty
    {
      TrackedInDirect(st1, rank, B, body);
      if st1.nodes[z].dirty {
        DirectReached(st1, rank, B, body, z);
      }
    }
    forall y: Id | IsEffect(st2, y) && st2.nodes[y].active && y !in E
      ensures EffectFresh(st2, rank, B, y)
    {
      assert IsEffect(st1, y) && y != x;
      FreshKept(st1, st2, rank, B, y);
    }
  }

  /** Recording an effect's value touches nothing the invariant speaks of. */
  lemma RunRecord(st2: State, rank: map<Id, nat>, B: nat, E: set<Id>, x: Id, v: int)
    requires Coherent(st2, rank, B) && FreshExcept(st2, rank, B, E) && IsEffect(st2, x)
    requires EffectFresh(st2, rank, B, x)
    ensures var st3 := Record(st2, x, v);
      && Coherent(st3, rank, B) && FreshExcept(st3, rank, B, E - {x})
      && SignalsKept(st2, st3) && Quiet(st2, st3) && |st3.nodes| == |st2.nodes|
      && st3.scopes == st2.scopes && st3.failures == st2.failures
      && st3.nodes[x] == st2.nodes[x].(value := v)
      && (forall i :: 0 <= i < |st2.nodes| && i != x ==> st3.nodes[i] == st2.nodes[i])
  {
    var st3 := Record(st2, x, v);
    RecordWf(st2, x, v);
    assert SignalsKept(st2, st3);
    RankedKept(st2, st3, rank);
    CohKept(st2, st3, rank);
    CoveredKept(st2, st3, rank);
    TamesKept(st2, st3, rank, B);
    forall y: Id | IsEffect(st3, y) && st3.nodes[y].active && y !in E - {x}
      ensures EffectFresh(st3, rank, B, y)
    {
      assert IsEffect(st2, y);
      FreshKept(st2, st3, rank, B, y);
    }
  }

  /** The first part of a run: the body is evaluated with the effect on top of
      the tracking stack and its value recorded. */
  lemma RunBody(st: State, ctx: Ctx, rank: map<Id, nat>, B: nat, E: set<Id>, x: Id)
    requires Coherent(st, rank, B) && FreshExcept(st, rank, B, E) && IsEffect(st, x) && ctx.evaluating == {}
    ensures var body := JobOf(st, x).body;
      var st1 := Bump(Unlink(st, x), x);
      var out := Eval(st1, Enter(ctx, x, false), body);
      && out.1 == Ok(Den(st, rank, B, body))
      && var st3 := Record(out.0, x, out.1.value);
      && Coherent(st3, rank, B) && FreshExcept(st3, rank, B, E - {x})
      && SignalsKept(st, st3) && Quiet(st, st3) && st3.failures == st.failures && st3.scopes == st.scopes
      && |st3.nodes| == |st.nodes|
      && st3.nodes[x].value == Den(st, rank, B, body)
      && (forall y: Id :: IsEffect(st, y) && y != x ==> st3.nodes[y].value == st.nodes[y].value)
      && Accounted(st, st3, Reached(st, rank, B, body))
  {
    var body := JobOf(st, x).body;
    assert Tame(st, rank, B, JobOf(st, x));
    var st1 := Bump(Unlink(st, x), x);
    RunPrep(st, rank, B, E, x);
    assert JobOf(st1, x) == JobOf(st, x);
    RunEval(st1, ctx, rank, B, E + {x}, x);
    var (st2, res) := Eval(st1, Enter(ctx, x, false), body);
    RunRecord(st2, rank, B, E + {x}, x, res.value);
    assert E + {x} - {x} == E - {x};
    DenFrame(st, st1, rank, B, body);
    ReachedShift(st, st1, rank, B, body, {});
    var st3 := Record(st2, x, res.value);
    SignalsKeptTrans(st, st1, st2);
    SignalsKeptTrans(st, st2, st3);
    AccountedPrep(st, st1, st2, st3, x, Reached(st, rank, B, body));
  }

  /** The counters of a run: preparing changes no computed's flags or
      counters, and recording the effect's value touches only the effect. */
  lemma AccountedPrep(st: State, st1: State, st2: State, st3: State, x: Id, R: set<Id>)
    requires KindsKept(st, st1) && |st1.nodes| == |st.nodes| && IsEffect(st, x)
    requires forall z: Id :: z < |st.nodes| ==> st1.nodes[z].dirty == st.nodes[z].dirty
    requires forall c: Id :: IsComputed(st, c) ==> st1.nodes[c].runs == st.nodes[c].runs
    requires Accounted(st1, st2, R)
    requires |st3.nodes| == |st2.nodes| && forall i :: 0 <= i < |st2.nodes| && i != x ==> st3.nodes[i] == st2.nodes[i]
    ensures Accounted(st, st3, R)
  {
    forall c: Id | IsComputed(st, c)
      ensures IsComputed(st1, c) && c != x
    {
    }
  }

  /** How many effects creating `jobs` allocates, nested ones included,
      when every one of them runs to completion. */
  function Created(jobs: seq<Job>): nat
    decreases JobsSize(jobs)
  {
    if jobs == [] then 0
    else
      assert JobsSize(jobs) == 1 + JobsSize(jobs[0].children) + JobsSize(jobs[1..]);
      1 + Created(jobs[0].children) + Created(jobs[1..])
  }

  /** A tame effect's run: its body's meaning is recorded, every effect it
      creates is run once and is fresh, and the invariant is kept with the
      effect itself made fresh. */
  lemma {:induction false} RunTame(st: State, ctx: Ctx, rank: map<Id, nat>, B: nat, E: set<Id>, x: Id)
    requires Coherent(st, rank, B) && FreshExcept(st, rank, B, E) && IsEffect(st, x) && st.nodes[x].active
    requires ctx.evaluating == {}
    ensures var out := RunJob(st, ctx, x, JobOf(st, x));
      && out.1 == Done
      && Coherent(out.0, rank, B) && FreshExcept(out.0, rank, B, E - {x})
      && SignalsKept(st, out.0) && Quiet(st, out.0) && out.0.failures == st.failures
      && out.0.nodes[x].value == Den(st, rank, B, JobOf(st, x).body)
      && (forall y: Id :: IsEffect(st, y) && y != x ==> out.0.nodes[y].value == st.nodes[y].value)
      && NewRun(st, out.0, rank, B)
      && |out.0.nodes| == |st.nodes| + Created(JobOf(st, x).children)
      && (JobOf(st, x).children == [] ==> Accounted(st, out.0, Reached(st, rank, B, JobOf(st, x).body)))
    decreases JobSize(JobOf(st, x)), 0
  {
    var job := JobOf(st, x);
    RunBody(st, ctx, rank, B, E, x);
    var st1 := Bump(Unlink(st, x), x);
    var inner := Enter(ctx, x, false);
    var (st2, res) := Eval(st1, inner, job.body);
    var st3 := Record(st2, x, res.value);
    assert Tame(st3, rank, B, JobOf(st3, x));
    assert NewRun(st, st3, rank, B);
    CreateAllTame(st3, inner, rank, B, E - {x}, job.children);
    var st4 := CreateAll(st3, inner, job.children).0;
    SignalsKeptTrans(st, st3, st4);
    DenFrame(st, st3, rank, B, job.body);
    if job.children == [] {
      assert st4 == st3;
    }
  }

  /** The effects created in a step are active, ran once, and recorded the
      meaning of their bodies. */
  ghost predicate NewRun(st: State, st': State, rank: map<Id, nat>, B: nat) {
    |st.nodes| <= |st'.nodes| &&
    forall i: Id :: |st.nodes| <= i < |st'.nodes| ==>
      IsEffect(st', i) && st'.nodes[i].active && st'.nodes[i].runs == 1 &&
      st'.nodes[i].value == Den(st', rank, B, JobOf(st', i).body)
  }

  /** Effects created earlier keep their record across a later step. */
  lemma NewRunTrans(a: State, b: State, c: State, rank: map<Id, nat>, B: nat)
    requires NewRun(a, b, rank, B) && NewRun(b, c, rank, B)
    requires Ranked(b, rank) && Tames(b, rank, B) && SignalsKept(b, c)
    requires forall i: Id :: |a.nodes| <= i < |b.nodes| ==>
      c.nodes[i].value == b.nodes[i].value && c.nodes[i].active == b.nodes[i].active &&
      c.nodes[i].runs == b.nodes[i].runs
    ensures NewRun(a, c, rank, B)
  {
    forall i: Id | |a.nodes| <= i < |b.nodes|
      ensures IsEffect(c, i) && c.nodes[i].active && c.nodes[i].runs == 1
      ensures c.nodes[i].value == Den(c, rank, B, JobOf(c, i).body)
    {
      assert IsEffect(b, i);
      DenFrame(b, c, rank, B, JobOf(b, i).body);
    }
  }

  /** Allocating a tame effect keeps the invariant, with the new effect
      still to be run. */
  lemma AllocTame(st: State, ctx: Ctx, rank: map<Id, nat>, B: nat, E: set<Id>, job: Job)
    requires Coherent(st, rank, B) && FreshExcept(st, rank, B, E) && Tame(st, rank, B, job)
    ensures var sa := Alloc(st, ctx, job); var n := |st.nodes|;
      && Coherent(sa, rank, B) && FreshExcept(sa, rank, B, E + {n})
      && IsEffect(sa, n) && sa.nodes[n].active && JobOf(sa, n) == job
      && SignalsKept(st, sa) && Quiet(st, sa) && sa.failures == st.failures
      && |sa.nodes| == n + 1 && (forall i :: 0 <= i < n ==> sa.nodes[i] == st.nodes[i])
  {
    var n := |st.nodes|;
    var sa := Alloc(st, ctx, job);
    AllocWf(st, ctx, job);
    assert forall i :: 0 <= i < n ==> sa.nodes[i] == st.nodes[i];
    TameKept(st, sa, rank, B, job);
    GrowKept(st, sa, rank, B, E);
  }

  /** A step that appends one effect, run once with its body's meaning, and
      then only effects that are new to it, makes every appended effect new. */
  lemma NewRunCons(st: State, sa: State, r: State, rank: map<Id, nat>, B: nat)
    requires |sa.nodes| == |st.nodes| + 1 && NewRun(sa, r, rank, B)
    requires var n := |st.nodes|;
      IsEffect(r, n) && r.nodes[n].active && r.nodes[n].runs == 1 &&
      r.nodes[n].value == Den(r, rank, B, JobOf(r, n).body)
    ensures NewRun(st, r, rank, B)
  {
  }

  lemma {:induction false} SpawnTame(st: State, ctx: Ctx, rank: map<Id, nat>, B: nat, E: set<Id>, job: Job)
    requires Coherent(st, rank, B) && FreshExcept(st, rank, B, E) && Tame(st, rank, B, job)
    requires ctx.evaluating == {}
    ensures var out := Spawn(st, ctx, job);
      && out.1 == Done
      && Coherent(out.0, rank, B) && FreshExcept(out.0, rank, B, E)
      && SignalsKept(st, out.0) && Quiet(st, out.0) && out.0.failures == st.failures
      && (forall y: Id :: IsEffect(st, y) ==> out.0.nodes[y].value == st.nodes[y].value)
      && NewRun(st, out.0, rank, B)
      && |out.0.nodes| == |st.nodes| + Created([job])
    decreases JobSize(job), 1
  {
    var n := |st.nodes|;
    var sa := Alloc(st, ctx, job);
    AllocTame(st, ctx, rank, B, E, job);
    RunTame(sa, ctx, rank, B, E + {n}, n);
    var r := Spawn(st, ctx, job).0;
    SignalsKeptTrans(st, sa, r);
    FreshMono(r, rank, B, E + {n} - {n}, E);
    RunJobRuns(sa, ctx, n, job);
    DenFrame(sa, r, rank, B, job.body);
    NewRunCons(st, sa, r, rank, B);
    assert [job][1..] == [];
  }

  lemma {:induction false} CreateAllTame(st: State, ctx: Ctx, rank: map<Id, nat>, B: nat, E: set<Id>, jobs: seq<Job>)
    requires Coherent(st, rank, B) && FreshExcept(st, rank, B, E)
    requires forall j :: j in jobs ==> Tame(st, rank, B, j)
    requires ctx.evaluating == {}
    ensures var out := CreateAll(st, ctx, jobs);
      && out.1 == Done
      && Coherent(out.0, rank, B) && FreshExcept(out.0, rank, B, E)
      && SignalsKept(st, out.0) && Quiet(st, out.0) && out.0.failures == st.failures
      && (forall y: Id :: IsEffect(st, y) ==> out.0.nodes[y].value == st.nodes[y].value)
      && NewRun(st, out.0, rank, B)
      && |out.0.nodes| == |st.nodes| + Created(jobs)
    decreases JobsSize(jobs), 2
  {
    if jobs == [] {
      assert SignalsKept(st, st);
    } else {
      SpawnTame(st, ctx, rank, B, E, jobs[0]);
      var st1 := Spawn(st, ctx, jobs[0]).0;
      forall j | j in jobs[1..]
        ensures Tame(st1, rank, B, j)
      {
        assert j in jobs;
        TameKept(st, st1, rank, B, j);
      }
      CreateAllTame(st1, ctx, rank, B, E, jobs[1..]);
      var st2 := CreateAll(st1, ctx, jobs[1..]).0;
      CreateAllRuns(st1, ctx, jobs[1..]);
      CreatedTrans(st, st1, st2, rank, B);
      assert CreateAll(st, ctx, jobs) == CreateAll(st1, ctx, jobs[1..]);
      assert [jobs[0]][1..] == [];
    }
  }

  /** Two creation steps in a row make one. */
  lemma CreatedTrans(st: State, st1: State, st2: State, rank: map<Id, nat>, B: nat)
    requires Coherent(st1, rank, B) && EffectsRun(st1, st2, {})
    requires SignalsKept(st, st1) && Quiet(st, st1) && st1.failures == st.failures
    requires SignalsKept(st1, st2) && Quiet(st1, st2) && st2.failures == st1.failures
    requires forall y: Id :: IsEffect(st, y) ==> st1.nodes[y].value == st.nodes[y].value
    requires forall y: Id :: IsEffect(st1, y) ==> st2.nodes[y].value == st1.nodes[y].value
    requires NewRun(st, st1, rank, B) && NewRun(st1, st2, rank, B)
    ensures SignalsKept(st, st2) && Quiet(st, st2) && st2.failures == st.failures
    ensures forall y: Id :: IsEffect(st, y) ==> st2.nodes[y].value == st.nodes[y].value
    ensures NewRun(st, st2, rank, B)
  {
    SignalsKeptTrans(st, st1, st2);
    assert forall i: Id :: |st.nodes| <= i < |st1.nodes| ==> IsEffect(st1, i);
    NewRunTrans(st, st1, st2, rank, B);
  }
}
