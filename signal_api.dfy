/** The public operations over the live invariant: what `signal`, `computed`,
    a getter, a setter, `effect`, `effectScope`, `stop` and the scheduler's
    flush each promise about values, queues and run counts. */
module SignalApi {

  import opened Options
  import opened Signals
  import opened SignalInvariants
  import opened SignalCoherence
  import opened SignalPropagation
  import opened SignalEffects
  import opened SignalLive

  // ---------------------------------------------------------------------------
  // Frames

  /** A step that changes no node keeps the invariant's node part. */
  lemma NodesLive(st: State, st': State, rank: map<Id, nat>, B: nat, E: set<Id>)
    requires Coherent(st, rank, B) && FreshExcept(st, rank, B, E) && st'.nodes == st.nodes && Wf(st')
    ensures Coherent(st', rank, B) && FreshExcept(st', rank, B, E) && SignalsKept(st, st')
  {
    assert SignalsKept(st, st');
    RankedKept(st, st', rank);
    CohKept(st, st', rank);
    CoveredKept(st, st', rank);
    TamesKept(st, st', rank, B);
    forall y: Id | IsEffect(st', y) && st'.nodes[y].active && y !in E
      ensures EffectFresh(st', rank, B, y)
    {
      assert IsEffect(st, y);
      FreshKept(st, st', rank, B, y);
    }
  }

  /** A state grown by appended nodes reaches what it reached before. */
  lemma {:induction false} ReachedPrefix(st: State, st': State, rank: map<Id, nat>, bound: nat, e: Expr)
    requires Ranked(st, rank) && RefsBelow(st, rank, bound, e)
    requires |st.nodes| <= |st'.nodes| && forall i :: 0 <= i < |st.nodes| ==> st'.nodes[i] == st.nodes[i]
    ensures Reached(st', rank, bound, e) == Reached(st, rank, bound, e)
    decreases bound, e
  {
    assert SignalsKept(st, st');
    match e
    case Lit(_) =>
    case Get(y) =>
      if IsComputed(st, y) {
        ReachedPrefix(st, st', rank, rank[y], Body(st, y));
      }
    case Add(l, r) => ReachedPrefix(st, st', rank, bound, l); ReachedPrefix(st, st', rank, bound, r);
    case Mul(l, r) => ReachedPrefix(st, st', rank, bound, l); ReachedPrefix(st, st', rank, bound, r);
    case Cond(t, y, n) =>
      DenFrame(st, st', rank, bound, t);
      ReachedPrefix(st, st', rank, bound, t); ReachedPrefix(st, st', rank, bound, y);
      ReachedPrefix(st, st', rank, bound, n);
    case Untrack(b) => ReachedPrefix(st, st', rank, bound, b);
  }

  // ---------------------------------------------------------------------------
  // Creating signals and computeds

  lemma InitialLive(rank: map<Id, nat>, B: nat)
    ensures Live(Initial, rank, B)
  {
  }

  /** `signal(v)` keeps the invariant; the new signal holds `v`. */
  lemma NewSignalLive(st: State, rank: map<Id, nat>, B: nat, v: int)
    requires Live(st, rank, B)
    ensures var r := NewSignal(st, v);
      && Live(r, rank, B) && SignalsKept(st, r) && Quiet(st, r)
      && |r.nodes| == |st.nodes| + 1 && IsSignal(r, |st.nodes|) && r.nodes[|st.nodes|].value == v
      && (forall i :: 0 <= i < |st.nodes| ==> r.nodes[i] == st.nodes[i])
  {
    var r := NewSignal(st, v);
    NewSignalWf(st, v);
    GrowKept(st, r, rank, B, Elems(st.pending));
    FreshMono(r, rank, B, Elems(st.pending) + {|st.nodes|}, Elems(r.pending));
  }

  /** `computed(f)` keeps the invariant when `f` only reads, and reads
      signals and computeds ranked below the rank given to the new one. */
  lemma NewComputedLive(st: State, rank: map<Id, nat>, B: nat, f: Expr)
    requires Live(st, rank, B)
    requires |st.nodes| in rank && Tracked(f) && RefsBelow(st, rank, rank[|st.nodes|], f)
    ensures var r := NewComputed(st, f);
      && Live(r, rank, B) && SignalsKept(st, r) && Quiet(st, r)
      && |r.nodes| == |st.nodes| + 1 && IsComputed(r, |st.nodes|) && Body(r, |st.nodes|) == f
      && r.nodes[|st.nodes|].dirty && r.nodes[|st.nodes|].runs == 0
      && (forall i :: 0 <= i < |st.nodes| ==> r.nodes[i] == st.nodes[i])
  {
    var r := NewComputed(st, f);
    NewComputedWf(st, f);
    assert KindsKept(st, r);
    RefsKept(st, r, rank, rank[|st.nodes|], f);
    GrowKept(st, r, rank, B, Elems(st.pending));
    FreshMono(r, rank, B, Elems(st.pending) + {|st.nodes|}, Elems(r.pending));
  }

  // ---------------------------------------------------------------------------
  // Reading

  /** The bound a read from outside any evaluator reads `x` under. */
  function ReadBound(st: State, rank: map<Id, nat>, x: Id): nat
  {
    if IsComputed(st, x) && x in rank then rank[x] + 1 else 0
  }

  /** A getter called outside any evaluator returns the signal's value or the
      computed's meaning, re-evaluates exactly the dirty computeds the read
      reaches, each once, and keeps the invariant. */
  lemma ReadLive(st: State, rank: map<Id, nat>, B: nat, x: Id)
    requires Live(st, rank, B) && IsSource(st, x)
    ensures var out := Read(st, x);
      && out.1 == Ok(if IsSignal(st, x) then st.nodes[x].value else CDen(st, rank, x))
      && Live(out.0, rank, B) && SignalsKept(st, out.0) && Quiet(st, out.0) && EvalFrame(st, out.0)
      && Accounted(st, out.0, Reached(st, rank, ReadBound(st, rank, x), Get(x)))
  {
    var bound := ReadBound(st, rank, x);
    CallDen(st, TopLevel, rank, bound, x);
    CallRuns(st, TopLevel, rank, bound, x);
    CallDeps(st, TopLevel, rank, bound, x);
    CallCovered(st, TopLevel, rank, x);
    CallQuiet(st, TopLevel, rank, bound, x);
    CallWf(st, TopLevel, x);
    var r := Call(st, TopLevel, x).0;
    RankedKept(st, r, rank);
    TamesKept(st, r, rank, B);
    forall y: Id | IsEffect(r, y) && r.nodes[y].active && y !in Elems(r.pending)
      ensures EffectFresh(r, rank, B, y)
    {
      assert IsEffect(st, y);
      FreshKept(st, r, rank, B, y);
    }
  }

  // ---------------------------------------------------------------------------
  // Stopping

  /** `stop()` keeps the invariant. */
  lemma StopLive(st: State, rank: map<Id, nat>, B: nat, x: Id)
    requires Live(st, rank, B)
    ensures Live(Stop(st, x), rank, B) && SignalsKept(st, Stop(st, x))
  {
    if IsEffect(st, x) {
      var st0 := Unlink(st, x);
      UnlinkEdgesOnly(st, x);
      EdgesOnlyKept(st, st0, rank);
      UnlinkDeps(st, x);
      var r := Stop(st, x);
      StopWf(st, x);
      assert SignalsKept(st, r);
      RankedKept(st, r, rank);
      CohKept(st, r, rank);
      CoveredKept(st, r, rank);
      TamesKept(st, r, rank, B);
      forall y: Id | IsEffect(r, y) && r.nodes[y].active && y !in Elems(r.pending)
        ensures EffectFresh(r, rank, B, y)
      {
        assert IsEffect(st, y) && y != x && y !in st.pending;
        FreshKept(st, r, rank, B, y);
      }
    }
  }

  lemma {:induction false} StopAllLive(st: State, rank: map<Id, nat>, B: nat, xs: seq<Id>)
    requires Live(st, rank, B)
    ensures Live(StopAll(st, xs), rank, B) && SignalsKept(st, StopAll(st, xs))
    decreases |xs|
  {
    if xs == [] {
      assert SignalsKept(st, st);
    } else {
      StopLive(st, rank, B, xs[0]);
      StopAllLive(Stop(st, xs[0]), rank, B, xs[1..]);
      SignalsKeptTrans(st, Stop(st, xs[0]), StopAll(st, xs));
    }
  }

  /** A scope's stop function keeps the invariant. */
  lemma StopScopeLive(st: State, rank: map<Id, nat>, B: nat, k: nat)
    requires Live(st, rank, B)
    ensures Live(StopScope(st, k), rank, B) && SignalsKept(st, StopScope(st, k))
  {
    if k < |st.scopes| && st.scopes[k].active {
      StopAllLive(st, rank, B, st.scopes[k].effects);
      var st1 := StopAll(st, st.scopes[k].effects);
      var r := StopScope(st, k);
      StopScopeWf(st, k);
      NodesLive(st1, r, rank, B, Elems(st1.pending));
      SignalsKeptTrans(st, st1, r);
    } else {
      assert SignalsKept(st, st);
    }
  }

  // ---------------------------------------------------------------------------
  // Flushing

  /** Running a batch of distinct queued effects: each one active when the
      batch starts records the meaning of its body over the current signal
      values, and ends fresh. */
  lemma {:induction false} RunBatchLive(st: State, rank: map<Id, nat>, B: nat, batch: seq<Id>)
    requires Coherent(st, rank, B) && FreshExcept(st, rank, B, Elems(st.pending) + Elems(batch))
    requires NoDup(batch) && forall y :: y in batch ==> y < |st.nodes|
    ensures var r := RunBatch(st, batch);
      && Coherent(r, rank, B) && FreshExcept(r, rank, B, Elems(st.pending))
      && SignalsKept(st, r) && Quiet(st, r) && r.failures == st.failures
      && (forall y: Id :: IsEffect(st, y) ==>
            r.nodes[y].value ==
              if y in batch && st.nodes[y].active then Den(st, rank, B, JobOf(st, y).body) else st.nodes[y].value)
      && NewRun(st, r, rank, B)
    decreases |batch|, 1
  {
    if batch == [] {
      assert SignalsKept(st, st);
    } else {
      var x := batch[0];
      var rest := batch[1..];
      NoDupTail(batch);
      var E := Elems(st.pending) + Elems(batch);
      if IsEffect(st, x) && st.nodes[x].active {
        BatchActive(st, rank, B, batch);
      } else {
        assert RunBatch(st, batch) == RunBatch(st, rest);
        FreshMono(st, rank, B, E, Elems(st.pending) + Elems(rest));
        RunBatchLive(st, rank, B, rest);
      }
    }
  }

  /** The step of `RunBatchLive` whose head is an active effect. */
  lemma {:induction false} BatchActive(st: State, rank: map<Id, nat>, B: nat, batch: seq<Id>)
    requires Coherent(st, rank, B) && FreshExcept(st, rank, B, Elems(st.pending) + Elems(batch))
    requires NoDup(batch) && (forall y :: y in batch ==> y < |st.nodes|) && batch != []
    requires IsEffect(st, batch[0]) && st.nodes[batch[0]].active
    ensures var r := RunBatch(st, batch);
      && Coherent(r, rank, B) && FreshExcept(r, rank, B, Elems(st.pending))
      && SignalsKept(st, r) && Quiet(st, r) && r.failures == st.failures
      && (forall y: Id :: IsEffect(st, y) ==>
            r.nodes[y].value ==
              if y in batch && st.nodes[y].active then Den(st, rank, B, JobOf(st, y).body) else st.nodes[y].value)
      && NewRun(st, r, rank, B)
    decreases |batch|, 0
  {
    var x := batch[0];
    var rest := batch[1..];
    NoDupTail(batch);
    var E := Elems(st.pending) + Elems(batch);
    var job := JobOf(st, x);
    RunTame(st, TopLevel, rank, B, E, x);
    RunJobRuns(st, TopLevel, x, job);
    var st1 := RunJob(st, TopLevel, x, job).0;
    assert RunBatch(st, batch) == RunBatch(st1, rest);
    FreshMono(st1, rank, B, E - {x}, Elems(st1.pending) + Elems(rest));
    RunBatchLive(st1, rank, B, rest);
    RunBatchRuns(st1, rest);
    var r := RunBatch(st1, rest);
    BatchCompose(st, st1, r, rank, B, x, batch);
    assert Quiet(st, r) && r.failures == st.failures;
  }

  /** Effects without nested effects allocate nothing when they run. */
  lemma {:induction false} LeafBatchSize(st: State, batch: seq<Id>)
    requires forall y :: y in batch && IsEffect(st, y) ==> JobOf(st, y).children == []
    ensures |RunBatch(st, batch).nodes| == |st.nodes|
    decreases |batch|
  {
    if batch != [] {
      var x := batch[0];
      assert forall y :: y in batch[1..] ==> y in batch;
      if IsEffect(st, x) && st.nodes[x].active {
        var job := JobOf(st, x);
        var sa := Bump(Unlink(st, x), x);
        var (sb, res) := Eval(sa, Enter(TopLevel, x, false), job.body);
        assert |sb.nodes| == |st.nodes|;
        assert res.Ok? ==> RunJob(st, TopLevel, x, job).0 == Record(sb, x, res.value);
        var (st2, r) := RunJob(st, TopLevel, x, job);
        var st1 := if r.Failed? then st2.(failures := st2.failures + [Failure(x, r.error)]) else st2;
        assert |st1.nodes| == |st.nodes|;
        assert forall y: Id :: IsEffect(st1, y) && y < |st.nodes| ==> JobOf(st1, y) == JobOf(st, y);
        assert forall y :: y in batch[1..] && IsEffect(st1, y) ==> y < |st.nodes|;
        LeafBatchSize(st1, batch[1..]);
      } else {
        LeafBatchSize(st, batch[1..]);
      }
    }
  }

  /** The run of the head of a batch followed by the run of its rest. */
  lemma BatchCompose(st: State, st1: State, r: State, rank: map<Id, nat>, B: nat, x: Id, batch: seq<Id>)
    requires Ranked(st, rank) && Tames(st, rank, B) && batch != [] && x == batch[0] && x !in batch[1..]
    requires forall y :: y in batch[1..] ==> y < |st.nodes|
    requires IsEffect(st, x) && st.nodes[x].active && SignalsKept(st, st1) && SignalsKept(st1, r)
    requires Ranked(st1, rank) && Tames(st1, rank, B)
    requires st1.nodes[x].value == Den(st, rank, B, JobOf(st, x).body)
    requires forall y: Id :: IsEffect(st, y) && y != x ==> st1.nodes[y].value == st.nodes[y].value
    requires EffectsRun(st, st1, {x}) && NewRun(st, st1, rank, B)
    requires EffectsRun(st1, r, set y | y in batch[1..] && IsEffect(st1, y) && st1.nodes[y].active)
    requires forall y: Id :: IsEffect(st1, y) ==>
      r.nodes[y].value ==
        if y in batch[1..] && st1.nodes[y].active then Den(st1, rank, B, JobOf(st1, y).body) else st1.nodes[y].value
    requires NewRun(st1, r, rank, B)
    ensures forall y: Id :: IsEffect(st, y) ==>
      r.nodes[y].value ==
        if y in batch && st.nodes[y].active then Den(st, rank, B, JobOf(st, y).body) else st.nodes[y].value
    ensures NewRun(st, r, rank, B) && SignalsKept(st, r)
  {
    var rest := batch[1..];
    SignalsKeptTrans(st, st1, r);
    forall y: Id | IsEffect(st, y)
      ensures r.nodes[y].value ==
        if y in batch && st.nodes[y].active then Den(st, rank, B, JobOf(st, y).body) else st.nodes[y].value
    {
      assert IsEffect(st1, y) && JobOf(st1, y) == JobOf(st, y);
      assert y in batch <==> y == x || y in rest;
      if y != x && y in rest && st.nodes[y].active {
        assert Tame(st, rank, B, JobOf(st, y));
        DenFrame(st, st1, rank, B, JobOf(st, y).body);
      }
    }
    forall i: Id | |st.nodes| <= i < |st1.nodes|
      ensures r.nodes[i].value == st1.nodes[i].value && r.nodes[i].active == st1.nodes[i].active
      ensures r.nodes[i].runs == st1.nodes[i].runs
    {
      assert IsEffect(st1, i) && i !in rest;
    }
    NewRunTrans(st, st1, r, rank, B);
  }

  /** The scheduler's flush: every queued effect re-runs once on the current
      signal values and records the meaning of its body, effects created on
      the way run once, every other effect keeps its record, and afterwards
      the queue is empty and every active effect is fresh. */
  lemma FlushLive(st: State, rank: map<Id, nat>, B: nat)
    requires Live(st, rank, B)
    ensures var r := Flush(st);
      && Live(r, rank, B) && r.pending == [] && !r.flushScheduled
      && SignalsKept(st, r) && r.failures == st.failures
      && EffectsRun(st, r, Elems(st.pending))
      && (forall y: Id :: IsEffect(st, y) ==>
            r.nodes[y].value ==
              if y in st.pending then Den(st, rank, B, JobOf(st, y).body) else st.nodes[y].value)
      && NewRun(st, r, rank, B)
      && ((forall y :: y in st.pending ==> JobOf(st, y).children == []) ==> |r.nodes| == |st.nodes|)
  {
    var st0 := st.(pending := [], flushScheduled := false);
    QueueWf(st, st0);
    NodesLive(st, st0, rank, B, Elems(st.pending));
    assert Elems(st.pending) == Elems(st0.pending) + Elems(st.pending);
    RunBatchLive(st0, rank, B, st.pending);
    FlushRuns(st);
    var r := Flush(st);
    SignalsKeptTrans(st, st0, r);
    forall y: Id | IsEffect(st, y) && y in st.pending
      ensures Den(st0, rank, B, JobOf(st, y).body) == Den(st, rank, B, JobOf(st, y).body)
    {
      assert Tame(st, rank, B, JobOf(st, y));
      DenFrame(st, st0, rank, B, JobOf(st, y).body);
    }
    assert forall y: Id :: IsEffect(st, y) ==> IsEffect(st0, y) && JobOf(st0, y) == JobOf(st, y);
    assert NewRun(st, r, rank, B);
    if forall y :: y in st.pending ==> JobOf(st, y).children == [] {
      LeafBatchSize(st0, st.pending);
    }
  }

  /** A flush of a single queued effect with no nested effects re-evaluates
      exactly the dirty computeds its body reaches, each once; with nested
      effects it allocates exactly as many effects as their jobs describe. */
  lemma FlushOne(st: State, rank: map<Id, nat>, B: nat, x: Id)
    requires Live(st, rank, B) && st.pending == [x]
    ensures IsEffect(st, x)
    ensures |Flush(st).nodes| == |st.nodes| + Created(JobOf(st, x).children)
    ensures JobOf(st, x).children == [] ==> Accounted(st, Flush(st), Reached(st, rank, B, JobOf(st, x).body))
  {
    var st0 := st.(pending := [], flushScheduled := false);
    QueueWf(st, st0);
    NodesLive(st, st0, rank, B, Elems(st.pending));
    assert Elems(st.pending) == {x};
    assert IsEffect(st0, x) && st0.nodes[x].active;
    FlushSingle(st, x);
    RunOne(st, st0, rank, B, x);
  }

  /** `FlushOne` once the queue is cleared. */
  lemma RunOne(st: State, st0: State, rank: map<Id, nat>, B: nat, x: Id)
    requires Coherent(st0, rank, B) && FreshExcept(st0, rank, B, {x})
    requires st0.nodes == st.nodes && IsEffect(st0, x) && st0.nodes[x].active
    ensures var r := RunEntry(st0, x);
      && |r.nodes| == |st.nodes| + Created(JobOf(st, x).children)
      && (JobOf(st, x).children == [] ==> Accounted(st, r, Reached(st, rank, B, JobOf(st, x).body)))
  {
    RunTame(st0, TopLevel, rank, B, {x}, x);
    var r := RunJob(st0, TopLevel, x, JobOf(st, x)).0;
    assert RunEntry(st0, x) == r && JobOf(st0, x) == JobOf(st, x);
    if JobOf(st, x).children == [] {
      assert Tame(st0, rank, B, JobOf(st, x)) && SignalsKept(st0, st);
      ReachedShift(st0, st, rank, B, JobOf(st, x).body, {});
      AccountedFrom(st, st0, r, Reached(st, rank, B, JobOf(st, x).body));
    }
  }

  /** `Accounted` depends only on the nodes of its first state. */
  lemma AccountedFrom(st: State, st0: State, r: State, R: set<Id>)
    requires st0.nodes == st.nodes && Accounted(st0, r, R)
    ensures Accounted(st, r, R)
  {
    assert forall c: Id :: IsComputed(st, c) ==> IsComputed(st0, c);
  }

  // ---------------------------------------------------------------------------
  // Writing

  /** The meaning of clean computed `c` depends on signal `s`: its evaluator
      reads `s`, or reads a computed whose meaning depends on `s`. */
  ghost predicate Uses(st: State, rank: map<Id, nat>, c: Id, s: Id)
    requires IsComputed(st, c) && c in rank
    decreases rank[c]
  {
    var d := Direct(st, rank, rank[c], Body(st, c));
    s in d || exists z :: z in d && IsComputed(st, z) && z in rank && rank[z] < rank[c] && Uses(st, rank, z, s)
  }

  /** Effect `y` tracks signal `s`: its body reads `s` outside `untrack`, or
      reads so a computed whose meaning depends on `s`. */
  ghost predicate Sees(st: State, rank: map<Id, nat>, B: nat, y: Id, s: Id)
    requires IsEffect(st, y)
  {
    var t := TrackedReads(st, rank, B, JobOf(st, y).body);
    s in t || exists z :: z in t && IsComputed(st, z) && z in rank && Uses(st, rank, z, s)
  }

  /** A clean computed whose meaning depends on the written signal is reached. */
  lemma {:induction false} UsesReached(st: State, rank: map<Id, nat>, s: Id, v: int, c: Id)
    requires Wf(st) && Ranked(st, rank) && Covered(st, rank) && Changes(st, s, v)
    requires IsComputed(st, c) && c in rank && !st.nodes[c].dirty && Uses(st, rank, c, s)
    ensures c in Reach(st, s, v)
    decreases rank[c]
  {
    WriteFacts(st, s, v);
    var d := Direct(st, rank, rank[c], Body(st, c));
    assert Elems(st.nodes[c].deps) == d;
    if s in d {
      assert s in st.nodes[c].deps;
      assert c in st.nodes[s].subs;
    } else {
      var z :| z in d && IsComputed(st, z) && z in rank && rank[z] < rank[c] && Uses(st, rank, z, s);
      assert !st.nodes[z].dirty;
      UsesReached(st, rank, s, v, z);
      assert z in st.nodes[c].deps;
      assert c in st.nodes[z].subs;
    }
  }

  /** Node `x` depends on the written signal, or on a clean computed whose
      meaning depends on it. */
  ghost predicate Feeds(st: State, rank: map<Id, nat>, s: Id, x: Id) {
    x < |st.nodes| &&
    exists z :: z in st.nodes[x].deps &&
      (z == s || (IsComputed(st, z) && z in rank && !st.nodes[z].dirty && Uses(st, rank, z, s)))
  }

  /** Everything a write reaches depends on the written signal. */
  lemma ReachFeeds(st: State, rank: map<Id, nat>, s: Id, v: int)
    requires Wf(st) && Ranked(st, rank) && Covered(st, rank) && Changes(st, s, v)
    ensures forall x :: x in Reach(st, s, v) ==> Feeds(st, rank, s, x)
  {
    var S := set x | 0 <= x < |st.nodes| && Feeds(st, rank, s, x);
    forall x | x in st.nodes[s].subs && x < |st.nodes| && x != s
      ensures x in S
    {
      assert s in st.nodes[x].deps;
    }
    forall x, y | (x in S && x != s && IsComputed(st, x) && !st.nodes[x].dirty &&
      y in st.nodes[x].subs && y < |st.nodes| && y != s)
      ensures y in S
    {
      var z :| z in st.nodes[x].deps &&
        (z == s || (IsComputed(st, z) && z in rank && !st.nodes[z].dirty && Uses(st, rank, z, s)));
      assert Elems(st.nodes[x].deps) == Direct(st, rank, rank[x], Body(st, x));
      if z != s {
        DirectRefs(st, rank, rank[x], Body(st, x), z);
      }
      assert Uses(st, rank, x, s);
      assert x in st.nodes[y].deps;
    }
    ReachLeast(st, s, v, S);
  }

  /** A write marks a clean computed dirty exactly when its meaning depends on
      the written signal and the value changes; dirty computeds stay dirty and
      no cached value changes. */
  lemma WriteDirties(st: State, rank: map<Id, nat>, B: nat, s: Id, v: int, c: Id)
    requires Live(st, rank, B) && IsComputed(st, c)
    ensures var r := Write(st, s, v);
      && IsComputed(r, c) && r.nodes[c].value == st.nodes[c].value && r.nodes[c].runs == st.nodes[c].runs
      && r.nodes[c].dirty == (st.nodes[c].dirty || (Changes(st, s, v) && Uses(st, rank, c, s)))
  {
    WriteFacts(st, s, v);
    if Changes(st, s, v) && !st.nodes[c].dirty {
      if Uses(st, rank, c, s) {
        UsesReached(st, rank, s, v, c);
      }
      if c in Reach(st, s, v) {
        ReachFeeds(st, rank, s, v);
        var z :| z in st.nodes[c].deps &&
          (z == s || (IsComputed(st, z) && z in rank && !st.nodes[z].dirty && Uses(st, rank, z, s)));
        assert Elems(st.nodes[c].deps) == Direct(st, rank, rank[c], Body(st, c));
        if z != s {
          DirectRefs(st, rank, rank[c], Body(st, c), z);
        }
      }
    }
  }

  /** A write queues an active effect that was not queued exactly when the
      effect tracks the written signal and the value changes. */
  lemma WriteQueues(st: State, rank: map<Id, nat>, B: nat, s: Id, v: int, y: Id)
    requires Live(st, rank, B) && IsEffect(st, y) && st.nodes[y].active && y !in st.pending
    ensures y in Write(st, s, v).pending <==> Changes(st, s, v) && Sees(st, rank, B, y, s)
  {
    WriteFacts(st, s, v);
    if Changes(st, s, v) {
      var D := Reach(st, s, v);
      var t := TrackedReads(st, rank, B, JobOf(st, y).body);
      assert EffectFresh(st, rank, B, y);
      assert Elems(st.nodes[y].deps) == t;
      if Sees(st, rank, B, y, s) {
        if s in t {
          assert s in st.nodes[y].deps;
          assert y in st.nodes[s].subs;
        } else {
          var z :| z in t && IsComputed(st, z) && z in rank && Uses(st, rank, z, s);
          UsesReached(st, rank, s, v, z);
          assert z in st.nodes[y].deps;
          assert y in st.nodes[z].subs;
        }
      }
      if y in Write(st, s, v).pending {
        ReachFeeds(st, rank, s, v);
        assert Feeds(st, rank, s, y);
      }
    }
  }

  /** An active effect a changing write leaves unqueued stays fresh. */
  lemma WriteFresh(st: State, rank: map<Id, nat>, B: nat, s: Id, v: int, y: Id)
    requires Live(st, rank, B) && Changes(st, s, v)
    requires IsEffect(st, y) && st.nodes[y].active && y !in Write(st, s, v).pending
    ensures IsEffect(Write(st, s, v), y) && EffectFresh(Write(st, s, v), rank, B, y)
  {
    var r := Write(st, s, v);
    var D := Reach(st, s, v);
    WriteShaped(st, s, v);
    var body := JobOf(st, y).body;
    var t := TrackedReads(st, rank, B, body);
    assert y !in st.pending && y !in D;
    assert EffectFresh(st, rank, B, y);
    assert Tame(st, rank, B, JobOf(st, y));
    forall z | z in t
      ensures z != s
      ensures IsSignal(st, z) ==> r.nodes[z].value == st.nodes[z].value
      ensures IsComputed(st, z) ==> !r.nodes[z].dirty && CDen(r, rank, z) == CDen(st, rank, z)
    {
      assert z in st.nodes[y].deps;
      assert IsSource(st, z);
      assert y in st.nodes[z].subs;
      if IsComputed(st, z) {
        assert !st.nodes[z].dirty;
        CleanAfterWrite(st, r, rank, s, D, z);
      }
    }
    TrackedLocal(st, r, rank, B, body);
  }

  /** A signal's setter: the signal takes the value, every other node keeps
      its value, an effect not queued before is queued exactly when it tracks
      the signal and the value changes, the queue only grows, and the
      invariant is kept. Writing the current value changes nothing. */
  lemma WriteLive(st: State, rank: map<Id, nat>, B: nat, s: Id, v: int)
    requires Live(st, rank, B)
    ensures var r := Write(st, s, v);
      && Live(r, rank, B)
      && KindsKept(st, r) && |r.nodes| == |st.nodes| && r.scopes == st.scopes && r.failures == st.failures
      && (forall i: Id :: IsSignal(st, i) ==> r.nodes[i].value == if i == s then v else st.nodes[i].value)
      && (forall i: Id :: IsEffect(st, i) ==> r.nodes[i] == st.nodes[i])
      && (forall y :: y in st.pending ==> y in r.pending)
      && (forall y: Id :: IsEffect(st, y) && st.nodes[y].active && y !in st.pending ==>
            (y in r.pending <==> Changes(st, s, v) && Sees(st, rank, B, y, s)))
      && (forall y :: y in r.pending ==> y in st.pending || (IsEffect(st, y) && st.nodes[y].active))
      && (r.pending != st.pending ==> r.flushScheduled)
      && (!Changes(st, s, v) ==> r == st)
  {
    var r := Write(st, s, v);
    WriteFacts(st, s, v);
    WriteCoherent(st, rank, s, v);
    TamesKept(st, r, rank, B);
    forall y: Id | IsEffect(st, y) && st.nodes[y].active && y !in st.pending
      ensures y in r.pending <==> Changes(st, s, v) && Sees(st, rank, B, y, s)
    {
      WriteQueues(st, rank, B, s, v, y);
    }
    if Changes(st, s, v) {
      forall y: Id | IsEffect(r, y) && r.nodes[y].active && y !in Elems(r.pending)
        ensures EffectFresh(r, rank, B, y)
      {
        WriteFresh(st, rank, B, s, v, y);
      }
    }
  }

  /** A write followed by a flush: an effect re-runs, once, exactly when it was
      already queued, or it is active and tracks the written signal and the
      value changes; a re-run records the meaning of its body over the new
      signal values; the queue ends empty. */
  lemma SetAndFlush(st: State, rank: map<Id, nat>, B: nat, s: Id, v: int)
    requires Live(st, rank, B)
    ensures var r := Flush(Write(st, s, v));
      && Live(r, rank, B) && r.pending == [] && KindsKept(st, r) && r.scopes == st.scopes
      && (forall i: Id :: IsSignal(st, i) ==> r.nodes[i].value == if i == s then v else st.nodes[i].value)
      && (forall y: Id :: IsEffect(st, y) ==> Rerun(st, r, rank, B, y,
            y in st.pending || (st.nodes[y].active && Changes(st, s, v) && Sees(st, rank, B, y, s))))
  {
    var w := Write(st, s, v);
    WriteLive(st, rank, B, s, v);
    FlushLive(w, rank, B);
    FlushScopes(w);
    forall y: Id | IsEffect(st, y)
      ensures Rerun(st, Flush(w), rank, B, y,
        y in st.pending || (st.nodes[y].active && Changes(st, s, v) && Sees(st, rank, B, y, s)))
    {
      SetAndFlushOne(st, rank, B, s, v, y);
    }
  }

  /** When no effect creates nested effects, a write and a flush create no node. */
  lemma SetAndFlushSize(st: State, rank: map<Id, nat>, B: nat, s: Id, v: int)
    requires Live(st, rank, B)
    requires forall y: Id :: IsEffect(st, y) ==> JobOf(st, y).children == []
    ensures |Flush(Write(st, s, v)).nodes| == |st.nodes|
  {
    var w := Write(st, s, v);
    WriteLive(st, rank, B, s, v);
    FlushLive(w, rank, B);
    forall y | y in w.pending
      ensures JobOf(w, y).children == []
    {
      assert IsEffect(st, y);
    }
  }

  /** Effect `y` of `st` keeps its job and activity in `r`, and ran once more
      recording the meaning of its body in `r` exactly when `ran` holds. */
  ghost predicate Rerun(st: State, r: State, rank: map<Id, nat>, B: nat, y: Id, ran: bool)
    requires IsEffect(st, y)
  {
    && IsEffect(r, y) && JobOf(r, y) == JobOf(st, y)
    && r.nodes[y].active == st.nodes[y].active
    && r.nodes[y].runs == st.nodes[y].runs + (if ran then 1 else 0)
    && r.nodes[y].value == if ran then Den(r, rank, B, JobOf(st, y).body) else st.nodes[y].value
  }

  lemma SetAndFlushOne(st: State, rank: map<Id, nat>, B: nat, s: Id, v: int, y: Id)
    requires Live(st, rank, B) && IsEffect(st, y)
    ensures Rerun(st, Flush(Write(st, s, v)), rank, B, y,
      y in st.pending || (st.nodes[y].active && Changes(st, s, v) && Sees(st, rank, B, y, s)))
  {
    var w := Write(st, s, v);
    WriteLive(st, rank, B, s, v);
    FlushLive(w, rank, B);
    var r := Flush(w);
    if !st.nodes[y].active && y !in st.pending {
      assert y !in w.pending;
    }
    assert Tame(w, rank, B, JobOf(w, y));
    DenFrame(w, r, rank, B, JobOf(w, y).body);
  }

  // ---------------------------------------------------------------------------
  // Creating effects and scopes

  /** `effect(fn)` with a tame body runs it once at creation, records the
      meaning of its body, keeps the invariant and queues nothing. When it
      creates no nested effects, exactly the dirty computeds its body reaches
      are evaluated, once each. */
  lemma NewEffectLive(st: State, rank: map<Id, nat>, B: nat, job: Job)
    requires Live(st, rank, B) && Tame(st, rank, B, job)
    ensures var out := NewEffect(st, job);
      var r := out.0;
      var n := |st.nodes|;
      && out.1 == Done
      && Live(r, rank, B) && SignalsKept(st, r) && Quiet(st, r) && r.failures == st.failures
      && r.scopes == st.scopes
      && (forall y: Id :: IsEffect(st, y) ==> r.nodes[y].value == st.nodes[y].value)
      && |r.nodes| == n + Created([job])
      && IsEffect(r, n) && JobOf(r, n) == job && r.nodes[n].active && r.nodes[n].runs == 1
      && r.nodes[n].value == Den(st, rank, B, job.body)
      && NewRun(st, r, rank, B)
      && (job.children == [] ==>
            forall c: Id :: IsComputed(st, c) ==>
              var R := Reached(st, rank, B, job.body);
              r.nodes[c].dirty == (st.nodes[c].dirty && c !in R) &&
              r.nodes[c].runs == st.nodes[c].runs + (if c in R then 1 else 0))
  {
    var n := |st.nodes|;
    var E := Elems(st.pending);
    SpawnTame(st, TopLevel, rank, B, E, job);
    SpawnRuns(st, TopLevel, job);
    NewEffectUnowned(st, job);
    var r := NewEffect(st, job).0;
    assert NewRun(st, r, rank, B);
    assert IsEffect(r, n);
    DenFrame(st, r, rank, B, job.body);
    if job.children == [] {
      LeafEffectReads(st, rank, B, job);
    }
  }

  /** The first run of an effect without nested effects re-evaluates exactly
      the dirty computeds its body reaches, each once. */
  lemma LeafEffectReads(st: State, rank: map<Id, nat>, B: nat, job: Job)
    requires Live(st, rank, B) && Tame(st, rank, B, job) && job.children == []
    ensures var r := NewEffect(st, job).0;
      forall c: Id :: IsComputed(st, c) ==>
        var R := Reached(st, rank, B, job.body);
        r.nodes[c].dirty == (st.nodes[c].dirty && c !in R) &&
        r.nodes[c].runs == st.nodes[c].runs + (if c in R then 1 else 0)
  {
    var n := |st.nodes|;
    var E := Elems(st.pending);
    var sa := Alloc(st, TopLevel, job);
    AllocWf(st, TopLevel, job);
    assert forall i :: 0 <= i < n ==> sa.nodes[i] == st.nodes[i];
    TameKept(st, sa, rank, B, job);
    GrowKept(st, sa, rank, B, E);
    assert JobOf(sa, n) == job;
    RunTame(sa, TopLevel, rank, B, E + {n}, n);
    ReachedPrefix(st, sa, rank, B, job.body);
    forall c: Id | IsComputed(st, c)
      ensures IsComputed(sa, c)
    {
    }
  }

  /** `effectScope(callback)` with tame effects keeps the invariant, queues
      nothing, runs each created effect once, and reports the callback's own
      throw as its status. */
  lemma NewScopeLive(st: State, rank: map<Id, nat>, B: nat, callback: Option<Callback>)
    requires Live(st, rank, B)
    requires callback.Some? ==> forall j :: j in callback.value.effects ==> Tame(st, rank, B, j)
    ensures var out := NewScope(st, callback);
      var r := out.0;
      && out.1 == (if callback.Some? && callback.value.throws then Failed(Thrown) else Done)
      && Live(r, rank, B) && SignalsKept(st, r) && Quiet(st, r) && r.failures == st.failures
      && (forall y: Id :: IsEffect(st, y) ==> r.nodes[y].value == st.nodes[y].value)
      && NewRun(st, r, rank, B)
      && |r.nodes| == |st.nodes| + (if callback.Some? then Created(callback.value.effects) else 0)
  {
    var k := |st.scopes|;
    var st1 := st.(scopes := st.scopes + [Scope([], true)]);
    ScopesWf(st, st1.scopes);
    NodesLive(st, st1, rank, B, Elems(st.pending));
    if callback.Some? {
      forall j | j in callback.value.effects
        ensures Tame(st1, rank, B, j)
      {
        TameKept(st, st1, rank, B, j);
      }
      CreateAllTame(st1, Ctx([], {}, [k]), rank, B, Elems(st.pending), callback.value.effects);
      var r := CreateAll(st1, Ctx([], {}, [k]), callback.value.effects).0;
      SignalsKeptTrans(st, st1, r);
    } else {
      assert NewRun(st, st1, rank, B);
    }
  }
}
