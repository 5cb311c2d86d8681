/** Effects over their lifetime: how often each one runs, what stopping one
    does, and which scope owns which effects. */
module SignalEffects {

  import opened Options
  import opened Signals
  import opened SignalInvariants

  /** Existing effects keep their activity, and exactly those in `ran` ran once. */
  ghost predicate EffectsRun(st: State, st': State, ran: set<Id>) {
    KindsKept(st, st') &&
    forall i: Id :: IsEffect(st, i) ==>
      st'.nodes[i].active == st.nodes[i].active &&
      st'.nodes[i].runs == st.nodes[i].runs + (if i in ran then 1 else 0)
  }

  lemma EvalFrameRuns(st: State, st': State)
    requires EvalFrame(st, st')
    ensures EffectsRun(st, st', {})
  {
  }

  lemma RunsTrans(a: State, b: State, c: State, R1: set<Id>, R2: set<Id>)
    requires EffectsRun(a, b, R1) && EffectsRun(b, c, R2) && R1 !! R2
    ensures EffectsRun(a, c, R1 + R2)
  {
    forall i: Id | IsEffect(a, i)
      ensures c.nodes[i].active == a.nodes[i].active
      ensures c.nodes[i].runs == a.nodes[i].runs + (if i in R1 + R2 then 1 else 0)
    {
      assert IsEffect(b, i);
    }
  }

  /** Only the effects of `st` matter to `EffectsRun`. */
  lemma RunsSame(st: State, st': State, R1: set<Id>, R2: set<Id>)
    requires EffectsRun(st, st', R1)
    requires forall i: Id :: IsEffect(st, i) ==> (i in R1 <==> i in R2)
    ensures EffectsRun(st, st', R2)
  {
  }

  /** An effect's re-evaluation procedure counts one run of that effect; the
      effects it creates are new, so no other existing effect runs. */
  lemma {:induction false} RunJobRuns(st: State, ctx: Ctx, x: Id, job: Job)
    requires x < |st.nodes|
    ensures EffectsRun(st, RunJob(st, ctx, x, job).0, {x})
    decreases JobSize(job), 0
  {
    var st0 := Unlink(st, x);
    var st1 := Bump(st0, x);
    EvalFrameRuns(st, st0);
    RunsTrans(st, st0, st1, {}, {x});
    assert {} + {x} == {x};
    var inner := Enter(ctx, x, false);
    var (st2, r) := Eval(st1, inner, job.body);
    EvalFrameRuns(st1, st2);
    RunsTrans(st, st1, st2, {x}, {});
    assert {x} + {} == {x};
    if r.Ok? {
      var st3 := Record(st2, x, r.value);
      RunsTrans(st, st2, st3, {x}, {});
      CreateAllRuns(st3, inner, job.children);
      RunsTrans(st, st3, CreateAll(st3, inner, job.children).0, {x}, {});
    }
  }

  /** `effect(job)` runs the new effect exactly once before returning, leaves it
      active, and runs no effect that existed before. */
  lemma {:induction false} SpawnRuns(st: State, ctx: Ctx, job: Job)
    ensures var out := Spawn(st, ctx, job).0;
      && EffectsRun(st, out, {})
      && IsEffect(out, |st.nodes|) && out.nodes[|st.nodes|].active && out.nodes[|st.nodes|].runs == 1
      && out.nodes[|st.nodes|].kind == EffectKind(job)
    decreases JobSize(job), 1
  {
    var n := |st.nodes|;
    var st1 := Alloc(st, ctx, job);
    assert |st1.nodes| == n + 1 && st1.nodes[n] == Node(EffectKind(job), 0, false, true, [], [], 0);
    assert forall i :: 0 <= i < n ==> st1.nodes[i] == st.nodes[i];
    RunJobRuns(st1, ctx, n, job);
    var out := Spawn(st, ctx, job).0;
    assert IsEffect(st1, n);
    forall i: Id | IsEffect(st, i)
      ensures out.nodes[i].active == st.nodes[i].active && out.nodes[i].runs == st.nodes[i].runs
    {
      assert IsEffect(st1, i) && i != n;
    }
  }

  lemma {:induction false} CreateAllRuns(st: State, ctx: Ctx, jobs: seq<Job>)
    ensures EffectsRun(st, CreateAll(st, ctx, jobs).0, {})
    decreases JobsSize(jobs), 2
  {
    if jobs != [] {
      SpawnRuns(st, ctx, jobs[0]);
      var (st1, r) := Spawn(st, ctx, jobs[0]);
      if !r.Failed? {
        CreateAllRuns(st1, ctx, jobs[1..]);
        RunsTrans(st, st1, CreateAll(st1, ctx, jobs[1..]).0, {}, {});
      }
    }
  }

  /** The tail of a duplicate-free sequence is duplicate-free and does not
      hold its head; together they hold the sequence's elements. */
  lemma NoDupTail(batch: seq<Id>)
    requires NoDup(batch) && batch != []
    ensures NoDup(batch[1..]) && batch[0] !in batch[1..]
    ensures forall y :: y in batch <==> y == batch[0] || y in batch[1..]
  {
    var rest := batch[1..];
    forall i, j | 0 <= i < j < |rest| ensures rest[i] != rest[j] {
      assert rest[i] == batch[i + 1] && rest[j] == batch[j + 1];
    }
    forall j | 0 <= j < |rest| ensures rest[j] != batch[0] {
      assert rest[j] == batch[j + 1];
    }
  }

  /** One entry of a batch runs that effect if it is active, and nothing
      else that exists. */
  lemma StepRuns(st: State, x: Id)
    ensures EffectsRun(st, RunEntry(st, x), if IsEffect(st, x) && st.nodes[x].active then {x} else {})
  {
    if IsEffect(st, x) && st.nodes[x].active {
      RunJobRuns(st, TopLevel, x, st.nodes[x].kind.job);
      var (st2, r) := RunJob(st, TopLevel, x, st.nodes[x].kind.job);
      var st1 := if r.Failed? then st2.(failures := st2.failures + [Failure(x, r.error)]) else st2;
      RunsTrans(st, st2, st1, {x}, {});
      assert {x} + {} == {x};
    }
  }

  /** A batch without repetitions runs each effect in it that is active when
      the batch starts exactly once, and no other existing effect. */
  lemma {:induction false} RunBatchRuns(st: State, batch: seq<Id>)
    requires NoDup(batch)
    ensures EffectsRun(st, RunBatch(st, batch), set x | x in batch && IsEffect(st, x) && st.nodes[x].active)
    decreases |batch|
  {
    if batch != [] {
      var x := batch[0];
      var rest := batch[1..];
      NoDupTail(batch);
      var st1 := RunEntry(st, x);
      StepRuns(st, x);
      RunBatchRuns(st1, rest);
      BatchRunsJoin(st, st1, RunBatch(st1, rest), batch);
    }
  }

  /** The step of `RunBatchRuns`: the head's run composed with the tail's. */
  lemma BatchRunsJoin(st: State, st1: State, r: State, batch: seq<Id>)
    requires batch != [] && batch[0] !in batch[1..]
    requires EffectsRun(st, st1, if IsEffect(st, batch[0]) && st.nodes[batch[0]].active then {batch[0]} else {})
    requires EffectsRun(st1, r, set y | y in batch[1..] && IsEffect(st1, y) && st1.nodes[y].active)
    ensures EffectsRun(st, r, set y | y in batch && IsEffect(st, y) && st.nodes[y].active)
  {
    var x, rest := batch[0], batch[1..];
    var S := if IsEffect(st, x) && st.nodes[x].active then {x} else {};
    var R1 := set y | y in rest && IsEffect(st1, y) && st1.nodes[y].active;
    RunsTrans(st, st1, r, S, R1);
    assert forall y :: y in batch <==> y == x || y in rest;
    RunsSame(st, r, S + R1, set y | y in batch && IsEffect(st, y) && st.nodes[y].active);
  }

  /** A flush runs every queued effect exactly once, and no other existing
      effect; an engine whose queue is empty runs nothing. */
  lemma FlushRuns(st: State)
    requires Wf(st)
    ensures EffectsRun(st, Flush(st), set x | x in st.pending)
  {
    var st0 := st.(pending := [], flushScheduled := false);
    RunBatchRuns(st0, st.pending);
    RunsTrans(st, st0, Flush(st), {}, (set x | x in st.pending && IsEffect(st0, x) && st0.nodes[x].active));
    RunsSame(st, Flush(st), {} + (set x | x in st.pending && IsEffect(st0, x) && st0.nodes[x].active),
             (set x | x in st.pending));
  }

  /** A flush with an empty queue changes nothing but the scheduled flag. */
  lemma FlushIdle(st: State)
    requires st.pending == []
    ensures Flush(st) == st.(flushScheduled := false)
  {
  }

  // ---------------------------------------------------------------------------
  // Failures reported by a flush

  /** The effect ids a failure log names, in order. */
  function Ids(fs: seq<Failure>): seq<Id> {
    seq(|fs|, i requires 0 <= i < |fs| => fs[i].effect)
  }

  /** `xs` is `ys` with some elements left out, the rest in the same order. */
  predicate Sub(xs: seq<Id>, ys: seq<Id>)
    decreases |ys|
  {
    if xs == [] then true
    else if ys == [] then false
    else (xs[0] == ys[0] && Sub(xs[1..], ys[1..])) || Sub(xs, ys[1..])
  }

  /** The failures a batch reports: those of its entries, in batch order. */
  function BatchLog(st: State, batch: seq<Id>): seq<Failure>
    decreases |batch|
  {
    if batch == [] then [] else EntryLog(st, batch[0]) + BatchLog(RunEntry(st, batch[0]), batch[1..])
  }

  /** A batch appends exactly its entries' failures to the log. */
  lemma {:induction false} RunBatchFailures(st: State, batch: seq<Id>)
    ensures RunBatch(st, batch).failures == st.failures + BatchLog(st, batch)
    decreases |batch|
  {
    if batch != [] {
      var st1 := RunEntry(st, batch[0]);
      RunEntryLog(st, batch[0]);
      RunBatchFailures(st1, batch[1..]);
      AppendAssoc(st.failures, EntryLog(st, batch[0]), BatchLog(st1, batch[1..]));
    }
  }

  lemma AppendAssoc(a: seq<Failure>, b: seq<Failure>, c: seq<Failure>)
    ensures a + b + c == a + (b + c)
  {
  }

  /** The effects a batch's failures name are batch entries, in batch order. */
  lemma {:induction false} BatchLogOrder(st: State, batch: seq<Id>)
    ensures Sub(Ids(BatchLog(st, batch)), batch)
    decreases |batch|
  {
    if batch != [] {
      var x := batch[0];
      var st1 := RunEntry(st, x);
      BatchLogOrder(st1, batch[1..]);
      var head, rest := EntryLog(st, x), BatchLog(st1, batch[1..]);
      assert BatchLog(st, batch) == head + rest;
      IdsAppend(head, rest);
      SubCons(Ids(head), Ids(rest), batch);
    }
  }

  lemma IdsAppend(a: seq<Failure>, b: seq<Failure>)
    ensures Ids(a + b) == Ids(a) + Ids(b)
  {
  }

  /** A batch's head followed by a subsequence of its tail. */
  lemma SubCons(h: seq<Id>, rest: seq<Id>, ys: seq<Id>)
    requires ys != [] && (h == [] || h == [ys[0]]) && Sub(rest, ys[1..])
    ensures Sub(h + rest, ys)
  {
    if h == [] {
      assert h + rest == rest;
    } else {
      assert (h + rest)[0] == ys[0] && (h + rest)[1..] == rest;
    }
  }

  /** A flush reports the failures of the queued effects' runs, in queue
      order, after the failures already logged; the batch goes on after a
      failure (`FlushRuns`). */
  lemma FlushFailures(st: State)
    ensures var r := Flush(st);
      && r.failures == st.failures + BatchLog(st.(pending := [], flushScheduled := false), st.pending)
      && Sub(Ids(r.failures[|st.failures|..]), st.pending)
  {
    var st0 := st.(pending := [], flushScheduled := false);
    RunBatchFailures(st0, st.pending);
    BatchLogOrder(st0, st.pending);
    assert Flush(st).failures[|st.failures|..] == BatchLog(st0, st.pending);
  }

  // ---------------------------------------------------------------------------
  // Stopping effects

  /** `stop()` leaves the effect inactive, with no dependencies, subscribed to
      nothing and out of the queue; every other node keeps its state. */
  lemma StopFacts(st: State, x: Id)
    requires Wf(st) && IsEffect(st, x)
    ensures var r := Stop(st, x);
      && Wf(r) && IsEffect(r, x)
      && !r.nodes[x].active && r.nodes[x].deps == [] && x !in r.pending
      && (forall i :: 0 <= i < |r.nodes| ==> x !in r.nodes[i].subs)
      && |r.nodes| == |st.nodes| && r.scopes == st.scopes && r.failures == st.failures
      && r.flushScheduled == st.flushScheduled
      && (forall i :: 0 <= i < |st.nodes| && i != x ==> r.nodes[i] == st.nodes[i].(subs := r.nodes[i].subs))
      && r.nodes[x] == st.nodes[x].(active := false, deps := [], subs := r.nodes[x].subs)
  {
    StopWf(st, x);
    var r := Stop(st, x);
    forall i | 0 <= i < |r.nodes| ensures x !in r.nodes[i].subs {
      assert x in r.nodes[i].subs <==> i in r.nodes[x].deps;
    }
  }

  /** Stopping an already stopped effect changes nothing. */
  lemma StopIdempotent(st: State, x: Id)
    ensures Stop(Stop(st, x), x) == Stop(st, x)
  {
    if IsEffect(st, x) {
      var r := Stop(st, x);
      assert r.nodes[x].deps == [];
      assert Detach(r, x, []) == r;
      assert r.nodes[x := r.nodes[x].(deps := [])] == r.nodes;
      assert r.nodes[x := r.nodes[x].(active := false)] == r.nodes;
      assert x !in r.pending;
    }
  }

  /** An inactive effect is never queued by a write and never run by a flush. */
  lemma InactiveStaysIdle(st: State, x: Id, s: Id, v: int)
    requires Wf(st) && IsEffect(st, x) && !st.nodes[x].active
    ensures x !in Write(st, s, v).pending
    ensures !Write(st, s, v).nodes[x].active && Write(st, s, v).nodes[x].runs == st.nodes[x].runs
    ensures !Flush(st).nodes[x].active && Flush(st).nodes[x].runs == st.nodes[x].runs
  {
    WriteWf(st, s, v);
    FlushRuns(st);
  }

  /** Stopping a list of effects stops each of them and keeps every other
      effect's activity; no effect runs. */
  lemma {:induction false} StopAllFacts(st: State, xs: seq<Id>)
    ensures var r := StopAll(st, xs);
      && KindsKept(st, r) && |r.nodes| == |st.nodes|
      && (forall i: Id :: IsEffect(st, i) ==>
            r.nodes[i].active == (st.nodes[i].active && i !in xs) && r.nodes[i].runs == st.nodes[i].runs)
    decreases |xs|
  {
    if xs != [] {
      var st1 := Stop(st, xs[0]);
      StopAllFacts(st1, xs[1..]);
      assert forall i :: i in xs <==> i == xs[0] || i in xs[1..];
      if IsEffect(st, xs[0]) {
        var st0 := Unlink(st, xs[0]);
        assert EvalFrame(st, st0);
      }
    }
  }

  /** A scope's stop function stops every effect the scope owns and no other,
      runs none, and leaves the scope inactive; calling it again changes nothing. */
  lemma StopScopeFacts(st: State, k: nat)
    requires k < |st.scopes|
    ensures var r := StopScope(st, k);
      && |r.scopes| == |st.scopes| && !r.scopes[k].active && r.scopes[k].effects == st.scopes[k].effects
      && (forall j :: 0 <= j < |st.scopes| && j != k ==> r.scopes[j] == st.scopes[j])
      && |r.nodes| == |st.nodes| && KindsKept(st, r)
      && (st.scopes[k].active ==> forall i: Id :: IsEffect(st, i) ==>
            r.nodes[i].active == (st.nodes[i].active && i !in st.scopes[k].effects) &&
            r.nodes[i].runs == st.nodes[i].runs)
      && (!st.scopes[k].active ==> r == st)
      && StopScope(r, k) == r
  {
    if st.scopes[k].active {
      StopAllFacts(st, st.scopes[k].effects);
    }
  }

  // ---------------------------------------------------------------------------
  // Scope ownership

  /** The ids from `a` up to, not including, `b`, in order. */
  function Range(a: nat, b: nat): (r: seq<Id>)
    ensures |r| == if a <= b then b - a else 0
    ensures forall i :: 0 <= i < |r| ==> r[i] == a + i
    decreases b - a
  {
    if a >= b then [] else [a] + Range(a + 1, b)
  }

  lemma RangeAppend(a: nat, b: nat, c: nat)
    requires a <= b <= c
    ensures Range(a, b) + Range(b, c) == Range(a, c)
  {
  }

  /** The scope registration of running effect code in context `ctx`: every
      effect created is registered, in creation order, with the innermost
      scope whose callback is running, and with no other scope. */
  ghost predicate Owns(st: State, st': State, ctx: Ctx) {
    |st.nodes| <= |st'.nodes| &&
    if |ctx.scopes| > 0 && ctx.scopes[|ctx.scopes| - 1] < |st.scopes| then
      var k := ctx.scopes[|ctx.scopes| - 1];
      st'.scopes == st.scopes[k := st.scopes[k].(effects := st.scopes[k].effects + Range(|st.nodes|, |st'.nodes|))]
    else st'.scopes == st.scopes
  }

  lemma OwnsRefl(st: State, st': State, ctx: Ctx)
    requires |st'.nodes| == |st.nodes| && st'.scopes == st.scopes
    ensures Owns(st, st', ctx)
  {
    assert Range(|st.nodes|, |st.nodes|) == [];
    if |ctx.scopes| > 0 && ctx.scopes[|ctx.scopes| - 1] < |st.scopes| {
      var k := ctx.scopes[|ctx.scopes| - 1];
      assert st.scopes[k].effects + [] == st.scopes[k].effects;
      assert st.scopes[k := st.scopes[k]] == st.scopes;
    }
  }

  lemma OwnsTrans(a: State, b: State, c: State, ctx: Ctx)
    requires Owns(a, b, ctx) && Owns(b, c, ctx)
    ensures Owns(a, c, ctx)
  {
    if |ctx.scopes| > 0 && ctx.scopes[|ctx.scopes| - 1] < |a.scopes| {
      var k := ctx.scopes[|ctx.scopes| - 1];
      RangeAppend(|a.nodes|, |b.nodes|, |c.nodes|);
      assert a.scopes[k].effects + Range(|a.nodes|, |b.nodes|) + Range(|b.nodes|, |c.nodes|)
          == a.scopes[k].effects + Range(|a.nodes|, |c.nodes|);
    }
  }

  lemma {:induction false} RunJobOwns(st: State, ctx: Ctx, x: Id, job: Job)
    ensures Owns(st, RunJob(st, ctx, x, job).0, ctx)
    decreases JobSize(job), 0
  {
    var st1 := Bump(Unlink(st, x), x);
    var inner := Enter(ctx, x, false);
    var (st2, r) := Eval(st1, inner, job.body);
    OwnsRefl(st, st2, ctx);
    if r.Ok? {
      var st3 := Record(st2, x, r.value);
      OwnsRefl(st, st3, ctx);
      CreateAllOwns(st3, inner, job.children);
      OwnsTrans(st, st3, CreateAll(st3, inner, job.children).0, ctx);
    }
  }

  lemma {:induction false} SpawnOwns(st: State, ctx: Ctx, job: Job)
    ensures Owns(st, Spawn(st, ctx, job).0, ctx)
    decreases JobSize(job), 1
  {
    var st1 := Alloc(st, ctx, job);
    assert Range(|st.nodes|, |st.nodes| + 1) == [|st.nodes|];
    assert Owns(st, st1, ctx);
    RunJobOwns(st1, ctx, |st.nodes|, job);
    OwnsTrans(st, st1, Spawn(st, ctx, job).0, ctx);
  }

  lemma {:induction false} CreateAllOwns(st: State, ctx: Ctx, jobs: seq<Job>)
    ensures Owns(st, CreateAll(st, ctx, jobs).0, ctx)
    decreases JobsSize(jobs), 2
  {
    if jobs == [] {
      OwnsRefl(st, st, ctx);
    } else {
      SpawnOwns(st, ctx, jobs[0]);
      var (st1, r) := Spawn(st, ctx, jobs[0]);
      if !r.Failed? {
        CreateAllOwns(st1, ctx, jobs[1..]);
        OwnsTrans(st, st1, CreateAll(st1, ctx, jobs[1..]).0, ctx);
      }
    }
  }

  /** A flush re-runs effects outside any scope callback, so the effects it
      creates belong to no scope and every scope is unchanged. */
  lemma {:induction false} RunBatchScopes(st: State, batch: seq<Id>)
    ensures RunBatch(st, batch).scopes == st.scopes
    decreases |batch|
  {
    if batch != [] {
      var x := batch[0];
      if IsEffect(st, x) && st.nodes[x].active {
        RunJobOwns(st, TopLevel, x, st.nodes[x].kind.job);
      }
      RunBatchScopes(RunEntry(st, x), batch[1..]);
    }
  }

  lemma FlushScopes(st: State)
    ensures Flush(st).scopes == st.scopes
  {
    RunBatchScopes(st.(pending := [], flushScheduled := false), st.pending);
  }

  /** An effect created outside any scope callback, and every effect nested in
      it, belongs to no scope. */
  lemma NewEffectUnowned(st: State, job: Job)
    ensures NewEffect(st, job).0.scopes == st.scopes
  {
    SpawnOwns(st, TopLevel, job);
  }

  /** `effectScope(callback)` adds one active scope that owns exactly the
      effects created while its callback runs, nested ones included, in
      creation order; the other scopes are unchanged. */
  lemma NewScopeOwns(st: State, callback: Option<Callback>)
    ensures var r := NewScope(st, callback).0;
      && |r.scopes| == |st.scopes| + 1 && r.scopes[..|st.scopes|] == st.scopes
      && r.scopes[|st.scopes|] == Scope(Range(|st.nodes|, |r.nodes|), true)
  {
    var k := |st.scopes|;
    var st1 := st.(scopes := st.scopes + [Scope([], true)]);
    assert Range(|st.nodes|, |st.nodes|) == [];
    if callback.Some? {
      CreateAllOwns(st1, Ctx([], {}, [k]), callback.value.effects);
    }
  }
}
