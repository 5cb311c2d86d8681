/** The engine's behaviour in the situations its test suite walks through,
    each derived from the general laws. A counter incremented in an effect or
    evaluator is the node's `runs`; the value an effect leaves in a variable
    is the value it records. A test's `await nextTick()` is one `Flush`. */
module SignalScenarios {
  import opened Options
  import opened Signals
  import opened SignalInvariants
  import opened SignalCoherence
  import opened SignalPropagation
  import opened SignalEffects
  import opened SignalLive
  import opened SignalApi

  /** No computeds: the empty rank. */
  const NoRank: map<Id, nat> := map[]

  /** Effect `y` of a live engine with nothing queued runs `job`, is active,
      ran `runs` times and last recorded `value`. */
  ghost predicate Watching(st: State, rank: map<Id, nat>, B: nat, y: Id, job: Job, runs: nat, value: int) {
    && Live(st, rank, B) && st.pending == []
    && IsEffect(st, y) && JobOf(st, y) == job && st.nodes[y].active
    && st.nodes[y].runs == runs && st.nodes[y].value == value
  }

  /** Signal `i` holds `v`. */
  predicate Holds(st: State, i: Id, v: int) {
    IsSignal(st, i) && st.nodes[i].value == v
  }

  /** A write and a flush re-run an effect that tracks the written signal,
      once, over the new values. */
  lemma WatchRuns(st: State, rank: map<Id, nat>, B: nat, y: Id, job: Job, runs: nat, value: int, s: Id, v: int)
    requires Watching(st, rank, B, y, job, runs, value)
    requires Changes(st, s, v) && s in TrackedReads(st, rank, B, job.body)
    ensures var r := Flush(Write(st, s, v));
      Watching(r, rank, B, y, job, runs + 1, Den(r, rank, B, job.body)) && r.scopes == st.scopes
  {
    SetAndFlush(st, rank, B, s, v);
  }

  /** A write and a flush leave alone an effect that tracks neither the
      written signal nor any computed. */
  lemma WatchIdle(st: State, rank: map<Id, nat>, B: nat, y: Id, job: Job, runs: nat, value: int, s: Id, v: int)
    requires Watching(st, rank, B, y, job, runs, value)
    requires s !in TrackedReads(st, rank, B, job.body)
    requires forall z :: z in TrackedReads(st, rank, B, job.body) ==> !IsComputed(st, z)
    ensures var r := Flush(Write(st, s, v));
      Watching(r, rank, B, y, job, runs, value) && r.scopes == st.scopes
  {
    SetAndFlush(st, rank, B, s, v);
  }

  /** A write and a flush change only the written signal. */
  lemma HoldsTick(st: State, rank: map<Id, nat>, B: nat, s: Id, v: int, i: Id, w: int)
    requires Live(st, rank, B) && Holds(st, i, w)
    ensures Holds(Flush(Write(st, s, v)), i, if i == s then v else w)
  {
    SetAndFlush(st, rank, B, s, v);
  }

  /** A signal's getter returns the last value set; setting the current value
      changes nothing. */
  lemma SignalBasics()
    ensures var st1 := NewSignal(Initial, 0);
      var st2 := Write(st1, 0, 1);
      var st3 := Write(st2, 0, 1);
      && Read(st1, 0).1 == Ok(0)
      && Read(st2, 0).1 == Ok(1)
      && st3 == st2 && Read(st3, 0).1 == Ok(1)
  {
    InitialLive(NoRank, 0);
    NewSignalLive(Initial, NoRank, 0, 0);
    var st1 := NewSignal(Initial, 0);
    ReadLive(st1, NoRank, 0, 0);
    WriteLive(st1, NoRank, 0, 0, 1);
    var st2 := Write(st1, 0, 1);
    ReadLive(st2, NoRank, 0, 0);
    WriteLive(st2, NoRank, 0, 0, 1);
  }

  /** Reading a signal outside any effect returns its value. */
  lemma ReadOutsideEffect()
    ensures Read(NewSignal(Initial, 42), 0).1 == Ok(42)
  {
    InitialLive(NoRank, 0);
    NewSignalLive(Initial, NoRank, 0, 42);
    ReadLive(NewSignal(Initial, 42), NoRank, 0, 0);
  }

  // The untrack test: `count = 0` and an effect reading it only under `untrack`.

  function UntrackJob(a: Id): Job { Job(Untrack(Get(a)), []) }
  function Untrack1(st: State): State { NewEffect(NewSignal(st, 0), UntrackJob(|st.nodes|)).0 }
  function Untrack2(st: State): State { Flush(Write(Untrack1(st), |st.nodes|, 1)) }

  lemma Untrack1Live(st: State, rank: map<Id, nat>, B: nat)
    requires Live(st, rank, B) && st.pending == []
    ensures var a := |st.nodes|; Watching(Untrack1(st), rank, B, a + 1, UntrackJob(a), 1, 0)
  {
    var a := |st.nodes|;
    NewSignalLive(st, rank, B, 0);
    assert Tame(NewSignal(st, 0), rank, B, UntrackJob(a));
    NewEffectLive(NewSignal(st, 0), rank, B, UntrackJob(a));
  }

  /** An effect that reads a signal only under `untrack` runs once and is not
      re-run when the signal changes. */
  lemma UntrackedRead(st: State, rank: map<Id, nat>, B: nat)
    requires Live(st, rank, B) && st.pending == []
    ensures var e := |st.nodes| + 1;
      && Untrack1(st).nodes[e].runs == 1
      && Untrack2(st).nodes[e].runs == 1
  {
    var a := |st.nodes|;
    Untrack1Live(st, rank, B);
    WatchIdle(Untrack1(st), rank, B, a + 1, UntrackJob(a), 1, 0, a, 1);
  }

  /** Setting a signal to its current value does not re-run its effect. */
  lemma SameValueWrite()
    ensures var st1 := NewSignal(Initial, 42);
      var st2 := NewEffect(st1, Job(Get(0), [])).0;
      var st3 := Flush(Write(st2, 0, 42));
      && st2.nodes[1].runs == 1
      && st3.nodes[1].runs == 1
  {
    var job := Job(Get(0), []);
    InitialLive(NoRank, 0);
    NewSignalLive(Initial, NoRank, 0, 42);
    var st1 := NewSignal(Initial, 42);
    NewEffectLive(st1, NoRank, 0, job);
    var st2 := NewEffect(st1, job).0;
    WriteLive(st2, NoRank, 0, 0, 42);
    FlushLive(st2, NoRank, 0);
  }

  /** An effect runs at creation and once more, with the new value, after a
      write and a flush. */
  lemma EffectReactivity()
    ensures var st1 := NewSignal(Initial, 0);
      var st2 := NewEffect(st1, Job(Get(0), [])).0;
      var st3 := Flush(Write(st2, 0, 1));
      && st2.nodes[1].runs == 1 && st2.nodes[1].value == 0
      && st3.nodes[1].runs == 2 && st3.nodes[1].value == 1
  {
    var job := Job(Get(0), []);
    InitialLive(NoRank, 0);
    NewSignalLive(Initial, NoRank, 0, 0);
    var st1 := NewSignal(Initial, 0);
    NewEffectLive(st1, NoRank, 0, job);
    var st2 := NewEffect(st1, job).0;
    WriteLive(st2, NoRank, 0, 0, 1);
    var st3 := Write(st2, 0, 1);
    assert Sees(st2, NoRank, 0, 1, 0);
    FlushLive(st3, NoRank, 0);
  }

  // The dependency-tracking test: `a = 1`, `b = 2` and an effect summing them.

  function DepJob(a: Id): Job { Job(Add(Get(a), Get(a + 1)), []) }
  function Dep1(st: State): State { NewEffect(NewSignal(NewSignal(st, 1), 2), DepJob(|st.nodes|)).0 }
  function Dep2(st: State): State { Flush(Write(Dep1(st), |st.nodes|, 2)) }
  function Dep3(st: State): State { Flush(Write(Dep2(st), |st.nodes| + 1, 3)) }

  lemma Dep1Live(st: State, rank: map<Id, nat>, B: nat)
    requires Live(st, rank, B) && st.pending == []
    ensures var a := |st.nodes|; var r := Dep1(st);
      Watching(r, rank, B, a + 2, DepJob(a), 1, 3) && Holds(r, a, 1) && Holds(r, a + 1, 2)
  {
    var a := |st.nodes|;
    NewSignalLive(st, rank, B, 1);
    NewSignalLive(NewSignal(st, 1), rank, B, 2);
    NewEffectLive(NewSignal(NewSignal(st, 1), 2), rank, B, DepJob(a));
  }

  lemma Dep2Live(st: State, rank: map<Id, nat>, B: nat)
    requires Live(st, rank, B) && st.pending == []
    ensures var a := |st.nodes|; var r := Dep2(st);
      Watching(r, rank, B, a + 2, DepJob(a), 2, 4) && Holds(r, a, 2) && Holds(r, a + 1, 2)
  {
    var a := |st.nodes|;
    Dep1Live(st, rank, B);
    WatchRuns(Dep1(st), rank, B, a + 2, DepJob(a), 1, 3, a, 2);
    HoldsTick(Dep1(st), rank, B, a, 2, a, 1);
    HoldsTick(Dep1(st), rank, B, a, 2, a + 1, 2);
    assert Den(Dep2(st), rank, B, Get(a)) == 2 && Den(Dep2(st), rank, B, Get(a + 1)) == 2;
  }

  lemma Dep3Live(st: State, rank: map<Id, nat>, B: nat)
    requires Live(st, rank, B) && st.pending == []
    ensures var a := |st.nodes|; var r := Dep3(st);
      Watching(r, rank, B, a + 2, DepJob(a), 3, 5) && Holds(r, a, 2) && Holds(r, a + 1, 3)
  {
    var a := |st.nodes|;
    Dep2Live(st, rank, B);
    WatchRuns(Dep2(st), rank, B, a + 2, DepJob(a), 2, 4, a + 1, 3);
    HoldsTick(Dep2(st), rank, B, a + 1, 3, a, 2);
    HoldsTick(Dep2(st), rank, B, a + 1, 3, a + 1, 2);
    assert Den(Dep3(st), rank, B, Get(a)) == 2 && Den(Dep3(st), rank, B, Get(a + 1)) == 3;
  }

  /** An effect reading two signals runs once at creation and once more after
      a write to either, recording the new sum. */
  lemma DependencyTracking(st: State, rank: map<Id, nat>, B: nat)
    requires Live(st, rank, B) && st.pending == []
    ensures var e := |st.nodes| + 2;
      && Dep1(st).nodes[e].runs == 1 && Dep1(st).nodes[e].value == 3
      && Dep2(st).nodes[e].runs == 2 && Dep2(st).nodes[e].value == 4
      && Dep3(st).nodes[e].runs == 3 && Dep3(st).nodes[e].value == 5
  {
    Dep1Live(st, rank, B);
    Dep2Live(st, rank, B);
    Dep3Live(st, rank, B);
  }

  // The multiple-signals test: `a = 1`, `b = 2`, `c = 3` and an effect summing them.

  function SumJob(a: Id): Job { Job(Add(Add(Get(a), Get(a + 1)), Get(a + 2)), []) }
  function Sum1(st: State): State {
    NewEffect(NewSignal(NewSignal(NewSignal(st, 1), 2), 3), SumJob(|st.nodes|)).0
  }
  function Sum2(st: State): State { Flush(Write(Sum1(st), |st.nodes|, 10)) }
  function Sum3(st: State): State { Flush(Write(Sum2(st), |st.nodes| + 1, 20)) }
  function Sum4(st: State): State { Flush(Write(Sum3(st), |st.nodes| + 2, 30)) }

  /** The sum body reads all three signals and means their sum. */
  lemma SumFacts(st: State, rank: map<Id, nat>, B: nat, a: Id, x: int, y: int, z: int)
    requires Holds(st, a, x) && Holds(st, a + 1, y) && Holds(st, a + 2, z)
    ensures TrackedReads(st, rank, B, SumJob(a).body) == {a, a + 1, a + 2}
    ensures Den(st, rank, B, SumJob(a).body) == x + y + z
  {
    assert Den(st, rank, B, Get(a)) == x && Den(st, rank, B, Get(a + 1)) == y && Den(st, rank, B, Get(a + 2)) == z;
    assert TrackedReads(st, rank, B, Add(Get(a), Get(a + 1))) == {a, a + 1};
  }

  lemma Sum1Live(st: State, rank: map<Id, nat>, B: nat)
    requires Live(st, rank, B) && st.pending == []
    ensures var a := |st.nodes|; var r := Sum1(st);
      Watching(r, rank, B, a + 3, SumJob(a), 1, 6) && Holds(r, a, 1) && Holds(r, a + 1, 2) && Holds(r, a + 2, 3)
  {
    var a := |st.nodes|;
    var s1 := NewSignal(st, 1);
    var s2 := NewSignal(s1, 2);
    NewSignalLive(st, rank, B, 1);
    NewSignalLive(s1, rank, B, 2);
    NewSignalLive(s2, rank, B, 3);
    NewEffectLive(NewSignal(s2, 3), rank, B, SumJob(a));
    SumFacts(NewSignal(s2, 3), rank, B, a, 1, 2, 3);
  }

  lemma Sum2Live(st: State, rank: map<Id, nat>, B: nat)
    requires Live(st, rank, B) && st.pending == []
    ensures var a := |st.nodes|; var r := Sum2(st);
      Watching(r, rank, B, a + 3, SumJob(a), 2, 15) && Holds(r, a, 10) && Holds(r, a + 1, 2) && Holds(r, a + 2, 3)
  {
    var a := |st.nodes|;
    var p := Sum1(st);
    Sum1Live(st, rank, B);
    SumFacts(p, rank, B, a, 1, 2, 3);
    WatchRuns(p, rank, B, a + 3, SumJob(a), 1, 6, a, 10);
    HoldsTick(p, rank, B, a, 10, a, 1);
    HoldsTick(p, rank, B, a, 10, a + 1, 2);
    HoldsTick(p, rank, B, a, 10, a + 2, 3);
    SumFacts(Sum2(st), rank, B, a, 10, 2, 3);
  }

  lemma Sum3Live(st: State, rank: map<Id, nat>, B: nat)
    requires Live(st, rank, B) && st.pending == []
    ensures var a := |st.nodes|; var r := Sum3(st);
      Watching(r, rank, B, a + 3, SumJob(a), 3, 33) && Holds(r, a, 10) && Holds(r, a + 1, 20) && Holds(r, a + 2, 3)
  {
    var a := |st.nodes|;
    var p := Sum2(st);
    Sum2Live(st, rank, B);
    SumFacts(p, rank, B, a, 10, 2, 3);
    WatchRuns(p, rank, B, a + 3, SumJob(a), 2, 15, a + 1, 20);
    HoldsTick(p, rank, B, a + 1, 20, a, 10);
    HoldsTick(p, rank, B, a + 1, 20, a + 1, 2);
    HoldsTick(p, rank, B, a + 1, 20, a + 2, 3);
    SumFacts(Sum3(st), rank, B, a, 10, 20, 3);
  }

  lemma Sum4Live(st: State, rank: map<Id, nat>, B: nat)
    requires Live(st, rank, B) && st.pending == []
    ensures var a := |st.nodes|; var r := Sum4(st);
      Watching(r, rank, B, a + 3, SumJob(a), 4, 60)
  {
    var a := |st.nodes|;
    var p := Sum3(st);
    Sum3Live(st, rank, B);
    SumFacts(p, rank, B, a, 10, 20, 3);
    WatchRuns(p, rank, B, a + 3, SumJob(a), 3, 33, a + 2, 30);
    HoldsTick(p, rank, B, a + 2, 30, a, 10);
    HoldsTick(p, rank, B, a + 2, 30, a + 1, 20);
    HoldsTick(p, rank, B, a + 2, 30, a + 2, 3);
    SumFacts(Sum4(st), rank, B, a, 10, 20, 30);
  }

  /** An effect reading three signals re-runs after a write to each, recording
      the new sum. */
  lemma MultipleSignals(st: State, rank: map<Id, nat>, B: nat)
    requires Live(st, rank, B) && st.pending == []
    ensures var e := |st.nodes| + 3;
      && Sum1(st).nodes[e].runs == 1 && Sum1(st).nodes[e].value == 6
      && Sum2(st).nodes[e].runs == 2 && Sum2(st).nodes[e].value == 15
      && Sum3(st).nodes[e].runs == 3 && Sum3(st).nodes[e].value == 33
      && Sum4(st).nodes[e].runs == 4 && Sum4(st).nodes[e].value == 60
  {
    Sum1Live(st, rank, B);
    Sum2Live(st, rank, B);
    Sum3Live(st, rank, B);
    Sum4Live(st, rank, B);
  }

  // The branch-switching test: `cond = true`, `a = 1`, `b = 2` and an effect
  // reading `a` while `cond` holds and `b` otherwise.

  function CondJob(c: Id): Job { Job(Cond(Get(c), Get(c + 1), Get(c + 2)), []) }
  function Br1(st: State): State {
    NewEffect(NewSignal(NewSignal(NewSignal(st, 1), 1), 2), CondJob(|st.nodes|)).0
  }
  function Br2(st: State): State { Flush(Write(Br1(st), |st.nodes| + 1, 10)) }
  function Br3(st: State): State { Flush(Write(Br2(st), |st.nodes|, 0)) }
  function Br4(st: State): State { Flush(Write(Br3(st), |st.nodes| + 1, 20)) }
  function Br5(st: State): State { Flush(Write(Br4(st), |st.nodes| + 2, 30)) }

  /** The conditional body reads the condition and the branch it selects. */
  lemma CondFacts(st: State, rank: map<Id, nat>, B: nat, c: Id, t: int, x: int, y: int)
    requires Holds(st, c, t) && Holds(st, c + 1, x) && Holds(st, c + 2, y)
    ensures TrackedReads(st, rank, B, CondJob(c).body) == if t != 0 then {c, c + 1} else {c, c + 2}
    ensures Den(st, rank, B, CondJob(c).body) == if t != 0 then x else y
  {
    assert Den(st, rank, B, Get(c)) == t;
    assert Den(st, rank, B, Get(c + 1)) == x && Den(st, rank, B, Get(c + 2)) == y;
  }

  /** With the condition false the body tracks no computed and not `a`. */
  lemma CondIdle(st: State, rank: map<Id, nat>, B: nat, c: Id, x: int, y: int)
    requires Holds(st, c, 0) && Holds(st, c + 1, x) && Holds(st, c + 2, y)
    ensures c + 1 !in TrackedReads(st, rank, B, CondJob(c).body)
    ensures forall z :: z in TrackedReads(st, rank, B, CondJob(c).body) ==> !IsComputed(st, z)
  {
    CondFacts(st, rank, B, c, 0, x, y);
  }

  lemma Br1Live(st: State, rank: map<Id, nat>, B: nat)
    requires Live(st, rank, B) && st.pending == []
    ensures var c := |st.nodes|; var r := Br1(st);
      Watching(r, rank, B, c + 3, CondJob(c), 1, 1) && Holds(r, c, 1) && Holds(r, c + 1, 1) && Holds(r, c + 2, 2)
  {
    var c := |st.nodes|;
    var s1 := NewSignal(st, 1);
    var s2 := NewSignal(s1, 1);
    NewSignalLive(st, rank, B, 1);
    NewSignalLive(s1, rank, B, 1);
    NewSignalLive(s2, rank, B, 2);
    NewEffectLive(NewSignal(s2, 2), rank, B, CondJob(c));
    CondFacts(NewSignal(s2, 2), rank, B, c, 1, 1, 2);
  }

  lemma Br2Live(st: State, rank: map<Id, nat>, B: nat)
    requires Live(st, rank, B) && st.pending == []
    ensures var c := |st.nodes|; var r := Br2(st);
      Watching(r, rank, B, c + 3, CondJob(c), 2, 10) && Holds(r, c, 1) && Holds(r, c + 1, 10) && Holds(r, c + 2, 2)
  {
    var c := |st.nodes|;
    var p := Br1(st);
    Br1Live(st, rank, B);
    CondFacts(p, rank, B, c, 1, 1, 2);
    WatchRuns(p, rank, B, c + 3, CondJob(c), 1, 1, c + 1, 10);
    HoldsTick(p, rank, B, c + 1, 10, c, 1);
    HoldsTick(p, rank, B, c + 1, 10, c + 1, 1);
    HoldsTick(p, rank, B, c + 1, 10, c + 2, 2);
    CondFacts(Br2(st), rank, B, c, 1, 10, 2);
  }

  lemma Br3Live(st: State, rank: map<Id, nat>, B: nat)
    requires Live(st, rank, B) && st.pending == []
    ensures var c := |st.nodes|; var r := Br3(st);
      Watching(r, rank, B, c + 3, CondJob(c), 3, 2) && Holds(r, c, 0) && Holds(r, c + 1, 10) && Holds(r, c + 2, 2)
  {
    var c := |st.nodes|;
    var p := Br2(st);
    Br2Live(st, rank, B);
    CondFacts(p, rank, B, c, 1, 10, 2);
    WatchRuns(p, rank, B, c + 3, CondJob(c), 2, 10, c, 0);
    HoldsTick(p, rank, B, c, 0, c, 1);
    HoldsTick(p, rank, B, c, 0, c + 1, 10);
    HoldsTick(p, rank, B, c, 0, c + 2, 2);
    CondFacts(Br3(st), rank, B, c, 0, 10, 2);
  }

  lemma Br4Live(st: State, rank: map<Id, nat>, B: nat)
    requires Live(st, rank, B) && st.pending == []
    ensures var c := |st.nodes|; var r := Br4(st);
      Watching(r, rank, B, c + 3, CondJob(c), 3, 2) && Holds(r, c, 0) && Holds(r, c + 1, 20) && Holds(r, c + 2, 2)
  {
    var c := |st.nodes|;
    var p := Br3(st);
    Br3Live(st, rank, B);
    CondIdle(p, rank, B, c, 10, 2);
    WatchIdle(p, rank, B, c + 3, CondJob(c), 3, 2, c + 1, 20);
    HoldsTick(p, rank, B, c + 1, 20, c, 0);
    HoldsTick(p, rank, B, c + 1, 20, c + 1, 10);
    HoldsTick(p, rank, B, c + 1, 20, c + 2, 2);
  }

  lemma Br5Live(st: State, rank: map<Id, nat>, B: nat)
    requires Live(st, rank, B) && st.pending == []
    ensures var c := |st.nodes|; var r := Br5(st);
      Watching(r, rank, B, c + 3, CondJob(c), 4, 30)
  {
    var c := |st.nodes|;
    var p := Br4(st);
    Br4Live(st, rank, B);
    CondFacts(p, rank, B, c, 0, 20, 2);
    WatchRuns(p, rank, B, c + 3, CondJob(c), 3, 2, c + 2, 30);
    HoldsTick(p, rank, B, c + 2, 30, c, 0);
    HoldsTick(p, rank, B, c + 2, 30, c + 1, 20);
    HoldsTick(p, rank, B, c + 2, 30, c + 2, 2);
    CondFacts(Br5(st), rank, B, c, 0, 20, 30);
  }

  /** Branch switching: while the condition holds the effect tracks `a`; once
      it is false, writes to `a` no longer re-run it and writes to `b` do. */
  lemma BranchSwitching(st: State, rank: map<Id, nat>, B: nat)
    requires Live(st, rank, B) && st.pending == []
    ensures var e := |st.nodes| + 3;
      && Br1(st).nodes[e].runs == 1 && Br1(st).nodes[e].value == 1
      && Br2(st).nodes[e].runs == 2 && Br2(st).nodes[e].value == 10
      && Br3(st).nodes[e].runs == 3 && Br3(st).nodes[e].value == 2
      && Br4(st).nodes[e].runs == 3 && Br4(st).nodes[e].value == 2
      && Br5(st).nodes[e].runs == 4 && Br5(st).nodes[e].value == 30
  {
    Br1Live(st, rank, B);
    Br2Live(st, rank, B);
    Br3Live(st, rank, B);
    Br4Live(st, rank, B);
    Br5Live(st, rank, B);
  }

  // The stop, batching and scope tests share `count = 0` and an effect
  // reading it; `Count2` is one write of 1 and a flush.

  function GetJob(a: Id): Job { Job(Get(a), []) }
  function Count1(st: State): State { NewEffect(NewSignal(st, 0), GetJob(|st.nodes|)).0 }
  function Count2(st: State): State { Flush(Write(Count1(st), |st.nodes|, 1)) }
  function Stop3(st: State): State { Flush(Write(Stop(Count2(st), |st.nodes| + 1), |st.nodes|, 2)) }

  lemma Count1Live(st: State, rank: map<Id, nat>, B: nat)
    requires Live(st, rank, B) && st.pending == []
    ensures var a := |st.nodes|; var r := Count1(st);
      Watching(r, rank, B, a + 1, GetJob(a), 1, 0) && Holds(r, a, 0)
  {
    var a := |st.nodes|;
    NewSignalLive(st, rank, B, 0);
    NewEffectLive(NewSignal(st, 0), rank, B, GetJob(a));
  }

  lemma Count2Live(st: State, rank: map<Id, nat>, B: nat)
    requires Live(st, rank, B) && st.pending == []
    ensures var a := |st.nodes|; var r := Count2(st);
      Watching(r, rank, B, a + 1, GetJob(a), 2, 1) && Holds(r, a, 1)
  {
    var a := |st.nodes|;
    Count1Live(st, rank, B);
    WatchRuns(Count1(st), rank, B, a + 1, GetJob(a), 1, 0, a, 1);
    HoldsTick(Count1(st), rank, B, a, 1, a, 0);
  }

  lemma Stop3Live(st: State, rank: map<Id, nat>, B: nat)
    requires Live(st, rank, B) && st.pending == []
    ensures var e := |st.nodes| + 1; var r := Stop3(st);
      IsEffect(r, e) && r.nodes[e].runs == 2 && !r.nodes[e].active
  {
    var e := |st.nodes| + 1;
    var p := Count2(st);
    Count2Live(st, rank, B);
    StopFacts(p, e);
    StopLive(p, rank, B, e);
    SetAndFlush(Stop(p, e), rank, B, e - 1, 2);
  }

  /** After `stop()` a write no longer re-runs the effect. */
  lemma StopEffect(st: State, rank: map<Id, nat>, B: nat)
    requires Live(st, rank, B) && st.pending == []
    ensures var e := |st.nodes| + 1;
      && Count1(st).nodes[e].runs == 1
      && Count2(st).nodes[e].runs == 2
      && Stop3(st).nodes[e].runs == 2 && !Stop3(st).nodes[e].active
  {
    Count1Live(st, rank, B);
    Count2Live(st, rank, B);
    Stop3Live(st, rank, B);
  }

  // The computed basics test: `a = 1`, `b = 2` and `sum = a + b`, read after
  // each write.

  /** Computed `c` adds signals `a` and `b`. */
  ghost predicate Summing(st: State, rank: map<Id, nat>, B: nat, c: Id, a: Id, b: Id, av: int, bv: int) {
    && Live(st, rank, B) && IsComputed(st, c) && c in rank && Body(st, c) == Add(Get(a), Get(b))
    && Holds(st, a, av) && Holds(st, b, bv) && a != b
  }

  /** Reading the sum returns the sum of the signals' current values. */
  lemma ReadSum(st: State, rank: map<Id, nat>, B: nat, c: Id, a: Id, b: Id, av: int, bv: int)
    requires Summing(st, rank, B, c, a, b, av, bv)
    ensures var out := Read(st, c); out.1 == Ok(av + bv) && Summing(out.0, rank, B, c, a, b, av, bv)
  {
    ReadLive(st, rank, B, c);
    assert Den(st, rank, rank[c], Get(a)) == av;
    assert Den(st, rank, rank[c], Get(b)) == bv;
  }

  /** Writing one of the signals keeps the sum's shape with the new value. */
  lemma WriteSum(st: State, rank: map<Id, nat>, B: nat, c: Id, a: Id, b: Id, av: int, bv: int, v: int)
    requires Summing(st, rank, B, c, a, b, av, bv)
    ensures Summing(Write(st, a, v), rank, B, c, a, b, v, bv)
    ensures Summing(Write(st, b, v), rank, B, c, a, b, av, v)
  {
    WriteLive(st, rank, B, a, v);
    WriteLive(st, rank, B, b, v);
  }

  function Plus0(st: State): State {
    NewComputed(NewSignal(NewSignal(st, 1), 2), Add(Get(|st.nodes|), Get(|st.nodes| + 1)))
  }
  function Plus1(st: State): State { Write(Read(Plus0(st), |st.nodes| + 2).0, |st.nodes|, 5) }
  function Plus2(st: State): State { Write(Read(Plus1(st), |st.nodes| + 2).0, |st.nodes| + 1, 10) }

  /** A computed's getter returns its evaluator's result over the current
      values, after every write. */
  lemma ComputedBasics(st: State, rank: map<Id, nat>, B: nat)
    requires Live(st, rank, B) && |st.nodes| + 2 in rank
    ensures var c := |st.nodes| + 2;
      && Read(Plus0(st), c).1 == Ok(3)
      && Read(Plus1(st), c).1 == Ok(7)
      && Read(Plus2(st), c).1 == Ok(15)
  {
    var a := |st.nodes|;
    var c := a + 2;
    var s0 := NewSignal(st, 1);
    NewSignalLive(st, rank, B, 1);
    NewSignalLive(s0, rank, B, 2);
    NewComputedLive(NewSignal(s0, 2), rank, B, Add(Get(a), Get(a + 1)));
    ReadSum(Plus0(st), rank, B, c, a, a + 1, 1, 2);
    WriteSum(Read(Plus0(st), c).0, rank, B, c, a, a + 1, 1, 2, 5);
    ReadSum(Plus1(st), rank, B, c, a, a + 1, 5, 2);
    WriteSum(Read(Plus1(st), c).0, rank, B, c, a, a + 1, 5, 2, 10);
    ReadSum(Plus2(st), rank, B, c, a, a + 1, 5, 10);
  }

  // The lazy-evaluation test: `a = 1` and `doubled = a * 2`.

  function DoubleBody(a: Id): Expr { Mul(Get(a), Lit(2)) }

  /** Computed `c` doubles signal `a`, which holds `av`; its evaluator ran
      `runs` times and its cache is stale exactly when `dirty`. */
  ghost predicate Doubling(st: State, rank: map<Id, nat>, B: nat, c: Id, a: Id, av: int, runs: nat, dirty: bool) {
    && Live(st, rank, B) && IsComputed(st, c) && c in rank && Body(st, c) == DoubleBody(a)
    && Holds(st, a, av) && st.nodes[c].runs == runs && st.nodes[c].dirty == dirty
  }

  /** Reading the computed returns twice the signal; it re-evaluates, once,
      only when it is dirty, and is clean afterwards. */
  lemma ReadDoubled(st: State, rank: map<Id, nat>, B: nat, c: Id, a: Id, av: int, runs: nat, dirty: bool)
    requires Doubling(st, rank, B, c, a, av, runs, dirty)
    ensures var out := Read(st, c);
      out.1 == Ok(2 * av) && Doubling(out.0, rank, B, c, a, av, if dirty then runs + 1 else runs, false)
  {
    ReadLive(st, rank, B, c);
    assert Reached(st, rank, rank[c], DoubleBody(a)) == {};
    assert Reached(st, rank, ReadBound(st, rank, c), Get(c)) == if dirty then {c} else {};
    assert CDen(st, rank, c) == 2 * av by {
      assert Den(st, rank, rank[c], Get(a)) == av;
      assert Den(st, rank, rank[c], DoubleBody(a)) == av * 2;
    }
    var out := Read(st, c);
    assert Live(out.0, rank, B) && IsComputed(out.0, c) && Body(out.0, c) == DoubleBody(a);
    assert Holds(out.0, a, av);
    assert out.0.nodes[c].runs == if dirty then runs + 1 else runs;
    assert !out.0.nodes[c].dirty;
  }

  /** Writing a new value to the signal marks the computed dirty and does not
      evaluate it. */
  lemma WriteDoubled(st: State, rank: map<Id, nat>, B: nat, c: Id, a: Id, av: int, runs: nat, v: int)
    requires Doubling(st, rank, B, c, a, av, runs, false) && v != av
    ensures Doubling(Write(st, a, v), rank, B, c, a, v, runs, true)
  {
    WriteLive(st, rank, B, a, v);
    WriteDirties(st, rank, B, a, v, c);
    assert a in Direct(st, rank, rank[c], Body(st, c));
  }

  function Lazy1(st: State): State { NewComputed(NewSignal(st, 1), DoubleBody(|st.nodes|)) }
  function Lazy2(st: State): State { Read(Lazy1(st), |st.nodes| + 1).0 }
  function Lazy3(st: State): State { Read(Lazy2(st), |st.nodes| + 1).0 }
  function Lazy4(st: State): State { Write(Lazy3(st), |st.nodes|, 5) }

  /** A computed is not evaluated until it is first read, a second read uses
      the cache, and after a dependency changes the next read re-evaluates
      exactly once. */
  lemma LazyEvaluation(st: State, rank: map<Id, nat>, B: nat)
    requires Live(st, rank, B) && |st.nodes| + 1 in rank
    ensures var c := |st.nodes| + 1;
      && Lazy1(st).nodes[c].runs == 0
      && Read(Lazy1(st), c).1 == Ok(2) && Lazy2(st).nodes[c].runs == 1
      && Read(Lazy2(st), c).1 == Ok(2) && Lazy3(st).nodes[c].runs == 1
      && Read(Lazy4(st), c).1 == Ok(10) && Read(Lazy4(st), c).0.nodes[c].runs == 2
  {
    var a := |st.nodes|;
    var c := a + 1;
    NewSignalLive(st, rank, B, 1);
    NewComputedLive(NewSignal(st, 1), rank, B, DoubleBody(a));
    assert Doubling(Lazy1(st), rank, B, c, a, 1, 0, true);
    ReadDoubled(Lazy1(st), rank, B, c, a, 1, 0, true);
    ReadDoubled(Lazy2(st), rank, B, c, a, 1, 1, false);
    WriteDoubled(Lazy3(st), rank, B, c, a, 1, 1, 5);
    ReadDoubled(Lazy4(st), rank, B, c, a, 5, 1, true);
  }

  // The computed-under-an-effect tests: the doubling computed, read once
  // or not at all before an effect reading it is created.

  /** The meaning of reading the doubling computed. */
  lemma DoubledDen(st: State, rank: map<Id, nat>, B: nat, c: Id, a: Id, av: int)
    requires IsComputed(st, c) && c in rank && rank[c] < B && Body(st, c) == DoubleBody(a) && Holds(st, a, av)
    ensures Den(st, rank, B, Get(c)) == 2 * av
    ensures Reached(st, rank, B, Get(c)) == if st.nodes[c].dirty then {c} else {}
  {
    assert Den(st, rank, rank[c], Get(a)) == av;
    assert Den(st, rank, rank[c], DoubleBody(a)) == av * 2;
    assert Reached(st, rank, rank[c], DoubleBody(a)) == {};
  }

  /** An effect reading the doubling computed runs once and evaluates the
      computed only if it is stale; it is then the only effect. */
  lemma EffectOverDoubled(st: State, rank: map<Id, nat>, B: nat, c: Id, a: Id, av: int, runs: nat, dirty: bool)
    requires Doubling(st, rank, B, c, a, av, runs, dirty) && rank[c] < B && st.pending == [] && NoEffects(st)
    ensures var r := NewEffect(st, GetJob(c)).0; var y := |st.nodes|;
      && Watching(r, rank, B, y, GetJob(c), 1, 2 * av)
      && Doubling(r, rank, B, c, a, av, if dirty then runs + 1 else runs, false)
      && forall z: Id :: IsEffect(r, z) ==> z == y
  {
    var r := NewEffect(st, GetJob(c)).0;
    DoubledDen(st, rank, B, c, a, av);
    assert Tame(st, rank, B, GetJob(c));
    NewEffectLive(st, rank, B, GetJob(c));
    assert Created([GetJob(c)]) == 1;
    forall z: Id | IsEffect(r, z)
      ensures z == |st.nodes|
    {
      assert z < |st.nodes| ==> IsEffect(st, z);
    }
  }

  /** With the effect the only one: a write to the signal and a flush re-run
      the effect once and the computed once, over the new value. */
  lemma FlushDoubled(p: State, rank: map<Id, nat>, B: nat, y: Id, er: nat, ev: int,
                     c: Id, a: Id, av: int, runs: nat, v: int)
    requires Watching(p, rank, B, y, GetJob(c), er, ev) && Doubling(p, rank, B, c, a, av, runs, false)
    requires rank[c] < B && v != av && forall z: Id :: IsEffect(p, z) ==> z == y
    ensures var r := Flush(Write(p, a, v));
      Watching(r, rank, B, y, GetJob(c), er + 1, 2 * v) && Doubling(r, rank, B, c, a, v, runs + 1, false)
  {
    var w := Write(p, a, v);
    WriteDoubled(p, rank, B, c, a, av, runs, v);
    assert Uses(p, rank, c, a) by {
      assert a in Direct(p, rank, rank[c], Body(p, c));
    }
    assert Sees(p, rank, B, y, a) by {
      assert TrackedReads(p, rank, B, Get(c)) == {c};
    }
    QueuedAlone(p, rank, B, a, v, y);
    FlushOne(w, rank, B, y);
    DoubledDen(w, rank, B, c, a, v);
    SetAndFlush(p, rank, B, a, v);
    DoubledDen(Flush(w), rank, B, c, a, v);
  }

  function Trigger1(st: State): State { NewEffect(Lazy1(st), GetJob(|st.nodes| + 1)).0 }
  function Trigger2(st: State): State { Flush(Write(Trigger1(st), |st.nodes|, 2)) }
  function Warm1(st: State): State { NewEffect(Lazy2(st), GetJob(|st.nodes| + 1)).0 }
  function Warm2(st: State): State { Flush(Write(Warm1(st), |st.nodes|, 2)) }

  /** The doubling computed, created before any effect exists. */
  lemma DoublingStart(st: State, rank: map<Id, nat>, B: nat)
    requires Live(st, rank, B) && st.pending == [] && NoEffects(st) && |st.nodes| + 1 in rank
    ensures var a := |st.nodes|;
      Doubling(Lazy1(st), rank, B, a + 1, a, 1, 0, true) && Lazy1(st).pending == [] && NoEffects(Lazy1(st))
  {
    var a := |st.nodes|;
    NewSignalLive(st, rank, B, 1);
    NewComputedLive(NewSignal(st, 1), rank, B, DoubleBody(a));
    forall z: Id
      ensures !IsEffect(Lazy1(st), z)
    {
      assert z < a ==> !IsEffect(st, z);
    }
  }

  /** The same computed after one read. */
  lemma DoublingRead(st: State, rank: map<Id, nat>, B: nat)
    requires Live(st, rank, B) && st.pending == [] && NoEffects(st) && |st.nodes| + 1 in rank
    ensures var a := |st.nodes|;
      Doubling(Lazy2(st), rank, B, a + 1, a, 1, 1, false) && Lazy2(st).pending == [] && NoEffects(Lazy2(st))
  {
    var a := |st.nodes|;
    DoublingStart(st, rank, B);
    ReadDoubled(Lazy1(st), rank, B, a + 1, a, 1, 0, true);
    ReadLive(Lazy1(st), rank, B, a + 1);
    forall z: Id
      ensures !IsEffect(Lazy2(st), z)
    {
      assert !IsEffect(Lazy1(st), z);
    }
  }

  /** Without an earlier read, the effect's first run evaluates the computed. */
  lemma TriggerRuns(st: State, rank: map<Id, nat>, B: nat)
    requires Live(st, rank, B) && st.pending == [] && NoEffects(st)
    requires |st.nodes| + 1 in rank && rank[|st.nodes| + 1] < B
    ensures var c := |st.nodes| + 1; var e := c + 1;
      && Trigger1(st).nodes[e].runs == 1 && Trigger1(st).nodes[c].runs == 1
      && Trigger1(st).nodes[e].value == 2
      && Trigger2(st).nodes[e].runs == 2 && Trigger2(st).nodes[c].runs == 2
      && Trigger2(st).nodes[e].value == 4
  {
    var a := |st.nodes|;
    DoublingStart(st, rank, B);
    EffectOverDoubled(Lazy1(st), rank, B, a + 1, a, 1, 0, true);
    FlushDoubled(Trigger1(st), rank, B, a + 2, 1, 2, a + 1, a, 1, 1, 2);
  }

  /** After an earlier read, the effect's first run uses the cache. */
  lemma WarmRuns(st: State, rank: map<Id, nat>, B: nat)
    requires Live(st, rank, B) && st.pending == [] && NoEffects(st)
    requires |st.nodes| + 1 in rank && rank[|st.nodes| + 1] < B
    ensures var c := |st.nodes| + 1; var e := c + 1;
      && Lazy2(st).nodes[c].runs == 1
      && Warm1(st).nodes[e].runs == 1 && Warm1(st).nodes[c].runs == 1
      && Warm2(st).nodes[e].runs == 2 && Warm2(st).nodes[c].runs == 2
  {
    var a := |st.nodes|;
    DoublingRead(st, rank, B);
    EffectOverDoubled(Lazy2(st), rank, B, a + 1, a, 1, 1, false);
    FlushDoubled(Warm1(st), rank, B, a + 2, 1, 2, a + 1, a, 1, 1, 2);
  }

  // The chain test: `base = 1`, `step1 = base * 2`, `step2 = step1 + 10`,
  // `step3 = step2 * 3`.

  function Chain0(st: State): State {
    var a := |st.nodes|;
    NewComputed(NewComputed(NewComputed(NewSignal(st, 1), Mul(Get(a), Lit(2))), Add(Get(a + 1), Lit(10))),
                Mul(Get(a + 2), Lit(3)))
  }
  function Chain1(st: State): State { Write(Read(Chain0(st), |st.nodes| + 3).0, |st.nodes|, 5) }

  /** Ranks that let each step read the one before it. */
  predicate ChainRanks(rank: map<Id, nat>, a: Id) {
    && a + 1 in rank && a + 2 in rank && a + 3 in rank
    && rank[a + 1] < rank[a + 2] < rank[a + 3]
  }

  /** The chain's description: the base signal and the three steps. */
  ghost predicate ChainShape(st: State, a: Id, av: int) {
    && Holds(st, a, av)
    && IsComputed(st, a + 1) && Body(st, a + 1) == Mul(Get(a), Lit(2))
    && IsComputed(st, a + 2) && Body(st, a + 2) == Add(Get(a + 1), Lit(10))
    && IsComputed(st, a + 3) && Body(st, a + 3) == Mul(Get(a + 2), Lit(3))
  }

  /** The last step's meaning in any state with the chain's shape. */
  lemma ChainFacts(st: State, rank: map<Id, nat>, a: Id, av: int)
    requires ChainRanks(rank, a) && ChainShape(st, a, av)
    ensures CDen(st, rank, a + 3) == (2 * av + 10) * 3
  {
    assert Den(st, rank, rank[a + 1], Get(a)) == av;
    assert Den(st, rank, rank[a + 1], Body(st, a + 1)) == av * 2;
    assert Den(st, rank, rank[a + 2], Get(a + 1)) == 2 * av;
    assert Den(st, rank, rank[a + 2], Body(st, a + 2)) == 2 * av + 10;
    assert Den(st, rank, rank[a + 3], Get(a + 2)) == 2 * av + 10;
    assert Den(st, rank, rank[a + 3], Body(st, a + 3)) == (2 * av + 10) * 3;
  }

  /** Reading the last step returns its meaning and keeps the shape. */
  lemma ChainRead(st: State, rank: map<Id, nat>, B: nat, a: Id, av: int)
    requires Live(st, rank, B) && ChainRanks(rank, a) && ChainShape(st, a, av)
    ensures var out := Read(st, a + 3);
      out.1 == Ok((2 * av + 10) * 3) && Live(out.0, rank, B) && ChainShape(out.0, a, av)
  {
    ChainFacts(st, rank, a, av);
    ReadLive(st, rank, B, a + 3);
  }

  /** Writing the base keeps the shape with the new value. */
  lemma ChainWrite(st: State, rank: map<Id, nat>, B: nat, a: Id, av: int, v: int)
    requires Live(st, rank, B) && ChainShape(st, a, av)
    ensures Live(Write(st, a, v), rank, B) && ChainShape(Write(st, a, v), a, v)
  {
    WriteLive(st, rank, B, a, v);
  }

  lemma Chain0Live(st: State, rank: map<Id, nat>, B: nat)
    requires Live(st, rank, B) && ChainRanks(rank, |st.nodes|)
    ensures Live(Chain0(st), rank, B) && ChainShape(Chain0(st), |st.nodes|, 1)
  {
    var a := |st.nodes|;
    var s0 := NewSignal(st, 1);
    var s1 := NewComputed(s0, Mul(Get(a), Lit(2)));
    var s2 := NewComputed(s1, Add(Get(a + 1), Lit(10)));
    NewSignalLive(st, rank, B, 1);
    NewComputedLive(s0, rank, B, Mul(Get(a), Lit(2)));
    NewComputedLive(s1, rank, B, Add(Get(a + 1), Lit(10)));
    NewComputedLive(s2, rank, B, Mul(Get(a + 2), Lit(3)));
  }

  /** Reading the end of a chain of computeds evaluates the whole chain over
      the current base value, before and after the base changes. */
  lemma ChainComputation(st: State, rank: map<Id, nat>, B: nat)
    requires Live(st, rank, B) && ChainRanks(rank, |st.nodes|)
    ensures var x := |st.nodes| + 3;
      && Read(Chain0(st), x).1 == Ok(36)
      && Read(Chain1(st), x).1 == Ok(60)
  {
    var a := |st.nodes|;
    Chain0Live(st, rank, B);
    ChainRead(Chain0(st), rank, B, a, 1);
    ChainWrite(Read(Chain0(st), a + 3).0, rank, B, a, 1, 5);
    ChainRead(Chain1(st), rank, B, a, 5);
  }

  // The diamond test: `a = 1`, `b = a + 1`, `c = a + 2`, `d = b + c` and an
  // effect reading `d`.

  function Diamond0(st: State): State {
    var a := |st.nodes|;
    NewComputed(NewComputed(NewComputed(NewSignal(st, 1), Add(Get(a), Lit(1))), Add(Get(a), Lit(2))),
                Add(Get(a + 1), Get(a + 2)))
  }
  function Diamond1(st: State): State { NewEffect(Diamond0(st), GetJob(|st.nodes| + 3)).0 }
  function Diamond2(st: State): State { Flush(Write(Diamond1(st), |st.nodes|, 2)) }

  /** Ranks that let `d` read `b` and `c` and the effect read `d`. */
  predicate DiamondRanks(rank: map<Id, nat>, B: nat, a: Id) {
    && a + 1 in rank && a + 2 in rank && a + 3 in rank
    && rank[a + 1] < rank[a + 3] && rank[a + 2] < rank[a + 3] && rank[a + 3] < B
  }

  /** The diamond's meaning and dependencies in any state with its shape. */
  lemma DiamondFacts(st: State, rank: map<Id, nat>, B: nat, a: Id, av: int)
    requires DiamondRanks(rank, B, a) && DiamondShape(st, a, av)
    ensures Den(st, rank, B, Get(a + 3)) == 2 * av + 3
    ensures Uses(st, rank, a + 3, a)
  {
    assert Den(st, rank, rank[a + 1], Get(a)) == av;
    assert Den(st, rank, rank[a + 2], Get(a)) == av;
    assert Den(st, rank, rank[a + 1], Body(st, a + 1)) == av + 1;
    assert Den(st, rank, rank[a + 2], Body(st, a + 2)) == av + 2;
    assert Den(st, rank, rank[a + 3], Get(a + 1)) == av + 1;
    assert Den(st, rank, rank[a + 3], Get(a + 2)) == av + 2;
    assert Uses(st, rank, a + 1, a) by {
      assert a in Direct(st, rank, rank[a + 1], Body(st, a + 1));
    }
    assert a + 1 in Direct(st, rank, rank[a + 3], Body(st, a + 3));
  }

  /** The diamond's description: the root signal and the three computeds. */
  ghost predicate DiamondShape(st: State, a: Id, av: int) {
    && Holds(st, a, av)
    && IsComputed(st, a + 1) && Body(st, a + 1) == Add(Get(a), Lit(1))
    && IsComputed(st, a + 2) && Body(st, a + 2) == Add(Get(a), Lit(2))
    && IsComputed(st, a + 3) && Body(st, a + 3) == Add(Get(a + 1), Get(a + 2))
  }

  lemma Diamond0Live(st: State, rank: map<Id, nat>, B: nat)
    requires Live(st, rank, B) && st.pending == [] && DiamondRanks(rank, B, |st.nodes|)
    ensures var r := Diamond0(st);
      Live(r, rank, B) && r.pending == [] && |r.nodes| == |st.nodes| + 4 && DiamondShape(r, |st.nodes|, 1)
  {
    var a := |st.nodes|;
    var s0 := NewSignal(st, 1);
    var s1 := NewComputed(s0, Add(Get(a), Lit(1)));
    var s2 := NewComputed(s1, Add(Get(a), Lit(2)));
    NewSignalLive(st, rank, B, 1);
    NewComputedLive(s0, rank, B, Add(Get(a), Lit(1)));
    NewComputedLive(s1, rank, B, Add(Get(a), Lit(2)));
    NewComputedLive(s2, rank, B, Add(Get(a + 1), Get(a + 2)));
  }

  lemma Diamond1Live(st: State, rank: map<Id, nat>, B: nat)
    requires Live(st, rank, B) && st.pending == [] && DiamondRanks(rank, B, |st.nodes|)
    ensures var a := |st.nodes|; var r := Diamond1(st);
      Watching(r, rank, B, a + 4, GetJob(a + 3), 1, 5) && DiamondShape(r, a, 1)
  {
    var a := |st.nodes|;
    var p := Diamond0(st);
    Diamond0Live(st, rank, B);
    NewEffectLive(p, rank, B, GetJob(a + 3));
    DiamondFacts(p, rank, B, a, 1);
  }

  /** One write to the diamond's root re-runs the effect exactly once, and it
      sees the new sum. */
  lemma DiamondDependency(st: State, rank: map<Id, nat>, B: nat)
    requires Live(st, rank, B) && st.pending == [] && DiamondRanks(rank, B, |st.nodes|)
    ensures var e := |st.nodes| + 4;
      && Diamond1(st).nodes[e].runs == 1 && Diamond1(st).nodes[e].value == 5
      && Diamond2(st).nodes[e].runs == 2 && Diamond2(st).nodes[e].value == 7
  {
    var a := |st.nodes|;
    var p := Diamond1(st);
    Diamond1Live(st, rank, B);
    DiamondFacts(p, rank, B, a, 1);
    assert Sees(p, rank, B, a + 4, a) by {
      assert a + 3 in TrackedReads(p, rank, B, GetJob(a + 3).body);
    }
    SetAndFlush(p, rank, B, a, 2);
    DiamondFacts(Diamond2(st), rank, B, a, 2);
  }

  // The batching tests.

  /** The first write of a new value queues an effect that reads the signal. */
  lemma WatcherQueued(st: State, rank: map<Id, nat>, B: nat, y: Id, runs: nat, value: int, s: Id, v: int)
    requires Watching(st, rank, B, y, GetJob(s), runs, value) && IsSignal(st, s) && st.nodes[s].value != v
    ensures var w := Write(st, s, v);
      Live(w, rank, B) && IsEffect(w, y) && w.nodes[y] == st.nodes[y] && y in w.pending && Holds(w, s, v)
  {
    GetSees(st, rank, B, y, s, s);
    WriteQueues(st, rank, B, s, v, y);
    WriteLive(st, rank, B, s, v);
  }

  /** A further write leaves a queued effect queued and untouched. */
  lemma QueuedStays(st: State, rank: map<Id, nat>, B: nat, y: Id, s: Id, v: int)
    requires Live(st, rank, B) && IsEffect(st, y) && y in st.pending && IsSignal(st, s)
    ensures var w := Write(st, s, v);
      Live(w, rank, B) && IsEffect(w, y) && w.nodes[y] == st.nodes[y] && y in w.pending && Holds(w, s, v)
  {
    WriteLive(st, rank, B, s, v);
  }

  /** `setCount(1); setCount(2); setCount(3)` and one flush. */
  function Batch(st: State): State {
    var a := |st.nodes|;
    Flush(Write(Write(Write(Count1(st), a, 1), a, 2), a, 3))
  }

  /** Several writes before a flush queue the effect once: it re-runs once,
      over the last value. */
  lemma BatchedWrites(st: State, rank: map<Id, nat>, B: nat)
    requires Live(st, rank, B) && st.pending == []
    ensures var e := |st.nodes| + 1;
      && Count1(st).nodes[e].runs == 1
      && Batch(st).nodes[e].runs == 2 && Batch(st).nodes[e].value == 3
  {
    var a := |st.nodes|;
    var p := Count1(st);
    Count1Live(st, rank, B);
    WatcherQueued(p, rank, B, a + 1, 1, 0, a, 1);
    var w1 := Write(p, a, 1);
    QueuedStays(w1, rank, B, a + 1, a, 2);
    var w2 := Write(w1, a, 2);
    QueuedStays(w2, rank, B, a + 1, a, 3);
    var w3 := Write(w2, a, 3);
    FlushLive(w3, rank, B);
    assert Den(w3, rank, B, Get(a)) == 3;
  }

  /** A flush with nothing queued runs nothing. */
  lemma EmptyFlush(st: State, rank: map<Id, nat>, B: nat)
    requires Live(st, rank, B) && st.pending == []
    ensures var e := |st.nodes| + 1;
      Count2(st).nodes[e].runs == 2 && Flush(Count2(st)).nodes[e].runs == 2
  {
    Count2Live(st, rank, B);
    FlushIdle(Count2(st));
  }

  // The effect-scope tests.

  /** A scope's callback that creates one effect, then returns or throws. */
  function Owning(a: Id, throws: bool): Callback { Callback([GetJob(a)], throws) }

  /** The callback's effect is created at the arena's old size, active and
      run once, whether or not the callback then throws. */
  lemma ScopeSpawn(st: State, c: Job, throws: bool)
    ensures var r := NewScope(st, Some(Callback([c], throws))).0; var n := |st.nodes|;
      IsEffect(r, n) && JobOf(r, n) == c && r.nodes[n].active && r.nodes[n].runs == 1
  {
    var k := |st.scopes|;
    var st1 := st.(scopes := st.scopes + [Scope([], true)]);
    var ctx := Ctx([], {}, [k]);
    SpawnRuns(st1, ctx, c);
    assert CreateAll(st1, ctx, [c]).0 == Spawn(st1, ctx, c).0 by {
      assert [c][1..] == [];
    }
  }

  /** `effectScope(() => effect(...))`, the callback returning or throwing. */
  function Scoped(st: State, throws: bool): (State, Status) {
    NewScope(NewSignal(st, 0), Some(Owning(|st.nodes|, throws)))
  }
  function Scope1(st: State): State { Scoped(st, false).0 }
  function Scope2(st: State): State { Flush(Write(Scope1(st), |st.nodes|, 1)) }
  function Scope3(st: State): State { Flush(Write(StopScope(Scope2(st), |st.scopes|), |st.nodes|, 2)) }

  /** The scope is the next one, active, and owns exactly the effect its
      callback created. */
  lemma ScopedLive(st: State, rank: map<Id, nat>, B: nat, throws: bool)
    requires Live(st, rank, B) && st.pending == []
    ensures var a := |st.nodes|; var k := |st.scopes|; var out := Scoped(st, throws); var r := out.0;
      && out.1 == (if throws then Failed(Thrown) else Done)
      && Watching(r, rank, B, a + 1, GetJob(a), 1, 0) && Holds(r, a, 0)
      && k < |r.scopes| && r.scopes[k] == Scope([a + 1], true)
  {
    var a := |st.nodes|;
    var s0 := NewSignal(st, 0);
    NewSignalLive(st, rank, B, 0);
    assert Tame(s0, rank, B, GetJob(a));
    NewScopeLive(s0, rank, B, Some(Owning(a, throws)));
    NewScopeOwns(s0, Some(Owning(a, throws)));
    ScopeSpawn(s0, GetJob(a), throws);
    assert Created([GetJob(a)]) == 1;
    var r := Scoped(st, throws).0;
    assert Range(a + 1, a + 2) == [a + 1];
    assert Den(r, rank, B, Get(a)) == 0;
  }

  lemma Scope2Live(st: State, rank: map<Id, nat>, B: nat)
    requires Live(st, rank, B) && st.pending == []
    ensures var a := |st.nodes|; var k := |st.scopes|; var r := Scope2(st);
      && Watching(r, rank, B, a + 1, GetJob(a), 2, 1)
      && k < |r.scopes| && r.scopes[k] == Scope([a + 1], true)
  {
    var a := |st.nodes|;
    ScopedLive(st, rank, B, false);
    assert TrackedReads(Scope1(st), rank, B, Get(a)) == {a};
    WatchRuns(Scope1(st), rank, B, a + 1, GetJob(a), 1, 0, a, 1);
    HoldsTick(Scope1(st), rank, B, a, 1, a, 0);
  }

  /** Once its scope is stopped, an owned effect is inactive and a write and
      a flush leave its run count alone. */
  lemma ScopeStopped(p: State, rank: map<Id, nat>, B: nat, k: nat, y: Id, s: Id, v: int)
    requires Live(p, rank, B) && k < |p.scopes| && p.scopes[k].active
    requires y in p.scopes[k].effects && IsEffect(p, y)
    ensures var r := Flush(Write(StopScope(p, k), s, v));
      IsEffect(r, y) && !r.nodes[y].active && r.nodes[y].runs == p.nodes[y].runs
  {
    var q := StopScope(p, k);
    StopScopeFacts(p, k);
    StopAllFacts(p, p.scopes[k].effects);
    StopScopeLive(p, rank, B, k);
    WriteLive(q, rank, B, s, v);
    InactiveStaysIdle(q, y, s, v);
    InactiveStaysIdle(Write(q, s, v), y, s, v);
  }

  /** Stopping a scope stops the effect its callback created. */
  lemma ScopeLifecycle(st: State, rank: map<Id, nat>, B: nat)
    requires Live(st, rank, B) && st.pending == []
    ensures var e := |st.nodes| + 1;
      && Scope1(st).nodes[e].runs == 1
      && Scope2(st).nodes[e].runs == 2
      && Scope3(st).nodes[e].runs == 2 && !Scope3(st).nodes[e].active
  {
    ScopedLive(st, rank, B, false);
    Scope2Live(st, rank, B);
    ScopeStopped(Scope2(st), rank, B, |st.scopes|, |st.nodes| + 1, |st.nodes|, 2);
  }

  /** After its scope is stopped the effect is not re-run, and stopping the
      scope again changes nothing. */
  lemma ScopeStopTwice(st: State, rank: map<Id, nat>, B: nat)
    requires Live(st, rank, B) && st.pending == []
    ensures var e := |st.nodes| + 1; var k := |st.scopes|; var q := StopScope(Scope1(st), k);
      && Flush(Write(q, |st.nodes|, 1)).nodes[e].runs == 1
      && StopScope(q, k) == q
  {
    var k := |st.scopes|;
    ScopedLive(st, rank, B, false);
    ScopeStopped(Scope1(st), rank, B, k, |st.nodes| + 1, |st.nodes|, 1);
    StopScopeFacts(Scope1(st), k);
  }

  /** A callback that throws passes the error on, and its effect stays
      registered with the scope, so stopping the scope stops it. */
  lemma ScopeThrows(st: State, rank: map<Id, nat>, B: nat)
    requires Live(st, rank, B) && st.pending == []
    ensures var e := |st.nodes| + 1; var k := |st.scopes|; var out := Scoped(st, true);
      && out.1 == Failed(Thrown)
      && out.0.nodes[e].runs == 1 && out.0.scopes[k].effects == [e]
      && !StopScope(out.0, k).nodes[e].active
  {
    var k := |st.scopes|;
    var r := Scoped(st, true).0;
    ScopedLive(st, rank, B, true);
    StopScopeFacts(r, k);
  }

  /** `effectScope()` without a callback, then an effect created outside it. */
  function Free1(st: State): State {
    NewEffect(NewScope(NewSignal(st, 0), None).0, GetJob(|st.nodes|)).0
  }
  function Free2(st: State): State { Flush(Write(Free1(st), |st.nodes|, 1)) }
  function Free3(st: State): State {
    Flush(Write(StopScope(Stop(Free2(st), |st.nodes| + 1), |st.scopes|), |st.nodes|, 2))
  }

  lemma Free1Live(st: State, rank: map<Id, nat>, B: nat)
    requires Live(st, rank, B) && st.pending == []
    ensures var a := |st.nodes|; var k := |st.scopes|; var r := Free1(st);
      && Watching(r, rank, B, a + 1, GetJob(a), 1, 0) && Holds(r, a, 0)
      && k < |r.scopes| && r.scopes[k] == Scope([], true)
  {
    var a := |st.nodes|;
    var s0 := NewSignal(st, 0);
    var s1 := NewScope(s0, None).0;
    NewSignalLive(st, rank, B, 0);
    NewScopeLive(s0, rank, B, None);
    NewScopeOwns(s0, None);
    assert Range(a + 1, a + 1) == [];
    NewEffectLive(s1, rank, B, GetJob(a));
    NewEffectUnowned(s1, GetJob(a));
  }

  lemma Free2Live(st: State, rank: map<Id, nat>, B: nat)
    requires Live(st, rank, B) && st.pending == []
    ensures var a := |st.nodes|; var r := Free2(st);
      Watching(r, rank, B, a + 1, GetJob(a), 2, 1) && |st.scopes| < |r.scopes|
  {
    var a := |st.nodes|;
    Free1Live(st, rank, B);
    assert TrackedReads(Free1(st), rank, B, Get(a)) == {a};
    WatchRuns(Free1(st), rank, B, a + 1, GetJob(a), 1, 0, a, 1);
    HoldsTick(Free1(st), rank, B, a, 1, a, 0);
  }

  /** A stopped effect stays stopped when a scope is stopped and a write is
      flushed. */
  lemma StoppedStays(p: State, rank: map<Id, nat>, B: nat, y: Id, k: nat, s: Id, v: int)
    requires Live(p, rank, B) && IsEffect(p, y)
    ensures var r := Flush(Write(StopScope(Stop(p, y), k), s, v));
      IsEffect(r, y) && !r.nodes[y].active && r.nodes[y].runs == p.nodes[y].runs
  {
    var p1 := Stop(p, y);
    StopFacts(p, y);
    StopLive(p, rank, B, y);
    var q := StopScope(p1, k);
    if k < |p1.scopes| && p1.scopes[k].active {
      StopAllFacts(p1, p1.scopes[k].effects);
    }
    StopScopeLive(p1, rank, B, k);
    WriteLive(q, rank, B, s, v);
    InactiveStaysIdle(Write(q, s, v), y, s, v);
  }

  /** An effect created after `effectScope()` returns is not registered with
      the scope: it keeps reacting until it is stopped itself. */
  lemma UnownedEffect(st: State, rank: map<Id, nat>, B: nat)
    requires Live(st, rank, B) && st.pending == []
    ensures var e := |st.nodes| + 1; var k := |st.scopes|;
      && Free1(st).scopes[k].effects == []
      && Free1(st).nodes[e].runs == 1
      && Free2(st).nodes[e].runs == 2
      && Free3(st).nodes[e].runs == 2 && !Free3(st).nodes[e].active
  {
    Free1Live(st, rank, B);
    Free2Live(st, rank, B);
    StoppedStays(Free2(st), rank, B, |st.nodes| + 1, |st.scopes|, |st.nodes|, 2);
  }

  /** An effect created after its scope was stopped still runs at creation. */
  lemma InactiveScope(st: State, rank: map<Id, nat>, B: nat)
    requires Live(st, rank, B) && st.pending == []
    ensures var k := |st.scopes|; var q := StopScope(NewScope(st, None).0, k);
      var r := NewEffect(NewSignal(q, 0), GetJob(|st.nodes|)).0;
      && !q.scopes[k].active
      && r.nodes[|st.nodes| + 1].runs == 1 && r.scopes == q.scopes
  {
    var k := |st.scopes|;
    var s0 := NewScope(st, None).0;
    NewScopeLive(st, rank, B, None);
    NewScopeOwns(st, None);
    StopScopeFacts(s0, k);
    StopScopeLive(s0, rank, B, k);
    var q := StopScope(s0, k);
    NewSignalLive(q, rank, B, 0);
    NewEffectLive(NewSignal(q, 0), rank, B, GetJob(|st.nodes|));
  }

  // The nested-effects test: `a = 1`, `b = 2`, an outer effect reading `a`
  // that creates an inner effect reading `b` on every run.

  /** A run of an effect whose body reads signal `a` and which creates one
      nested effect `c` allocates `c` at the arena's old size, active and run
      once. */
  lemma ChildSpawn(st: State, ctx: Ctx, x: Id, a: Id, c: Job)
    requires x < |st.nodes| && IsSignal(st, a)
    ensures var r := RunJob(st, ctx, x, Job(Get(a), [c])).0;
      IsEffect(r, |st.nodes|) && JobOf(r, |st.nodes|) == c
      && r.nodes[|st.nodes|].active && r.nodes[|st.nodes|].runs == 1
  {
    var st1 := Bump(Unlink(st, x), x);
    var inner := Enter(ctx, x, false);
    assert IsSignal(st1, a);
    var st2 := Track(st1, inner, a);
    var v := st1.nodes[a].value;
    assert Eval(st1, inner, Get(a)) == (st2, Ok(v));
    var st3 := Record(st2, x, v);
    assert |st3.nodes| == |st.nodes|;
    assert RunJob(st, ctx, x, Job(Get(a), [c])) == CreateAll(st3, inner, [c]);
    SpawnRuns(st3, inner, c);
    assert CreateAll(st3, inner, [c]).0 == Spawn(st3, inner, c).0 by {
      assert [c][1..] == [];
    }
  }

  /** The same run, as the only entry of a flush. */
  lemma FlushSpawn(st: State, x: Id, a: Id, c: Job)
    requires IsEffect(st, x) && st.nodes[x].active && JobOf(st, x) == Job(Get(a), [c])
    requires IsSignal(st, a) && st.pending == [x]
    ensures var r := Flush(st);
      IsEffect(r, |st.nodes|) && JobOf(r, |st.nodes|) == c
      && r.nodes[|st.nodes|].active && r.nodes[|st.nodes|].runs == 1
  {
    var st0 := st.(pending := [], flushScheduled := false);
    ChildSpawn(st0, TopLevel, x, a, c);
    var out := RunJob(st0, TopLevel, x, Job(Get(a), [c]));
    FlushSingle(st, x);
    assert Flush(st).nodes == out.0.nodes;
  }

  /** A duplicate-free queue holding `x` and nothing else is `[x]`. */
  lemma OnlyQueued(q: seq<Id>, x: Id)
    requires NoDup(q) && x in q && forall y :: y in q ==> y == x
    ensures q == [x]
  {
    var k := |q| - 1;
    assert q[0] in q && q[k] in q;
  }

  /** The engine has created no effect yet. */
  ghost predicate NoEffects(st: State) {
    forall y: Id :: !IsEffect(st, y)
  }

  function NestJob(a: Id): Job { Job(Get(a), [GetJob(a + 1)]) }
  function Nest1(st: State): State { NewEffect(NewSignal(NewSignal(st, 1), 2), NestJob(|st.nodes|)).0 }
  function Nest2(st: State): State { Flush(Write(Nest1(st), |st.nodes|, 2)) }
  function Nest3(st: State): State { Flush(Write(Nest2(st), |st.nodes| + 1, 3)) }

  /** Effect `y` runs `job`, is active and ran `runs` times. */
  ghost predicate Running(st: State, y: Id, job: Job, runs: nat) {
    IsEffect(st, y) && JobOf(st, y) == job && st.nodes[y].active && st.nodes[y].runs == runs
  }

  /** After the effect is created: the outer effect ran once and its inner
      effect exists, and they are the only effects. */
  ghost predicate NestedOnce(r: State, rank: map<Id, nat>, B: nat, a: Id) {
    && Live(r, rank, B) && r.pending == [] && |r.nodes| == a + 4
    && Running(r, a + 2, NestJob(a), 1) && Running(r, a + 3, GetJob(a + 1), 1)
    && Holds(r, a, 1) && Holds(r, a + 1, 2)
    && forall y: Id :: IsEffect(r, y) ==> y == a + 2 || y == a + 3
  }

  /** After the write to `a`: the outer effect ran twice and created a second
      inner effect. */
  ghost predicate NestedTwice(r: State, rank: map<Id, nat>, B: nat, a: Id) {
    && Live(r, rank, B) && r.pending == [] && |r.nodes| == a + 5
    && Running(r, a + 2, NestJob(a), 2) && Running(r, a + 3, GetJob(a + 1), 1)
    && Running(r, a + 4, GetJob(a + 1), 1) && IsSignal(r, a) && Holds(r, a + 1, 2)
    && forall y: Id :: IsEffect(r, y) ==> a + 2 <= y <= a + 4
  }

  /** Creating the signals and the outer effect, which creates one inner effect. */
  lemma Nest1Base(st: State, rank: map<Id, nat>, B: nat)
    requires Live(st, rank, B) && st.pending == []
    ensures var a := |st.nodes|; var r := Nest1(st);
      && Live(r, rank, B) && r.pending == [] && |r.nodes| == a + 4
      && Running(r, a + 2, NestJob(a), 1) && Holds(r, a, 1) && Holds(r, a + 1, 2)
      && KindsKept(NewSignal(NewSignal(st, 1), 2), r)
  {
    var a := |st.nodes|;
    var s1 := NewSignal(st, 1);
    var s2 := NewSignal(s1, 2);
    NewSignalLive(st, rank, B, 1);
    NewSignalLive(s1, rank, B, 2);
    NewEffectLive(s2, rank, B, NestJob(a));
    assert Created([NestJob(a)]) == 2 by {
      assert Created([GetJob(a + 1)]) == 1;
      assert [NestJob(a)][1..] == [];
    }
  }

  lemma Nest1Live(st: State, rank: map<Id, nat>, B: nat)
    requires Live(st, rank, B) && st.pending == [] && NoEffects(st)
    ensures NestedOnce(Nest1(st), rank, B, |st.nodes|)
  {
    var a := |st.nodes|;
    var s2 := NewSignal(NewSignal(st, 1), 2);
    Nest1Base(st, rank, B);
    ChildSpawn(Alloc(s2, TopLevel, NestJob(a)), TopLevel, a + 2, a, GetJob(a + 1));
    forall y: Id | IsEffect(Nest1(st), y)
      ensures y == a + 2 || y == a + 3
    {
      assert y < a + 2 ==> IsEffect(s2, y);
      assert y < a ==> IsEffect(st, y);
    }
  }

  /** An effect whose body reads one signal sees exactly that signal. */
  lemma GetSees(st: State, rank: map<Id, nat>, B: nat, y: Id, b: Id, s: Id)
    requires IsEffect(st, y) && JobOf(st, y).body == Get(b) && IsSignal(st, b)
    ensures Sees(st, rank, B, y, s) <==> s == b
  {
    assert TrackedReads(st, rank, B, Get(b)) == {b};
  }

  /** A write that only one active effect sees queues exactly that effect. */
  lemma QueuedAlone(st: State, rank: map<Id, nat>, B: nat, s: Id, v: int, y: Id)
    requires Live(st, rank, B) && st.pending == [] && Changes(st, s, v)
    requires IsEffect(st, y) && st.nodes[y].active && Sees(st, rank, B, y, s)
    requires forall z: Id :: IsEffect(st, z) && st.nodes[z].active && z != y ==> !Sees(st, rank, B, z, s)
    ensures Write(st, s, v).pending == [y]
  {
    var w := Write(st, s, v);
    WriteLive(st, rank, B, s, v);
    assert NoDup(w.pending) by {
      assert Wf(w);
    }
    OnlyQueued(w.pending, y);
  }

  /** The write to `a` queues the outer effect and nothing else. */
  lemma NestWriteA(p: State, rank: map<Id, nat>, B: nat, a: Id)
    requires NestedOnce(p, rank, B, a)
    ensures var w := Write(p, a, 2);
      && Live(w, rank, B) && w.pending == [a + 2] && |w.nodes| == a + 4
      && Running(w, a + 2, NestJob(a), 1) && IsSignal(w, a)
  {
    GetSees(p, rank, B, a + 2, a, a);
    GetSees(p, rank, B, a + 3, a + 1, a);
    QueuedAlone(p, rank, B, a, 2, a + 2);
    WriteLive(p, rank, B, a, 2);
  }

  lemma NestFlushA(p: State, rank: map<Id, nat>, B: nat, a: Id)
    requires NestedOnce(p, rank, B, a)
    ensures NestedTwice(Flush(Write(p, a, 2)), rank, B, a)
  {
    var w := Write(p, a, 2);
    NestWriteA(p, rank, B, a);
    FlushOne(w, rank, B, a + 2);
    assert Created([GetJob(a + 1)]) == 1;
    FlushSpawn(w, a + 2, a, GetJob(a + 1));
    GetSees(p, rank, B, a + 2, a, a);
    GetSees(p, rank, B, a + 3, a + 1, a);
    SetAndFlush(p, rank, B, a, 2);
    forall y: Id | IsEffect(Flush(w), y)
      ensures a + 2 <= y <= a + 4
    {
      if y < a + 4 {
        assert IsEffect(p, y);
      }
    }
  }

  /** A write that only effects without nested effects see creates no node
      when flushed. */
  lemma LeafFlush(st: State, rank: map<Id, nat>, B: nat, s: Id, v: int)
    requires Live(st, rank, B) && st.pending == []
    requires forall y: Id :: IsEffect(st, y) && st.nodes[y].active && Sees(st, rank, B, y, s) ==>
      JobOf(st, y).children == []
    ensures |Flush(Write(st, s, v)).nodes| == |st.nodes|
  {
    var w := Write(st, s, v);
    WriteLive(st, rank, B, s, v);
    forall y | y in w.pending
      ensures JobOf(w, y).children == []
    {
      assert IsEffect(st, y) && st.nodes[y].active;
    }
    FlushLive(w, rank, B);
  }

  /** The write to `b` queues only the inner effects, so the flush creates
      nothing. */
  lemma NestSizeB(p: State, rank: map<Id, nat>, B: nat, a: Id)
    requires NestedTwice(p, rank, B, a)
    ensures |Flush(Write(p, a + 1, 3)).nodes| == a + 5
  {
    GetSees(p, rank, B, a + 2, a, a + 1);
    LeafFlush(p, rank, B, a + 1, 3);
  }

  /** The write to `b` re-runs both inner effects and not the outer one. */
  lemma NestFlushB(p: State, rank: map<Id, nat>, B: nat, a: Id)
    requires NestedTwice(p, rank, B, a)
    ensures var r := Flush(Write(p, a + 1, 3));
      && |r.nodes| == a + 5
      && Running(r, a + 2, NestJob(a), 2) && Running(r, a + 3, GetJob(a + 1), 2)
      && Running(r, a + 4, GetJob(a + 1), 2)
  {
    NestSizeB(p, rank, B, a);
    GetSees(p, rank, B, a + 2, a, a + 1);
    GetSees(p, rank, B, a + 3, a + 1, a + 1);
    GetSees(p, rank, B, a + 4, a + 1, a + 1);
    SetAndFlushOne(p, rank, B, a + 1, 3, a + 2);
    SetAndFlushOne(p, rank, B, a + 1, 3, a + 3);
    SetAndFlushOne(p, rank, B, a + 1, 3, a + 4);
  }

  /** Nested effects: the outer effect re-runs on a write to `a` and creates a
      second inner effect, the first one is not torn down, and a write to `b`
      then re-runs both inner effects and not the outer one. */
  lemma NestedEffects(st: State, rank: map<Id, nat>, B: nat)
    requires Live(st, rank, B) && st.pending == [] && NoEffects(st)
    ensures var o := |st.nodes| + 2; var i1 := o + 1; var i2 := o + 2;
      && |Nest1(st).nodes| == i2 && Nest1(st).nodes[o].runs == 1 && Nest1(st).nodes[i1].runs == 1
      && |Nest2(st).nodes| == i2 + 1 && Nest2(st).nodes[o].runs == 2
      && Nest2(st).nodes[i1].runs + Nest2(st).nodes[i2].runs == 2
      && |Nest3(st).nodes| == i2 + 1 && Nest3(st).nodes[o].runs == 2
      && Nest3(st).nodes[i1].runs + Nest3(st).nodes[i2].runs == 4
  {
    var a := |st.nodes|;
    Nest1Live(st, rank, B);
    NestFlushA(Nest1(st), rank, B, a);
    NestFlushB(Nest2(st), rank, B, a);
  }

  /** Circular dependency: computed `a` writes the signal and then reads
      computed `b`, whose body reads `a` while `a` is still on the evaluation
      stack. */
  function Circular0(): State {
    NewComputed(NewComputed(NewSignal(Initial, 1), WriteThen(0, Lit(2), Add(Get(2), Lit(1)))), Add(Get(1), Lit(1)))
  }

  lemma CircularDetection()
    ensures Read(Circular0(), 1).1 == Err(CircularDependency)
  {
    var st := Circular0();
    var ctx1 := Enter(TopLevel, 1, true);
    var st1 := Bump(Unlink(st, 1), 1);
    assert st1.nodes[0] == st.nodes[0] && st1.nodes[2] == st.nodes[2] && st1.nodes[1].dirty;
    var st2 := Write(st1, 0, 2);
    assert st2.nodes[2] == st1.nodes[2] && st2.nodes[1].dirty;
    var ctx2 := Enter(ctx1, 2, true);
    var st3 := Bump(Unlink(st2, 2), 2);
    assert st3.nodes[1].dirty;
    assert Call(st3, ctx2, 1).1 == Err(CircularDependency);
    assert Eval(st3, ctx2, Add(Get(1), Lit(1))).1 == Err(CircularDependency);
    assert Call(st2, ctx1, 2).1 == Err(CircularDependency);
    assert Eval(st2, ctx1, Add(Get(2), Lit(1))).1 == Err(CircularDependency);
    assert Eval(st1, ctx1, WriteThen(0, Lit(2), Add(Get(2), Lit(1)))).1 == Err(CircularDependency);
  }
}
