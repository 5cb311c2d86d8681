/** What a signal write does to the graph: the walk from the written signal
    marks dirty exactly the computeds reachable through clean computeds,
    queues exactly the active effects so reachable, and leaves every clean
    computed's cache equal to the meaning of its evaluator. */
module SignalPropagation {

  import opened Signals
  import opened SignalInvariants
  import opened SignalCoherence

  /** The visited set a propagation walk ends with. */
  ghost function WalkSet(st: State, work: seq<Id>, visited: set<Id>): set<Id>
    decreases Unvisited(|st.nodes|, visited), |work|
  {
    if work == [] then visited
    else
      var x := work[0];
      if x >= |st.nodes| || x in visited then WalkSet(st, work[1..], visited)
      else
        var nd := st.nodes[x];
        assert Unvisited(|st.nodes|, visited + {x}) < Unvisited(|st.nodes|, visited) by {
          assert x in Unvisited(|st.nodes|, visited);
        }
        match nd.kind
        case ComputedKind(_) =>
          if nd.dirty then WalkSet(st, work[1..], visited + {x})
          else WalkSet(MarkDirty(st, x), work[1..] + nd.subs, visited + {x})
        case EffectKind(_) =>
          WalkSet(if nd.active then Enqueue(st, x) else st, work[1..], visited + {x})
        case SignalKind =>
          WalkSet(st, work[1..], visited + {x})
  }

  /** The walk visits every node of its worklist, stays within the arena,
      and goes on from each clean computed it visits to its subscribers. */
  ghost predicate WalkClosed(st: State, work: seq<Id>, visited: set<Id>, F: set<Id>) {
    && visited <= F
    && (forall x :: x in work && x < |st.nodes| ==> x in F)
    && (forall x :: x in F && x !in visited ==> x < |st.nodes|)
    && (forall x, y :: (x in F && x !in visited && IsComputed(st, x) && !st.nodes[x].dirty &&
          y in st.nodes[x].subs && y < |st.nodes|) ==> y in F)
  }

  lemma {:induction false} WalkSetFacts(st: State, work: seq<Id>, visited: set<Id>)
    ensures WalkClosed(st, work, visited, WalkSet(st, work, visited))
    decreases Unvisited(|st.nodes|, visited), |work|
  {
    if work != [] {
      var x := work[0];
      assert forall y :: y in work ==> y == x || y in work[1..];
      if x >= |st.nodes| || x in visited {
        WalkSetFacts(st, work[1..], visited);
      } else {
        var nd := st.nodes[x];
        assert Unvisited(|st.nodes|, visited + {x}) < Unvisited(|st.nodes|, visited) by {
          assert x in Unvisited(|st.nodes|, visited);
        }
        match nd.kind
        case ComputedKind(_) =>
          if nd.dirty {
            WalkSetFacts(st, work[1..], visited + {x});
          } else {
            var st1 := MarkDirty(st, x);
            var w1 := work[1..] + nd.subs;
            assert forall y :: y in w1 <==> y in work[1..] || y in nd.subs;
            WalkSetFacts(st1, w1, visited + {x});
          }
        case EffectKind(_) =>
          var st1 := if nd.active then Enqueue(st, x) else st;
          WalkSetFacts(st1, work[1..], visited + {x});
        case SignalKind =>
          WalkSetFacts(st, work[1..], visited + {x});
      }
    }
  }

  /** The walk dirties exactly the computeds it newly visits. */
  lemma {:induction false} WalkDirty(st: State, work: seq<Id>, visited: set<Id>)
    ensures var r := Walk(st, work, visited);
      var F := WalkSet(st, work, visited);
      forall x: Id :: x < |st.nodes| ==>
        r.nodes[x].dirty == (st.nodes[x].dirty || (x in F && x !in visited && IsComputed(st, x)))
    decreases Unvisited(|st.nodes|, visited), |work|
  {
    if work != [] {
      var x := work[0];
      if x >= |st.nodes| || x in visited {
        WalkDirty(st, work[1..], visited);
      } else {
        var nd := st.nodes[x];
        assert Unvisited(|st.nodes|, visited + {x}) < Unvisited(|st.nodes|, visited) by {
          assert x in Unvisited(|st.nodes|, visited);
        }
        WalkSetFacts(st, work, visited);
        match nd.kind
        case ComputedKind(_) =>
          if nd.dirty {
            WalkDirty(st, work[1..], visited + {x});
          } else {
            WalkDirty(MarkDirty(st, x), work[1..] + nd.subs, visited + {x});
          }
        case EffectKind(_) =>
          WalkDirty(if nd.active then Enqueue(st, x) else st, work[1..], visited + {x});
        case SignalKind =>
          WalkDirty(st, work[1..], visited + {x});
      }
    }
  }

  /** The walk queues, at the end of the queue, exactly the active effects it
      newly visits, and then requests a flush. */
  lemma {:induction false} WalkQueue(st: State, work: seq<Id>, visited: set<Id>)
    ensures var r := Walk(st, work, visited);
      var F := WalkSet(st, work, visited);
      && st.pending <= r.pending
      && (forall x :: (x in F && x !in visited && IsEffect(st, x) && st.nodes[x].active) ==> x in r.pending)
      && (forall x :: x in r.pending ==>
            (x in st.pending || (x in F && x !in visited && IsEffect(st, x) && st.nodes[x].active)))
      && (r.pending != st.pending ==> r.flushScheduled)
      && (st.flushScheduled ==> r.flushScheduled)
    decreases Unvisited(|st.nodes|, visited), |work|
  {
    if work != [] {
      var x := work[0];
      if x >= |st.nodes| || x in visited {
        WalkQueue(st, work[1..], visited);
      } else {
        var nd := st.nodes[x];
        assert Unvisited(|st.nodes|, visited + {x}) < Unvisited(|st.nodes|, visited) by {
          assert x in Unvisited(|st.nodes|, visited);
        }
        match nd.kind
        case ComputedKind(_) =>
          if nd.dirty {
            WalkQueue(st, work[1..], visited + {x});
          } else {
            WalkQueue(MarkDirty(st, x), work[1..] + nd.subs, visited + {x});
          }
        case EffectKind(_) =>
          var st1 := if nd.active then Enqueue(st, x) else st;
          WalkSetFacts(st, work, visited);
          WalkQueue(st1, work[1..], visited + {x});
        case SignalKind =>
          WalkQueue(st, work[1..], visited + {x});
      }
    }
  }

  /** The walk goes no further than any set closed under the walk's rule. */
  lemma {:induction false} WalkLeast(st: State, work: seq<Id>, visited: set<Id>, S: set<Id>)
    requires forall x :: x in work && x < |st.nodes| && x !in visited ==> x in S
    requires forall x, y :: (x in S && x !in visited && IsComputed(st, x) && !st.nodes[x].dirty &&
      y in st.nodes[x].subs && y < |st.nodes| && y !in visited) ==> y in S
    ensures WalkSet(st, work, visited) <= S + visited
    decreases Unvisited(|st.nodes|, visited), |work|
  {
    if work != [] {
      var x := work[0];
      assert forall y :: y in work[1..] ==> y in work;
      if x >= |st.nodes| || x in visited {
        WalkLeast(st, work[1..], visited, S);
      } else {
        var nd := st.nodes[x];
        assert Unvisited(|st.nodes|, visited + {x}) < Unvisited(|st.nodes|, visited) by {
          assert x in Unvisited(|st.nodes|, visited);
        }
        match nd.kind
        case ComputedKind(_) =>
          if nd.dirty {
            WalkLeast(st, work[1..], visited + {x}, S);
          } else {
            var st1 := MarkDirty(st, x);
            var w1 := work[1..] + nd.subs;
            assert forall y :: y in w1 <==> y in work[1..] || y in nd.subs;
            WalkLeast(st1, w1, visited + {x}, S);
          }
        case EffectKind(_) =>
          var st1 := if nd.active then Enqueue(st, x) else st;
          WalkLeast(st1, work[1..], visited + {x}, S);
        case SignalKind =>
          WalkLeast(st, work[1..], visited + {x}, S);
      }
    }
  }

  // ---------------------------------------------------------------------------
  // Writes

  /** A write that changes something: to a signal, with a different value. */
  predicate Changes(st: State, s: Id, v: int) {
    IsSignal(st, s) && st.nodes[s].value != v
  }

  /** The state right after the setter stored its value, before propagating. */
  function Stored(st: State, s: Id, v: int): State
    requires s < |st.nodes|
  {
    st.(nodes := st.nodes[s := st.nodes[s].(value := v)])
  }

  /** The nodes a write reaches: visited by its walk, the signal itself aside. */
  ghost function Reach(st: State, s: Id, v: int): set<Id>
  {
    if Changes(st, s, v) then WalkSet(Stored(st, s, v), st.nodes[s].subs, {s}) - {s} else {}
  }

  /** Everything a write does, node by node: the signal takes the value, the
      reached computeds become dirty, the reached active effects join the
      queue, and nothing else changes. */
  ghost predicate WritePost(st: State, s: Id, v: int, r: State, D: set<Id>) {
    && |r.nodes| == |st.nodes|
    && r.scopes == st.scopes && r.failures == st.failures
    && (forall x: Id :: x < |st.nodes| ==>
          r.nodes[x] == st.nodes[x].(value := r.nodes[x].value, dirty := r.nodes[x].dirty))
    && (forall x: Id :: x < |st.nodes| ==>
          r.nodes[x].value == if x == s && Changes(st, s, v) then v else st.nodes[x].value)
    && (forall x: Id :: x < |st.nodes| ==>
          r.nodes[x].dirty == (st.nodes[x].dirty || (x in D && IsComputed(st, x))))
    && (forall x :: x in D ==> x < |st.nodes| && x != s)
    && (Changes(st, s, v) ==> forall x :: x in st.nodes[s].subs && x < |st.nodes| && x != s ==> x in D)
    && (forall x, y :: (x in D && IsComputed(st, x) && !st.nodes[x].dirty &&
          y in st.nodes[x].subs && y < |st.nodes| && y != s) ==> y in D)
    && st.pending <= r.pending
    && (forall x :: x in D && IsEffect(st, x) && st.nodes[x].active ==> x in r.pending)
    && (forall x :: x in r.pending ==> x in st.pending || (x in D && IsEffect(st, x) && st.nodes[x].active))
    && (r.pending != st.pending ==> r.flushScheduled)
  }

  lemma WriteFacts(st: State, s: Id, v: int)
    ensures WritePost(st, s, v, Write(st, s, v), Reach(st, s, v))
  {
    if Changes(st, s, v) {
      var st0 := Stored(st, s, v);
      WalkSetFacts(st0, st0.nodes[s].subs, {s});
      WalkDirty(st0, st0.nodes[s].subs, {s});
      WalkQueue(st0, st0.nodes[s].subs, {s});
    }
  }

  /** The reach of a write lies within any set that holds the signal's
      subscribers and the subscribers of its clean computeds. */
  lemma ReachLeast(st: State, s: Id, v: int, S: set<Id>)
    requires s < |st.nodes|
    requires forall x :: x in st.nodes[s].subs && x < |st.nodes| && x != s ==> x in S
    requires forall x, y :: (x in S && x != s && IsComputed(st, x) && !st.nodes[x].dirty &&
      y in st.nodes[x].subs && y < |st.nodes| && y != s) ==> y in S
    ensures Reach(st, s, v) <= S
  {
    if Changes(st, s, v) {
      WalkLeast(Stored(st, s, v), st.nodes[s].subs, {s}, S);
    }
  }

  // ---------------------------------------------------------------------------
  // Writes keep caches coherent

  lemma {:induction false} DirectRefs(st: State, rank: map<Id, nat>, bound: nat, e: Expr, y: Id)
    requires RefsBelow(st, rank, bound, e) && y in Direct(st, rank, bound, e)
    ensures IsSignal(st, y) || (IsComputed(st, y) && y in rank && rank[y] < bound)
  {
    match e
    case Get(_) =>
    case Add(l, r) =>
      if y in Direct(st, rank, bound, l) { DirectRefs(st, rank, bound, l, y); }
      else { DirectRefs(st, rank, bound, r, y); }
    case Mul(l, r) =>
      if y in Direct(st, rank, bound, l) { DirectRefs(st, rank, bound, l, y); }
      else { DirectRefs(st, rank, bound, r, y); }
    case Cond(t, a, b) =>
      if y in Direct(st, rank, bound, t) { DirectRefs(st, rank, bound, t, y); }
      else if Den(st, rank, bound, t) != 0 { DirectRefs(st, rank, bound, a, y); }
      else { DirectRefs(st, rank, bound, b, y); }
    case Untrack(b) => DirectRefs(st, rank, bound, b, y);
  }

  lemma {:induction false} TrackedInDirect(st: State, rank: map<Id, nat>, bound: nat, e: Expr)
    ensures TrackedReads(st, rank, bound, e) <= Direct(st, rank, bound, e)
  {
    match e
    case Lit(_) =>
    case Get(_) =>
    case Add(l, r) => TrackedInDirect(st, rank, bound, l); TrackedInDirect(st, rank, bound, r);
    case Mul(l, r) => TrackedInDirect(st, rank, bound, l); TrackedInDirect(st, rank, bound, r);
    case Cond(t, a, b) =>
      TrackedInDirect(st, rank, bound, t); TrackedInDirect(st, rank, bound, a); TrackedInDirect(st, rank, bound, b);
    case Untrack(_) =>
    case WriteThen(_, _, _) =>
    case Throw =>
  }

  /** The meaning of a body depends only on what it reads. */
  lemma {:induction false} DenLocal(st: State, st': State, rank: map<Id, nat>, bound: nat, e: Expr)
    requires Ranked(st, rank) && RefsBelow(st, rank, bound, e)
    requires KindsKept(st, st') && |st'.nodes| == |st.nodes|
    requires forall y :: y in Direct(st, rank, bound, e) ==>
      (IsSignal(st, y) ==> st'.nodes[y].value == st.nodes[y].value) &&
      (IsComputed(st, y) ==> CDen(st', rank, y) == CDen(st, rank, y))
    ensures Den(st', rank, bound, e) == Den(st, rank, bound, e)
    ensures Direct(st', rank, bound, e) == Direct(st, rank, bound, e)
    ensures TrackedReads(st', rank, bound, e) == TrackedReads(st, rank, bound, e)
  {
    match e
    case Lit(_) =>
    case Get(y) =>
    case Add(l, r) => DenLocal(st, st', rank, bound, l); DenLocal(st, st', rank, bound, r);
    case Mul(l, r) => DenLocal(st, st', rank, bound, l); DenLocal(st, st', rank, bound, r);
    case Cond(t, a, b) =>
      DenLocal(st, st', rank, bound, t);
      if Den(st, rank, bound, t) != 0 {
        DenLocal(st, st', rank, bound, a);
      } else {
        DenLocal(st, st', rank, bound, b);
      }
    case Untrack(b) => DenLocal(st, st', rank, bound, b);
  }

  /** What a written state looks like from the computeds' point of view. */
  ghost predicate WriteShape(st: State, st': State, s: Id, D: set<Id>) {
    && s < |st.nodes|
    && |st'.nodes| == |st.nodes| && KindsKept(st, st')
    && (forall i: Id :: IsSignal(st, i) && i != s ==> st'.nodes[i].value == st.nodes[i].value)
    && (forall i: Id :: IsComputed(st, i) ==>
          st'.nodes[i].dirty == (st.nodes[i].dirty || i in D) &&
          st'.nodes[i].value == st.nodes[i].value &&
          st'.nodes[i].deps == st.nodes[i].deps)
    && (forall x :: x in st.nodes[s].subs ==> x in D)
    && (forall x, y :: x in D && IsComputed(st, x) && !st.nodes[x].dirty && y in st.nodes[x].subs ==> y in D)
  }

  /** A computed still clean after a write reads nothing the write changed. */
  lemma {:induction false} CleanAfterWrite(st: State, st': State, rank: map<Id, nat>, s: Id, D: set<Id>, c: Id)
    requires Wf(st) && Ranked(st, rank) && Covered(st, rank) && IsSignal(st, s)
    requires WriteShape(st, st', s, D)
    requires IsComputed(st, c) && !st'.nodes[c].dirty
    ensures CDen(st', rank, c) == CDen(st, rank, c)
    ensures Direct(st', rank, rank[c], Body(st', c)) == Direct(st, rank, rank[c], Body(st, c))
    ensures forall y :: y in Direct(st, rank, rank[c], Body(st, c)) && IsComputed(st, y) ==> !st'.nodes[y].dirty
    decreases rank[c]
  {
    var body := Body(st, c);
    assert c !in D && !st.nodes[c].dirty;
    assert Elems(st.nodes[c].deps) == Direct(st, rank, rank[c], body);
    forall y | y in Direct(st, rank, rank[c], body)
      ensures IsComputed(st, y) ==> !st'.nodes[y].dirty
      ensures IsSignal(st, y) ==> st'.nodes[y].value == st.nodes[y].value
      ensures IsComputed(st, y) ==> CDen(st', rank, y) == CDen(st, rank, y)
    {
      DirectRefs(st, rank, rank[c], body, y);
      assert y in st.nodes[c].deps;
      assert c in st.nodes[y].subs;
      if IsComputed(st, y) {
        assert !st.nodes[y].dirty;
        assert y !in D;
        CleanAfterWrite(st, st', rank, s, D, y);
      }
    }
    DenLocal(st, st', rank, rank[c], body);
  }

  lemma WriteShapeCoherent(st: State, st': State, rank: map<Id, nat>, s: Id, D: set<Id>)
    requires Wf(st) && Ranked(st, rank) && Coh(st, rank) && Covered(st, rank) && IsSignal(st, s)
    requires WriteShape(st, st', s, D)
    ensures Ranked(st', rank) && Coh(st', rank) && Covered(st', rank)
  {
    RankedKept(st, st', rank);
    forall c: Id | IsComputed(st', c) && c in rank && !st'.nodes[c].dirty
      ensures st'.nodes[c].value == CDen(st', rank, c)
      ensures Elems(st'.nodes[c].deps) == Direct(st', rank, rank[c], Body(st', c))
      ensures forall y :: y in Direct(st', rank, rank[c], Body(st', c)) && IsComputed(st', y) ==> !st'.nodes[y].dirty
    {
      CleanAfterWrite(st, st', rank, s, D, c);
    }
  }

  /** A changing write has the shape the coherence argument needs. */
  lemma WriteShaped(st: State, s: Id, v: int)
    requires Wf(st) && Changes(st, s, v)
    ensures WriteShape(st, Write(st, s, v), s, Reach(st, s, v))
    ensures WritePost(st, s, v, Write(st, s, v), Reach(st, s, v))
  {
    var D := Reach(st, s, v);
    WriteFacts(st, s, v);
    forall x | x in st.nodes[s].subs
      ensures x in D
    {
      assert IsReader(st, x);
    }
    forall x, y | x in D && IsComputed(st, x) && !st.nodes[x].dirty && y in st.nodes[x].subs
      ensures y in D
    {
      assert IsReader(st, y);
    }
  }

  /** A write keeps every clean computed's cache equal to its meaning and its
      dependencies equal to what it reads. */
  lemma WriteCoherent(st: State, rank: map<Id, nat>, s: Id, v: int)
    requires Wf(st) && Ranked(st, rank) && Coh(st, rank) && Covered(st, rank)
    ensures var r := Write(st, s, v);
      Wf(r) && Ranked(r, rank) && Coh(r, rank) && Covered(r, rank)
  {
    WriteWf(st, s, v);
    if Changes(st, s, v) {
      WriteShaped(st, s, v);
      WriteShapeCoherent(st, Write(st, s, v), rank, s, Reach(st, s, v));
    }
  }
}
