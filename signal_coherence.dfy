/** What a computed's cache means. Every computed gets a rank above the ranks
    of the computeds its evaluator reads (the dependency graph is acyclic), and
    the meaning `Den` of an evaluator is the value it denotes over the current
    signal values. A clean computed's cache equals the meaning of its
    evaluator; reading a computed returns that meaning; and which computeds a
    read re-evaluates, and what every node then depends on, is fixed by the
    meaning too. */
module SignalCoherence {

  import opened Signals
  import opened SignalInvariants

  /** The evaluator of computed `c`. */
  function Body(st: State, c: Id): Expr
    requires IsComputed(st, c)
  {
    st.nodes[c].kind.evaluator
  }

  /** A body that only reads and computes: no writes, no throws, no untrack. */
  predicate Tracked(e: Expr) {
    match e
    case Lit(_) => true
    case Get(_) => true
    case Add(l, r) => Tracked(l) && Tracked(r)
    case Mul(l, r) => Tracked(l) && Tracked(r)
    case Cond(t, y, n) => Tracked(t) && Tracked(y) && Tracked(n)
    case Untrack(_) => false
    case WriteThen(_, _, _) => false
    case Throw => false
  }

  /** `e` neither writes nor throws, and reads only signals and computeds
      ranked below `bound`. */
  ghost predicate RefsBelow(st: State, rank: map<Id, nat>, bound: nat, e: Expr) {
    match e
    case Lit(_) => true
    case Get(y) => IsSignal(st, y) || (IsComputed(st, y) && y in rank && rank[y] < bound)
    case Add(l, r) => RefsBelow(st, rank, bound, l) && RefsBelow(st, rank, bound, r)
    case Mul(l, r) => RefsBelow(st, rank, bound, l) && RefsBelow(st, rank, bound, r)
    case Cond(t, y, n) =>
      RefsBelow(st, rank, bound, t) && RefsBelow(st, rank, bound, y) && RefsBelow(st, rank, bound, n)
    case Untrack(b) => RefsBelow(st, rank, bound, b)
    case WriteThen(_, _, _) => false
    case Throw => false
  }

  /** Every computed is ranked, and its evaluator reads only signals and
      lower-ranked computeds, all tracked. */
  ghost predicate Ranked(st: State, rank: map<Id, nat>) {
    forall c: Id :: IsComputed(st, c) ==>
      c in rank && Tracked(Body(st, c)) && RefsBelow(st, rank, rank[c], Body(st, c))
  }

  /** The meaning of `e` over the signal values of `st`, reading computeds
      ranked below `bound` through the meaning of their evaluators. */
  function Den(st: State, rank: map<Id, nat>, bound: nat, e: Expr): int
    decreases bound, e
  {
    match e
    case Lit(n) => n
    case Get(y) =>
      if IsSignal(st, y) then st.nodes[y].value
      else if IsComputed(st, y) && y in rank && rank[y] < bound then Den(st, rank, rank[y], Body(st, y))
      else 0
    case Add(l, r) => Den(st, rank, bound, l) + Den(st, rank, bound, r)
    case Mul(l, r) => Den(st, rank, bound, l) * Den(st, rank, bound, r)
    case Cond(t, y, n) =>
      if Den(st, rank, bound, t) != 0 then Den(st, rank, bound, y) else Den(st, rank, bound, n)
    case Untrack(b) => Den(st, rank, bound, b)
    case WriteThen(_, _, _) => 0
    case Throw => 0
  }

  /** The meaning of computed `c`. */
  function CDen(st: State, rank: map<Id, nat>, c: Id): int
    requires IsComputed(st, c) && c in rank
  {
    Den(st, rank, rank[c], Body(st, c))
  }

  /** Every clean computed caches the meaning of its evaluator. */
  ghost predicate Coh(st: State, rank: map<Id, nat>) {
    forall c: Id :: IsComputed(st, c) && c in rank && !st.nodes[c].dirty ==> st.nodes[c].value == CDen(st, rank, c)
  }

  /** The computeds evaluating in `ctx` are ranked at or above `bound`. */
  ghost predicate CtxBelow(ctx: Ctx, rank: map<Id, nat>, bound: nat) {
    forall y :: y in ctx.evaluating ==> y in rank && rank[y] >= bound
  }

  /** Kinds and signal values of the nodes of `st` are the same in `st'`. */
  ghost predicate SignalsKept(st: State, st': State) {
    KindsKept(st, st') &&
    forall i: Id :: IsSignal(st, i) ==> st'.nodes[i].value == st.nodes[i].value
  }

  /** Only dependency and subscriber edges differ. */
  ghost predicate EdgesOnly(st: State, st': State) {
    && |st'.nodes| == |st.nodes|
    && (forall i :: 0 <= i < |st.nodes| ==>
          st'.nodes[i] == st.nodes[i].(deps := st'.nodes[i].deps, subs := st'.nodes[i].subs))
    && st' == st.(nodes := st'.nodes)
  }

  // ---------------------------------------------------------------------------
  // Frames

  lemma SignalsKeptTrans(st: State, st1: State, st2: State)
    requires SignalsKept(st, st1) && SignalsKept(st1, st2)
    ensures SignalsKept(st, st2)
  {
    assert forall i: Id :: IsSignal(st, i) ==> IsSignal(st1, i);
  }

  lemma {:induction false} RefsKept(st: State, st': State, rank: map<Id, nat>, bound: nat, e: Expr)
    requires RefsBelow(st, rank, bound, e) && KindsKept(st, st')
    ensures RefsBelow(st', rank, bound, e)
  {
    match e
    case Lit(_) =>
    case Get(y) =>
    case Add(l, r) => RefsKept(st, st', rank, bound, l); RefsKept(st, st', rank, bound, r);
    case Mul(l, r) => RefsKept(st, st', rank, bound, l); RefsKept(st, st', rank, bound, r);
    case Cond(t, y, n) =>
      RefsKept(st, st', rank, bound, t); RefsKept(st, st', rank, bound, y); RefsKept(st, st', rank, bound, n);
    case Untrack(b) => RefsKept(st, st', rank, bound, b);
  }

  /** A state of the same size with the same kinds is ranked alike. */
  lemma RankedKept(st: State, st': State, rank: map<Id, nat>)
    requires Ranked(st, rank) && KindsKept(st, st') && |st'.nodes| == |st.nodes|
    ensures Ranked(st', rank)
  {
    forall c: Id | IsComputed(st', c)
      ensures c in rank && Tracked(Body(st', c)) && RefsBelow(st', rank, rank[c], Body(st', c))
    {
      assert IsComputed(st, c);
      RefsKept(st, st', rank, rank[c], Body(st, c));
    }
  }

  /** The meaning of a body depends only on kinds and signal values. */
  lemma {:induction false} DenFrame(st: State, st': State, rank: map<Id, nat>, bound: nat, e: Expr)
    requires Ranked(st, rank) && RefsBelow(st, rank, bound, e) && SignalsKept(st, st')
    ensures Den(st', rank, bound, e) == Den(st, rank, bound, e)
    decreases bound, e
  {
    match e
    case Lit(_) =>
    case Get(y) =>
      if IsComputed(st, y) {
        DenFrame(st, st', rank, rank[y], Body(st, y));
      }
    case Add(l, r) => DenFrame(st, st', rank, bound, l); DenFrame(st, st', rank, bound, r);
    case Mul(l, r) => DenFrame(st, st', rank, bound, l); DenFrame(st, st', rank, bound, r);
    case Cond(t, y, n) =>
      DenFrame(st, st', rank, bound, t); DenFrame(st, st', rank, bound, y); DenFrame(st, st', rank, bound, n);
    case Untrack(b) => DenFrame(st, st', rank, bound, b);
  }

  lemma CDenFrame(st: State, st': State, rank: map<Id, nat>)
    requires Ranked(st, rank) && SignalsKept(st, st')
    ensures forall c: Id :: IsComputed(st, c) ==> IsComputed(st', c) && CDen(st', rank, c) == CDen(st, rank, c)
  {
    forall c: Id | IsComputed(st, c)
      ensures IsComputed(st', c) && CDen(st', rank, c) == CDen(st, rank, c)
    {
      DenFrame(st, st', rank, rank[c], Body(st, c));
    }
  }

  /** Coherence survives any step that keeps signal values and only cleans
      computeds by caching their meaning or leaves them as they were. */
  lemma CohKept(st: State, st': State, rank: map<Id, nat>)
    requires Ranked(st, rank) && Coh(st, rank) && SignalsKept(st, st')
    requires forall c: Id :: IsComputed(st', c) && !st'.nodes[c].dirty ==>
      c < |st.nodes| && ((st'.nodes[c].value == st.nodes[c].value && !st.nodes[c].dirty) ||
                         (c in rank && st'.nodes[c].value == CDen(st, rank, c)))
    ensures Coh(st', rank)
  {
    CDenFrame(st, st', rank);
  }

  lemma TrackEdgesOnly(st: State, ctx: Ctx, source: Id)
    ensures EdgesOnly(st, Track(st, ctx, source))
  {
  }

  lemma {:induction false} DetachEdgesOnly(st: State, sub: Id, sources: seq<Id>)
    ensures EdgesOnly(st, Detach(st, sub, sources))
  {
  }

  lemma UnlinkEdgesOnly(st: State, sub: Id)
    ensures EdgesOnly(st, Unlink(st, sub))
  {
    if sub < |st.nodes| {
      DetachEdgesOnly(st, sub, st.nodes[sub].deps);
    }
  }

  lemma EdgesOnlyKept(st: State, st': State, rank: map<Id, nat>)
    requires EdgesOnly(st, st')
    ensures SignalsKept(st, st') && KindsKept(st, st')
    ensures Ranked(st, rank) ==> Ranked(st', rank)
    ensures Ranked(st, rank) && Coh(st, rank) ==> Coh(st', rank)
  {
    assert SignalsKept(st, st');
    if Ranked(st, rank) {
      RankedKept(st, st', rank);
      if Coh(st, rank) {
        CohKept(st, st', rank);
      }
    }
  }

  // ---------------------------------------------------------------------------
  // Reading returns the meaning and keeps caches coherent

  /** Before a dirty computed re-evaluates: the state with its dependencies
      dropped and its run counted keeps the invariants, and the evaluation
      stack grows. */
  lemma DirtyPrep(st: State, ctx: Ctx, rank: map<Id, nat>, bound: nat, x: Id)
    requires Ranked(st, rank) && Coh(st, rank) && CtxBelow(ctx, rank, bound)
    requires RefsBelow(st, rank, bound, Get(x)) && IsComputed(st, x) && st.nodes[x].dirty
    ensures var st1 := Bump(Unlink(st, x), x);
      && x in rank && x !in ctx.evaluating && SignalsKept(st, st1) && |st1.nodes| == |st.nodes|
      && Ranked(st1, rank) && Coh(st1, rank)
      && Idle(|st1.nodes|, Enter(ctx, x, true)) < Idle(|st.nodes|, ctx)
      && RefsBelow(st1, rank, rank[x], Body(st, x))
      && CtxBelow(Enter(ctx, x, true), rank, rank[x])
  {
    var body := Body(st, x);
    UnlinkEdgesOnly(st, x);
    EdgesOnlyKept(st, Unlink(st, x), rank);
    var st1 := Bump(Unlink(st, x), x);
    assert SignalsKept(st, st1);
    RankedKept(st, st1, rank);
    CohKept(st, st1, rank);
    assert Idle(|st1.nodes|, Enter(ctx, x, true)) < Idle(|st.nodes|, ctx) by {
      assert x in Idle(|st.nodes|, ctx);
    }
    RefsKept(st, st1, rank, rank[x], body);
  }

  lemma {:induction false} CallDen(st: State, ctx: Ctx, rank: map<Id, nat>, bound: nat, x: Id)
    requires Ranked(st, rank) && Coh(st, rank) && CtxBelow(ctx, rank, bound)
    requires RefsBelow(st, rank, bound, Get(x))
    ensures Call(st, ctx, x).1 == Ok(Den(st, rank, bound, Get(x)))
    ensures SignalsKept(st, Call(st, ctx, x).0) && Coh(Call(st, ctx, x).0, rank)
    decreases Idle(|st.nodes|, ctx), Get(x), 0
  {
    var nd := st.nodes[x];
    if nd.kind.SignalKind? || !nd.dirty {
      TrackEdgesOnly(st, ctx, x);
      EdgesOnlyKept(st, Track(st, ctx, x), rank);
    } else {
      var body := Body(st, x);
      var st1 := Bump(Unlink(st, x), x);
      DirtyPrep(st, ctx, rank, bound, x);
      EvalDen(st1, Enter(ctx, x, true), rank, rank[x], body);
      var (st2, r) := Eval(st1, Enter(ctx, x, true), body);
      SignalsKeptTrans(st, st1, st2);
      DenFrame(st, st1, rank, rank[x], body);
      CacheCoh(st, st2, ctx, rank, x, r.value);
    }
  }

  /** Caching a computed's meaning after its evaluation keeps the caches
      coherent. */
  lemma CacheCoh(st: State, st2: State, ctx: Ctx, rank: map<Id, nat>, x: Id, v: int)
    requires Ranked(st, rank) && Coh(st, rank) && Coh(st2, rank) && SignalsKept(st, st2)
    requires |st2.nodes| == |st.nodes| && IsComputed(st, x) && x in rank && v == CDen(st, rank, x)
    ensures SignalsKept(st, Track(Cache(st2, x, v), ctx, x)) && Coh(Track(Cache(st2, x, v), ctx, x), rank)
  {
    var st3 := Cache(st2, x, v);
    assert SignalsKept(st2, st3);
    SignalsKeptTrans(st, st2, st3);
    CohKept(st, st3, rank) by {
      CDenFrame(st, st2, rank);
    }
    TrackEdgesOnly(st3, ctx, x);
    EdgesOnlyKept(st3, Track(st3, ctx, x), rank);
    RankedKept(st, st3, rank);
    SignalsKeptTrans(st, st3, Track(st3, ctx, x));
  }

  lemma {:induction false} EvalDen(st: State, ctx: Ctx, rank: map<Id, nat>, bound: nat, e: Expr)
    requires Ranked(st, rank) && Coh(st, rank) && CtxBelow(ctx, rank, bound)
    requires RefsBelow(st, rank, bound, e)
    ensures Eval(st, ctx, e).1 == Ok(Den(st, rank, bound, e))
    ensures SignalsKept(st, Eval(st, ctx, e).0) && Coh(Eval(st, ctx, e).0, rank)
    decreases Idle(|st.nodes|, ctx), e, 1
  {
    match e
    case Lit(_) =>
    case Get(x) => CallDen(st, ctx, rank, bound, x);
    case Add(l, r) =>
      EvalDen(st, ctx, rank, bound, l);
      var (st1, a) := Eval(st, ctx, l);
      EvalStep(st, st1, ctx, rank, bound, r);
    case Mul(l, r) =>
      EvalDen(st, ctx, rank, bound, l);
      var (st1, a) := Eval(st, ctx, l);
      EvalStep(st, st1, ctx, rank, bound, r);
    case Cond(t, y, n) =>
      EvalDen(st, ctx, rank, bound, t);
      var (st1, c) := Eval(st, ctx, t);
      if c.value != 0 {
        EvalStep(st, st1, ctx, rank, bound, y);
      } else {
        EvalStep(st, st1, ctx, rank, bound, n);
      }
    case Untrack(b) =>
      EvalDen(st, Ctx(ctx.frames + [Untracked], ctx.evaluating, ctx.scopes), rank, bound, b);
  }

  /** The second part of a body, evaluated after the first. */
  lemma {:induction false} EvalStep(st: State, st1: State, ctx: Ctx, rank: map<Id, nat>, bound: nat, e: Expr)
    requires Ranked(st, rank) && Coh(st1, rank) && CtxBelow(ctx, rank, bound)
    requires RefsBelow(st, rank, bound, e) && SignalsKept(st, st1) && |st1.nodes| == |st.nodes|
    ensures Eval(st1, ctx, e).1 == Ok(Den(st, rank, bound, e))
    ensures SignalsKept(st, Eval(st1, ctx, e).0) && Coh(Eval(st1, ctx, e).0, rank)
    decreases Idle(|st.nodes|, ctx), e, 2
  {
    RankedKept(st, st1, rank);
    RefsKept(st, st1, rank, bound, e);
    EvalDen(st1, ctx, rank, bound, e);
    DenFrame(st, st1, rank, bound, e);
    SignalsKeptTrans(st, st1, Eval(st1, ctx, e).0);
  }

  // ---------------------------------------------------------------------------
  // Which computeds a read re-evaluates

  /** The dirty computeds a read of `e` re-evaluates: those it reads, and
      those their evaluators read in turn, on the branches the meaning takes. */
  function Reached(st: State, rank: map<Id, nat>, bound: nat, e: Expr): set<Id>
    decreases bound, e
  {
    match e
    case Lit(_) => {}
    case Get(y) =>
      if IsComputed(st, y) && y in rank && rank[y] < bound && st.nodes[y].dirty
      then {y} + Reached(st, rank, rank[y], Body(st, y))
      else {}
    case Add(l, r) => Reached(st, rank, bound, l) + Reached(st, rank, bound, r)
    case Mul(l, r) => Reached(st, rank, bound, l) + Reached(st, rank, bound, r)
    case Cond(t, y, n) =>
      Reached(st, rank, bound, t) +
      (if Den(st, rank, bound, t) != 0 then Reached(st, rank, bound, y) else Reached(st, rank, bound, n))
    case Untrack(b) => Reached(st, rank, bound, b)
    case WriteThen(_, _, _) => {}
    case Throw => {}
  }

  /** The getters `e` calls itself, on the branches the meaning takes. */
  function Direct(st: State, rank: map<Id, nat>, bound: nat, e: Expr): set<Id>
    decreases e
  {
    match e
    case Lit(_) => {}
    case Get(y) => {y}
    case Add(l, r) => Direct(st, rank, bound, l) + Direct(st, rank, bound, r)
    case Mul(l, r) => Direct(st, rank, bound, l) + Direct(st, rank, bound, r)
    case Cond(t, y, n) =>
      Direct(st, rank, bound, t) +
      (if Den(st, rank, bound, t) != 0 then Direct(st, rank, bound, y) else Direct(st, rank, bound, n))
    case Untrack(b) => Direct(st, rank, bound, b)
    case WriteThen(_, _, _) => {}
    case Throw => {}
  }

  /** The getters `e` calls itself outside `untrack`: the dependencies it registers. */
  function TrackedReads(st: State, rank: map<Id, nat>, bound: nat, e: Expr): set<Id>
    decreases e
  {
    match e
    case Lit(_) => {}
    case Get(y) => {y}
    case Add(l, r) => TrackedReads(st, rank, bound, l) + TrackedReads(st, rank, bound, r)
    case Mul(l, r) => TrackedReads(st, rank, bound, l) + TrackedReads(st, rank, bound, r)
    case Cond(t, y, n) =>
      TrackedReads(st, rank, bound, t) +
      (if Den(st, rank, bound, t) != 0 then TrackedReads(st, rank, bound, y) else TrackedReads(st, rank, bound, n))
    case Untrack(_) => {}
    case WriteThen(_, _, _) => {}
    case Throw => {}
  }

  /** The number of constructors in `e`, a measure for proofs that follow
      evaluation through two sub-expressions at a time. */
  function Size(e: Expr): nat
  {
    match e
    case Lit(_) => 1
    case Get(_) => 1
    case Add(l, r) => 1 + Size(l) + Size(r)
    case Mul(l, r) => 1 + Size(l) + Size(r)
    case Cond(t, y, n) => 1 + Size(t) + Size(y) + Size(n)
    case Untrack(b) => 1 + Size(b)
    case WriteThen(_, w, rest) => 1 + Size(w) + Size(rest)
    case Throw => 1
  }

  function Elems(xs: seq<Id>): set<Id>
  {
    set y | y in xs
  }

  lemma {:induction false} TrackedDirect(st: State, rank: map<Id, nat>, bound: nat, e: Expr)
    requires Tracked(e)
    ensures TrackedReads(st, rank, bound, e) == Direct(st, rank, bound, e)
  {
    match e
    case Lit(_) =>
    case Get(_) =>
    case Add(l, r) => TrackedDirect(st, rank, bound, l); TrackedDirect(st, rank, bound, r);
    case Mul(l, r) => TrackedDirect(st, rank, bound, l); TrackedDirect(st, rank, bound, r);
    case Cond(t, y, n) =>
      TrackedDirect(st, rank, bound, t); TrackedDirect(st, rank, bound, y); TrackedDirect(st, rank, bound, n);
  }

  lemma {:induction false} ReadsFrame(st: State, st': State, rank: map<Id, nat>, bound: nat, e: Expr)
    requires Ranked(st, rank) && RefsBelow(st, rank, bound, e) && SignalsKept(st, st')
    ensures Direct(st', rank, bound, e) == Direct(st, rank, bound, e)
    ensures TrackedReads(st', rank, bound, e) == TrackedReads(st, rank, bound, e)
  {
    match e
    case Lit(_) =>
    case Get(_) =>
    case Add(l, r) => ReadsFrame(st, st', rank, bound, l); ReadsFrame(st, st', rank, bound, r);
    case Mul(l, r) => ReadsFrame(st, st', rank, bound, l); ReadsFrame(st, st', rank, bound, r);
    case Cond(t, y, n) =>
      DenFrame(st, st', rank, bound, t);
      ReadsFrame(st, st', rank, bound, t); ReadsFrame(st, st', rank, bound, y); ReadsFrame(st, st', rank, bound, n);
    case Untrack(b) => ReadsFrame(st, st', rank, bound, b);
  }

  /** Everything reached is a dirty computed ranked below the bound, and
      reaching it reaches what its own evaluator reaches. */
  lemma {:induction false} ReachedClosed(st: State, rank: map<Id, nat>, bound: nat, e: Expr, c: Id)
    requires c in Reached(st, rank, bound, e)
    ensures IsComputed(st, c) && c in rank && rank[c] < bound && st.nodes[c].dirty
    ensures Reached(st, rank, rank[c], Body(st, c)) <= Reached(st, rank, bound, e)
    decreases bound, e
  {
    match e
    case Get(y) =>
      if c != y {
        ReachedClosed(st, rank, rank[y], Body(st, y), c);
      }
    case Add(l, r) =>
      if c in Reached(st, rank, bound, l) { ReachedClosed(st, rank, bound, l, c); }
      else { ReachedClosed(st, rank, bound, r, c); }
    case Mul(l, r) =>
      if c in Reached(st, rank, bound, l) { ReachedClosed(st, rank, bound, l, c); }
      else { ReachedClosed(st, rank, bound, r, c); }
    case Cond(t, y, n) =>
      if c in Reached(st, rank, bound, t) { ReachedClosed(st, rank, bound, t, c); }
      else if Den(st, rank, bound, t) != 0 { ReachedClosed(st, rank, bound, y, c); }
      else { ReachedClosed(st, rank, bound, n, c); }
    case Untrack(b) => ReachedClosed(st, rank, bound, b, c);
  }

  /** `K` is a set of computeds closed under what they reach. */
  ghost predicate Closed(st: State, rank: map<Id, nat>, K: set<Id>) {
    forall c :: c in K ==> IsComputed(st, c) && c in rank && Reached(st, rank, rank[c], Body(st, c)) <= K
  }

  lemma ReachedIsClosed(st: State, rank: map<Id, nat>, bound: nat, e: Expr)
    ensures Closed(st, rank, Reached(st, rank, bound, e))
  {
    forall c | c in Reached(st, rank, bound, e)
      ensures IsComputed(st, c) && c in rank && Reached(st, rank, rank[c], Body(st, c)) <= Reached(st, rank, bound, e)
    {
      ReachedClosed(st, rank, bound, e, c);
    }
  }

  /** Cleaning a closed set `K` of computeds removes exactly `K` from what a read reaches. */
  lemma {:induction false} ReachedShift(st: State, st': State, rank: map<Id, nat>, bound: nat, e: Expr, K: set<Id>)
    requires Ranked(st, rank) && RefsBelow(st, rank, bound, e) && SignalsKept(st, st')
    requires |st'.nodes| == |st.nodes| && Closed(st, rank, K)
    requires forall c: Id :: IsComputed(st, c) ==> st'.nodes[c].dirty == (st.nodes[c].dirty && c !in K)
    ensures Reached(st', rank, bound, e) == Reached(st, rank, bound, e) - K
    decreases bound, e
  {
    match e
    case Lit(_) =>
    case Get(y) =>
      if IsComputed(st, y) {
        ReachedShift(st, st', rank, rank[y], Body(st, y), K);
      }
    case Add(l, r) => ReachedShift(st, st', rank, bound, l, K); ReachedShift(st, st', rank, bound, r, K);
    case Mul(l, r) => ReachedShift(st, st', rank, bound, l, K); ReachedShift(st, st', rank, bound, r, K);
    case Cond(t, y, n) =>
      DenFrame(st, st', rank, bound, t);
      ReachedShift(st, st', rank, bound, t, K); ReachedShift(st, st', rank, bound, y, K);
      ReachedShift(st, st', rank, bound, n, K);
    case Untrack(b) => ReachedShift(st, st', rank, bound, b, K);
  }

  /** The evaluator counters and dirty flags after a read. */
  ghost predicate Accounted(st: State, st': State, R: set<Id>) {
    |st'.nodes| == |st.nodes| &&
    forall c: Id :: IsComputed(st, c) ==>
      st'.nodes[c].dirty == (st.nodes[c].dirty && c !in R) &&
      st'.nodes[c].runs == st.nodes[c].runs + (if c in R then 1 else 0)
  }

  lemma {:induction false} CallRuns(st: State, ctx: Ctx, rank: map<Id, nat>, bound: nat, x: Id)
    requires Ranked(st, rank) && Coh(st, rank) && CtxBelow(ctx, rank, bound)
    requires RefsBelow(st, rank, bound, Get(x))
    ensures Accounted(st, Call(st, ctx, x).0, Reached(st, rank, bound, Get(x)))
    decreases Idle(|st.nodes|, ctx), 1, 1
  {
    var nd := st.nodes[x];
    if nd.kind.SignalKind? || !nd.dirty {
      TrackEdgesOnly(st, ctx, x);
    } else {
      var body := Body(st, x);
      var st1 := Bump(Unlink(st, x), x);
      DirtyPrep(st, ctx, rank, bound, x);
      EvalDen(st1, Enter(ctx, x, true), rank, rank[x], body);
      CallRunsBody(st, st1, ctx, rank, x);
      var (st2, r) := Eval(st1, Enter(ctx, x, true), body);
      CallRunsFinish(st, st1, st2, ctx, rank, bound, x, r.value);
    }
  }

  /** Caching, then subscribing the outer reader: the computed itself is
      counted once and left clean. */
  lemma CallRunsFinish(st: State, st1: State, st2: State, ctx: Ctx, rank: map<Id, nat>, bound: nat, x: Id, v: int)
    requires IsComputed(st, x) && x in rank && rank[x] < bound && st.nodes[x].dirty
    requires st1 == Bump(Unlink(st, x), x)
    requires var R := Reached(st, rank, rank[x], Body(st, x)); x !in R && Accounted(st1, st2, R)
    ensures Accounted(st, Track(Cache(st2, x, v), ctx, x), Reached(st, rank, bound, Get(x)))
  {
    UnlinkEdgesOnly(st, x);
    var st3 := Cache(st2, x, v);
    TrackEdgesOnly(st3, ctx, x);
  }

  /** The re-evaluation inside `CallRuns`: the body reaches what it reaches in
      the state before the read, and never the computed itself. */
  lemma {:induction false} CallRunsBody(st: State, st1: State, ctx: Ctx, rank: map<Id, nat>, x: Id)
    requires Ranked(st, rank) && IsComputed(st, x) && x in rank && x !in ctx.evaluating
    requires st1 == Bump(Unlink(st, x), x) && Ranked(st1, rank) && Coh(st1, rank) && SignalsKept(st, st1)
    requires CtxBelow(ctx, rank, rank[x] + 1)
    requires Idle(|st1.nodes|, Enter(ctx, x, true)) < Idle(|st.nodes|, ctx)
    ensures var R := Reached(st, rank, rank[x], Body(st, x));
      x !in R && Accounted(st1, Eval(st1, Enter(ctx, x, true), Body(st, x)).0, R)
    decreases Idle(|st.nodes|, ctx), 1, 0
  {
    var body := Body(st, x);
    UnlinkEdgesOnly(st, x);
    ReachedShift(st, st1, rank, rank[x], body, {});
    if x in Reached(st, rank, rank[x], body) {
      ReachedClosed(st, rank, rank[x], body, x);
    }
    RefsKept(st, st1, rank, rank[x], body);
    EvalRuns(st1, Enter(ctx, x, true), rank, rank[x], body);
  }

  lemma {:induction false} EvalRuns(st: State, ctx: Ctx, rank: map<Id, nat>, bound: nat, e: Expr)
    requires Ranked(st, rank) && Coh(st, rank) && CtxBelow(ctx, rank, bound)
    requires RefsBelow(st, rank, bound, e)
    ensures Accounted(st, Eval(st, ctx, e).0, Reached(st, rank, bound, e))
    decreases Idle(|st.nodes|, ctx), Size(e), 2
  {
    match e
    case Lit(_) =>
    case Get(x) => CallRuns(st, ctx, rank, bound, x);
    case Add(l, r) => EvalRunsPair(st, ctx, rank, bound, l, r);
    case Mul(l, r) => EvalRunsPair(st, ctx, rank, bound, l, r);
    case Cond(t, y, n) =>
      EvalDen(st, ctx, rank, bound, t);
      var (st1, c) := Eval(st, ctx, t);
      if c.value != 0 {
        EvalRunsPair(st, ctx, rank, bound, t, y);
      } else {
        EvalRunsPair(st, ctx, rank, bound, t, n);
      }
    case Untrack(b) =>
      EvalRuns(st, Ctx(ctx.frames + [Untracked], ctx.evaluating, ctx.scopes), rank, bound, b);
  }

  /** `first` evaluated, then `second` in the state it leaves. */
  lemma {:induction false} EvalRunsPair(st: State, ctx: Ctx, rank: map<Id, nat>, bound: nat, first: Expr, second: Expr)
    requires Ranked(st, rank) && Coh(st, rank) && CtxBelow(ctx, rank, bound)
    requires RefsBelow(st, rank, bound, first) && RefsBelow(st, rank, bound, second)
    ensures Eval(st, ctx, first).1.Ok? && Eval(Eval(st, ctx, first).0, ctx, second).1.Ok?
    ensures var st1 := Eval(st, ctx, first).0;
      Accounted(st, Eval(st1, ctx, second).0,
                Reached(st, rank, bound, first) + Reached(st, rank, bound, second))
    decreases Idle(|st.nodes|, ctx), Size(first) + Size(second), 2
  {
    EvalDen(st, ctx, rank, bound, first);
    EvalRuns(st, ctx, rank, bound, first);
    var st1 := Eval(st, ctx, first).0;
    var K := Reached(st, rank, bound, first);
    ReachedIsClosed(st, rank, bound, first);
    ReachedShift(st, st1, rank, bound, second, K);
    RankedKept(st, st1, rank);
    RefsKept(st, st1, rank, bound, second);
    EvalStep(st, st1, ctx, rank, bound, second);
    EvalRuns(st1, ctx, rank, bound, second);
  }



  // ---------------------------------------------------------------------------
  // What every node depends on after a read

  /** The reader on top of the stack, if any, is an effect or a computed that
      is evaluating. */
  ghost predicate Fresh(st: State, ctx: Ctx) {
    Tracks(ctx) ==>
      IsReader(st, Subscriber(ctx)) && (IsEffect(st, Subscriber(ctx)) || Subscriber(ctx) in ctx.evaluating)
  }

  /** Dependency sets after a step: the reader on top of the stack gained `T`,
      each computed of `R` depends on exactly what its evaluator reads, and
      every other node kept its dependencies. */
  ghost predicate Rewired(st: State, st': State, rank: map<Id, nat>, ctx: Ctx, T: set<Id>, R: set<Id>) {
    |st'.nodes| == |st.nodes| &&
    forall z: Id :: z < |st.nodes| ==>
      Elems(st'.nodes[z].deps) ==
        if Tracks(ctx) && z == Subscriber(ctx) then Elems(st.nodes[z].deps) + T
        else if z in R && IsComputed(st, z) && z in rank then Direct(st, rank, rank[z], Body(st, z))
        else Elems(st.nodes[z].deps)
  }

  lemma DirectAllFrame(st: State, st': State, rank: map<Id, nat>)
    requires Ranked(st, rank) && SignalsKept(st, st')
    ensures forall z: Id :: IsComputed(st, z) ==>
      IsComputed(st', z) && Body(st', z) == Body(st, z) &&
      Direct(st', rank, rank[z], Body(st', z)) == Direct(st, rank, rank[z], Body(st, z))
  {
    forall z: Id | IsComputed(st, z)
      ensures IsComputed(st', z) && Body(st', z) == Body(st, z) &&
        Direct(st', rank, rank[z], Body(st', z)) == Direct(st, rank, rank[z], Body(st, z))
    {
      ReadsFrame(st, st', rank, rank[z], Body(st, z));
    }
  }

  lemma NotReachedTop(st: State, ctx: Ctx, rank: map<Id, nat>, bound: nat, e: Expr)
    requires Fresh(st, ctx) && CtxBelow(ctx, rank, bound) && Tracks(ctx)
    ensures Subscriber(ctx) !in Reached(st, rank, bound, e)
  {
    if Subscriber(ctx) in Reached(st, rank, bound, e) {
      ReachedClosed(st, rank, bound, e, Subscriber(ctx));
    }
  }

  lemma RewiredCompose(st: State, st1: State, st2: State, rank: map<Id, nat>, ctx: Ctx,
                       T1: set<Id>, R1: set<Id>, T2: set<Id>, R2: set<Id>)
    requires Ranked(st, rank) && SignalsKept(st, st1)
    requires Rewired(st, st1, rank, ctx, T1, R1) && Rewired(st1, st2, rank, ctx, T2, R2 - R1)
    ensures Rewired(st, st2, rank, ctx, T1 + T2, R1 + R2)
  {
    DirectAllFrame(st, st1, rank);
    assert forall z: Id :: z < |st.nodes| ==> (IsComputed(st1, z) <==> IsComputed(st, z));
  }

  lemma UnlinkDeps(st: State, x: Id)
    ensures forall z: Id :: z < |st.nodes| ==>
      Unlink(st, x).nodes[z].deps == if z == x then [] else st.nodes[z].deps
  {
    if x < |st.nodes| {
      DetachEdgesOnly(st, x, st.nodes[x].deps);
    }
  }

  lemma TrackDeps(st: State, ctx: Ctx, x: Id)
    requires TopOk(st, ctx) && x < |st.nodes|
    ensures forall z: Id :: z < |st.nodes| ==>
      Elems(Track(st, ctx, x).nodes[z].deps) ==
        if Tracks(ctx) && z == Subscriber(ctx) then Elems(st.nodes[z].deps) + {x} else Elems(st.nodes[z].deps)
  {
  }

  lemma {:induction false} CallDeps(st: State, ctx: Ctx, rank: map<Id, nat>, bound: nat, x: Id)
    requires Ranked(st, rank) && Coh(st, rank) && CtxBelow(ctx, rank, bound)
    requires RefsBelow(st, rank, bound, Get(x)) && Fresh(st, ctx)
    ensures Rewired(st, Call(st, ctx, x).0, rank, ctx, {x}, Reached(st, rank, bound, Get(x)))
    decreases Idle(|st.nodes|, ctx), 1, 1
  {
    var nd := st.nodes[x];
    if nd.kind.SignalKind? || !nd.dirty {
      TrackDeps(st, ctx, x);
    } else {
      var body := Body(st, x);
      var st1 := Bump(Unlink(st, x), x);
      DirtyPrep(st, ctx, rank, bound, x);
      EvalDen(st1, Enter(ctx, x, true), rank, rank[x], body);
      CallDepsBody(st, st1, ctx, rank, bound, x);
      var (st2, r) := Eval(st1, Enter(ctx, x, true), body);
      CallDepsFinish(st, st2, ctx, rank, bound, x, r.value);
    }
  }

  /** The dependency sets right after a computed's re-evaluation. */
  ghost predicate Reevaluated(st: State, st2: State, rank: map<Id, nat>, x: Id)
    requires IsComputed(st, x) && x in rank
  {
    var R := Reached(st, rank, rank[x], Body(st, x));
    |st2.nodes| == |st.nodes| &&
    forall z: Id :: z < |st.nodes| ==>
      Elems(st2.nodes[z].deps) ==
        if z == x then Direct(st, rank, rank[x], Body(st, x))
        else if z in R && IsComputed(st, z) && z in rank then Direct(st, rank, rank[z], Body(st, z))
        else Elems(st.nodes[z].deps)
  }

  /** Caching, then subscribing the outer reader. */
  lemma CallDepsFinish(st: State, st2: State, ctx: Ctx, rank: map<Id, nat>, bound: nat, x: Id, v: int)
    requires Ranked(st, rank) && IsComputed(st, x) && x in rank && rank[x] < bound && x !in ctx.evaluating
    requires st.nodes[x].dirty && CtxBelow(ctx, rank, bound) && Fresh(st, ctx)
    requires Reevaluated(st, st2, rank, x) && KindsKept(st, st2)
    ensures Rewired(st, Track(Cache(st2, x, v), ctx, x), rank, ctx, {x}, Reached(st, rank, bound, Get(x)))
  {
    var st3 := Cache(st2, x, v);
    assert forall z: Id :: z < |st.nodes| ==> st3.nodes[z].deps == st2.nodes[z].deps;
    assert TopOk(st3, ctx);
    TrackDeps(st3, ctx, x);
    if Tracks(ctx) {
      NotReachedTop(st, ctx, rank, bound, Get(x));
    }
  }

  /** The re-evaluation inside `CallDeps`: the computed ends up depending on
      exactly what its evaluator reads, and the outer reader is not touched. */
  lemma {:induction false} CallDepsBody(st: State, st1: State, ctx: Ctx, rank: map<Id, nat>, bound: nat, x: Id)
    requires Ranked(st, rank) && IsComputed(st, x) && x in rank && rank[x] < bound && x !in ctx.evaluating
    requires st1 == Bump(Unlink(st, x), x) && Ranked(st1, rank) && Coh(st1, rank) && SignalsKept(st, st1)
    requires CtxBelow(ctx, rank, bound) && Fresh(st, ctx)
    requires Idle(|st1.nodes|, Enter(ctx, x, true)) < Idle(|st.nodes|, ctx)
    ensures Reevaluated(st, Eval(st1, Enter(ctx, x, true), Body(st, x)).0, rank, x)
    decreases Idle(|st.nodes|, ctx), 1, 0
  {
    var body := Body(st, x);
    var inner := Enter(ctx, x, true);
    var R := Reached(st, rank, rank[x], body);
    UnlinkEdgesOnly(st, x);
    UnlinkDeps(st, x);
    ReachedShift(st, st1, rank, rank[x], body, {});
    RefsKept(st, st1, rank, rank[x], body);
    EvalDeps(st1, inner, rank, rank[x], body);
    TrackedDirect(st1, rank, rank[x], body);
    ReadsFrame(st, st1, rank, rank[x], body);
    DirectAllFrame(st, st1, rank);
    ReevaluatedFrom(st, st1, Eval(st1, inner, body).0, rank, inner, x,
                    TrackedReads(st1, rank, rank[x], body), Reached(st1, rank, rank[x], body));
  }

  /** The dependency sets after a re-evaluation, from the rewiring of the
      evaluation with the computed itself as the reader. */
  lemma ReevaluatedFrom(st: State, st1: State, st2: State, rank: map<Id, nat>, inner: Ctx, x: Id,
                        T: set<Id>, R: set<Id>)
    requires IsComputed(st, x) && x in rank && |st1.nodes| == |st.nodes|
    requires forall z: Id :: z < |st.nodes| ==> st1.nodes[z].deps == if z == x then [] else st.nodes[z].deps
    requires Tracks(inner) && Subscriber(inner) == x
    requires Rewired(st1, st2, rank, inner, T, R)
    requires T == Direct(st, rank, rank[x], Body(st, x)) && R == Reached(st, rank, rank[x], Body(st, x))
    requires KindsKept(st, st1)
    requires forall z: Id :: IsComputed(st, z) && z in rank ==>
      Direct(st1, rank, rank[z], Body(st1, z)) == Direct(st, rank, rank[z], Body(st, z))
    ensures Reevaluated(st, st2, rank, x)
  {
    forall z: Id | z < |st.nodes|
      ensures Elems(st2.nodes[z].deps) ==
        if z == x then Direct(st, rank, rank[x], Body(st, x))
        else if z in R && IsComputed(st, z) && z in rank then Direct(st, rank, rank[z], Body(st, z))
        else Elems(st.nodes[z].deps)
    {
      if z == x {
        assert Elems(st1.nodes[x].deps) == {};
      } else if z in R && IsComputed(st, z) {
      } else {
        assert st1.nodes[z].kind == st.nodes[z].kind;
        assert st1.nodes[z].deps == st.nodes[z].deps;
      }
    }
  }


  lemma {:induction false} EvalDeps(st: State, ctx: Ctx, rank: map<Id, nat>, bound: nat, e: Expr)
    requires Ranked(st, rank) && Coh(st, rank) && CtxBelow(ctx, rank, bound)
    requires RefsBelow(st, rank, bound, e) && Fresh(st, ctx)
    ensures Rewired(st, Eval(st, ctx, e).0, rank, ctx, TrackedReads(st, rank, bound, e), Reached(st, rank, bound, e))
    decreases Idle(|st.nodes|, ctx), Size(e), 2
  {
    match e
    case Lit(_) =>
    case Get(x) => CallDeps(st, ctx, rank, bound, x);
    case Add(l, r) =>
      EvalRunsPair(st, ctx, rank, bound, l, r);
      EvalDepsPair(st, ctx, rank, bound, l, r);
    case Mul(l, r) =>
      EvalRunsPair(st, ctx, rank, bound, l, r);
      EvalDepsPair(st, ctx, rank, bound, l, r);
    case Cond(t, y, n) =>
      EvalDen(st, ctx, rank, bound, t);
      var (st1, c) := Eval(st, ctx, t);
      if c.value != 0 {
        EvalRunsPair(st, ctx, rank, bound, t, y);
        EvalDepsPair(st, ctx, rank, bound, t, y);
      } else {
        EvalRunsPair(st, ctx, rank, bound, t, n);
        EvalDepsPair(st, ctx, rank, bound, t, n);
      }
    case Untrack(b) =>
      var ctx' := Ctx(ctx.frames + [Untracked], ctx.evaluating, ctx.scopes);
      EvalDeps(st, ctx', rank, bound, b);
      if Tracks(ctx) {
        NotReachedTop(st, ctx, rank, bound, b);
      }
  }

  lemma {:induction false} EvalDepsPair(st: State, ctx: Ctx, rank: map<Id, nat>, bound: nat, first: Expr, second: Expr)
    requires Ranked(st, rank) && Coh(st, rank) && CtxBelow(ctx, rank, bound)
    requires RefsBelow(st, rank, bound, first) && RefsBelow(st, rank, bound, second) && Fresh(st, ctx)
    ensures var st1 := Eval(st, ctx, first).0;
      Rewired(st, Eval(st1, ctx, second).0, rank, ctx,
              TrackedReads(st, rank, bound, first) + TrackedReads(st, rank, bound, second),
              Reached(st, rank, bound, first) + Reached(st, rank, bound, second))
    decreases Idle(|st.nodes|, ctx), Size(first) + Size(second), 2
  {
    EvalDen(st, ctx, rank, bound, first);
    EvalDeps(st, ctx, rank, bound, first);
    var st1 := Eval(st, ctx, first).0;
    var K := Reached(st, rank, bound, first);
    EvalRuns(st, ctx, rank, bound, first);
    ReachedIsClosed(st, rank, bound, first);
    ReachedShift(st, st1, rank, bound, second, K);
    RankedKept(st, st1, rank);
    RefsKept(st, st1, rank, bound, second);
    ReadsFrame(st, st1, rank, bound, second);
    assert Fresh(st1, ctx);
    EvalDeps(st1, ctx, rank, bound, second);
    RewiredCompose(st, st1, Eval(st1, ctx, second).0, rank, ctx,
                   TrackedReads(st, rank, bound, first), K,
                   TrackedReads(st, rank, bound, second), Reached(st, rank, bound, second));
  }

  // ---------------------------------------------------------------------------
  // Clean computeds are subscribed to what they read

  /** Every clean computed depends on exactly the getters its evaluator calls,
      and those of them that are computeds are clean too. */
  ghost predicate Covered(st: State, rank: map<Id, nat>) {
    forall c: Id :: IsComputed(st, c) && c in rank && !st.nodes[c].dirty ==>
      Elems(st.nodes[c].deps) == Direct(st, rank, rank[c], Body(st, c)) &&
      forall y :: y in Direct(st, rank, rank[c], Body(st, c)) && IsComputed(st, y) ==> !st.nodes[y].dirty
  }

  /** A dirty computed a body reads is one the read re-evaluates. */
  lemma {:induction false} DirectReached(st: State, rank: map<Id, nat>, bound: nat, e: Expr, y: Id)
    requires RefsBelow(st, rank, bound, e) && y in Direct(st, rank, bound, e)
    requires IsComputed(st, y) && st.nodes[y].dirty
    ensures y in Reached(st, rank, bound, e)
  {
    match e
    case Get(_) =>
    case Add(l, r) =>
      if y in Direct(st, rank, bound, l) { DirectReached(st, rank, bound, l, y); }
      else { DirectReached(st, rank, bound, r, y); }
    case Mul(l, r) =>
      if y in Direct(st, rank, bound, l) { DirectReached(st, rank, bound, l, y); }
      else { DirectReached(st, rank, bound, r, y); }
    case Cond(t, a, b) =>
      if y in Direct(st, rank, bound, t) { DirectReached(st, rank, bound, t, y); }
      else if Den(st, rank, bound, t) != 0 { DirectReached(st, rank, bound, a, y); }
      else { DirectReached(st, rank, bound, b, y); }
    case Untrack(b) => DirectReached(st, rank, bound, b, y);
  }

  /** A read from outside any computed keeps clean computeds subscribed to
      what they read. */
  lemma EvalCovered(st: State, ctx: Ctx, rank: map<Id, nat>, bound: nat, e: Expr)
    requires Ranked(st, rank) && Coh(st, rank) && Covered(st, rank)
    requires RefsBelow(st, rank, bound, e) && ctx.evaluating == {}
    requires Tracks(ctx) ==> IsEffect(st, Subscriber(ctx))
    ensures Covered(Eval(st, ctx, e).0, rank)
  {
    EvalDen(st, ctx, rank, bound, e);
    EvalRuns(st, ctx, rank, bound, e);
    EvalDeps(st, ctx, rank, bound, e);
    var st' := Eval(st, ctx, e).0;
    var R := Reached(st, rank, bound, e);
    DirectAllFrame(st, st', rank);
    forall c: Id | IsComputed(st', c) && c in rank && !st'.nodes[c].dirty
      ensures Elems(st'.nodes[c].deps) == Direct(st', rank, rank[c], Body(st', c))
      ensures forall y :: y in Direct(st', rank, rank[c], Body(st', c)) && IsComputed(st', y) ==> !st'.nodes[y].dirty
    {
      assert IsComputed(st, c);
      if c in R {
        ReachedClosed(st, rank, bound, e, c);
        forall y | y in Direct(st, rank, rank[c], Body(st, c)) && IsComputed(st, y) && st.nodes[y].dirty
          ensures y in R
        {
          DirectReached(st, rank, rank[c], Body(st, c), y);
        }
      }
    }
  }

  /** A re-evaluation of a computed outside any evaluator keeps the invariant too. */
  lemma CallCovered(st: State, ctx: Ctx, rank: map<Id, nat>, x: Id)
    requires Ranked(st, rank) && Coh(st, rank) && Covered(st, rank)
    requires IsSource(st, x) && ctx.evaluating == {}
    requires Tracks(ctx) ==> IsEffect(st, Subscriber(ctx))
    ensures Covered(Call(st, ctx, x).0, rank)
  {
    var bound := if IsComputed(st, x) then rank[x] + 1 else 0;
    EvalCovered(st, ctx, rank, bound, Get(x));
  }
}
