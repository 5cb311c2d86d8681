/** The engine as the object the library keeps: one runtime whose fields are
    updated in place by the public operations. Every method is proved to leave
    the runtime in the state the functional semantics of module `Signals`
    prescribes, so every law proved about those functions holds of it. The
    loops are the engine's own: the propagation worklist, the flush over the
    queue snapshot, unsubscribing an effect from its dependencies, and a
    scope stopping the effects it owns. */
module SignalRuntime {
  import opened Options
  import opened Signals

  class Runtime {
    var nodes: seq<Node>
    var pending: seq<Id>
    var flushScheduled: bool
    var scopes: seq<Scope>
    var failures: seq<Failure>

    /** The runtime's fields as a value of the functional semantics. */
    function Snapshot(): State
      reads this
    {
      State(nodes, pending, flushScheduled, scopes, failures)
    }

    /** A runtime with nothing created yet. */
    constructor ()
      ensures Snapshot() == Initial
    {
      nodes := [];
      pending := [];
      flushScheduled := false;
      scopes := [];
      failures := [];
    }

    /** Overwrites every field with the parts of `st`. */
    method Load(st: State)
      modifies this
      ensures Snapshot() == st
    {
      nodes := st.nodes;
      pending := st.pending;
      flushScheduled := st.flushScheduled;
      scopes := st.scopes;
      failures := st.failures;
    }

    /** `signal(v)`: appends a signal and returns its id. */
    method Signal(v: int) returns (id: Id)
      modifies this
      ensures id == |old(nodes)|
      ensures Snapshot() == NewSignal(old(Snapshot()), v)
    {
      id := |nodes|;
      nodes := nodes + [Node(SignalKind, v, false, false, [], [], 0)];
    }

    /** `computed(f)`: appends a dirty computed, not evaluated, and returns its id. */
    method Computed(f: Expr) returns (id: Id)
      modifies this
      ensures id == |old(nodes)|
      ensures Snapshot() == NewComputed(old(Snapshot()), f)
    {
      id := |nodes|;
      nodes := nodes + [Node(ComputedKind(f), 0, true, false, [], [], 0)];
    }

    /** A getter called outside any evaluator. Evaluation recurses through
        the getters a body calls, so it is the function `Call` itself. */
    method Read(x: Id) returns (r: Res)
      modifies this
      ensures (Snapshot(), r) == Signals.Read(old(Snapshot()), x)
    {
      var out := Signals.Read(Snapshot(), x);
      Load(out.0);
      r := out.1;
    }

    /** The propagation worklist: a clean computed is marked dirty and its
        subscribers are added to the work, a dirty computed ends the path, an
        active effect joins the queue once, and every node is processed at
        most once. */
    method Notify(work0: seq<Id>, visited0: set<Id>)
      modifies this
      ensures Snapshot() == Walk(old(Snapshot()), work0, visited0)
    {
      var work: seq<Id>, visited: set<Id> := work0, visited0;
      ghost var n := |nodes|;
      while work != []
        invariant |nodes| == n
        invariant Walk(Snapshot(), work, visited) == Walk(old(Snapshot()), work0, visited0)
        decreases Unvisited(n, visited), |work|
      {
        var x := work[0];
        if x >= |nodes| || x in visited {
          work := work[1..];
        } else {
          var nd := nodes[x];
          assert Unvisited(n, visited + {x}) < Unvisited(n, visited) by {
            assert x in Unvisited(n, visited);
          }
          match nd.kind {
            case ComputedKind(_) =>
              if nd.dirty {
                work := work[1..];
              } else {
                nodes := nodes[x := nd.(dirty := true)];
                work := work[1..] + nd.subs;
              }
            case EffectKind(_) =>
              if nd.active {
                if x !in pending {
                  pending := pending + [x];
                }
                flushScheduled := true;
              }
              work := work[1..];
            case SignalKind =>
              work := work[1..];
          }
          visited := visited + {x};
        }
      }
    }

    /** A signal's setter: an equal value or a non-signal changes nothing;
        otherwise the value is stored and the change propagated. */
    method Set(s: Id, v: int)
      modifies this
      ensures Snapshot() == Write(old(Snapshot()), s, v)
    {
      if s >= |nodes| || !nodes[s].kind.SignalKind? || nodes[s].value == v {
        return;
      }
      nodes := nodes[s := nodes[s].(value := v)];
      Notify(nodes[s].subs, {s});
    }

    /** `effect(job)` outside any evaluator: creates and runs the effect. */
    method Effect(job: Job) returns (id: Id, status: Status)
      modifies this
      ensures id == |old(nodes)|
      ensures (Snapshot(), status) == NewEffect(old(Snapshot()), job)
    {
      id := |nodes|;
      var out := NewEffect(Snapshot(), job);
      Load(out.0);
      status := out.1;
    }

    /** The scheduled flush: snapshot and clear the queue, then run each
        effect of the snapshot that is still active, logging failures. */
    method Flush()
      modifies this
      ensures Snapshot() == Signals.Flush(old(Snapshot()))
    {
      var batch := pending;
      pending := [];
      flushScheduled := false;
      var i := 0;
      while i < |batch|
        invariant 0 <= i <= |batch|
        invariant RunBatch(Snapshot(), batch[i..]) == Signals.Flush(old(Snapshot()))
      {
        assert batch[i..][0] == batch[i] && batch[i..][1..] == batch[i + 1..];
        RunQueued(batch[i]);
        i := i + 1;
      }
    }

    /** One entry of a flush snapshot: re-runs `x` if it is still an active
        effect and logs its failure, if any. */
    method RunQueued(x: Id)
      modifies this
      ensures Snapshot() == RunEntry(old(Snapshot()), x)
    {
      if x < |nodes| && nodes[x].kind.EffectKind? && nodes[x].active {
        var out := RunJob(Snapshot(), TopLevel, x, nodes[x].kind.job);
        Load(out.0);
        if out.1.Failed? {
          failures := failures + [Failure(x, out.1.error)];
        }
      }
    }

    /** Removes `x` from the subscriber list of every one of its dependencies
        and clears its own dependency list. */
    method Unsubscribe(x: Id)
      modifies this
      ensures Snapshot() == Unlink(old(Snapshot()), x)
    {
      if x >= |nodes| {
        return;
      }
      var deps := nodes[x].deps;
      var i := 0;
      while i < |deps|
        invariant 0 <= i <= |deps|
        invariant |nodes| == |old(nodes)|
        invariant Detach(Snapshot(), x, deps[i..]) == Detach(old(Snapshot()), x, deps)
      {
        var d := deps[i];
        assert deps[i..][0] == d && deps[i..][1..] == deps[i + 1..];
        if d < |nodes| {
          nodes := nodes[d := nodes[d].(subs := Without(nodes[d].subs, x))];
        }
        i := i + 1;
      }
      nodes := nodes[x := nodes[x].(deps := [])];
    }

    /** `stop()` of effect `x`. */
    method Stop(x: Id)
      modifies this
      ensures Snapshot() == Signals.Stop(old(Snapshot()), x)
    {
      if x >= |nodes| || !nodes[x].kind.EffectKind? {
        return;
      }
      Unsubscribe(x);
      nodes := nodes[x := nodes[x].(active := false)];
      pending := Without(pending, x);
    }

    /** A scope's stop function: stops the owned effects in order and marks
        the scope inactive, once. */
    method StopScope(k: nat)
      modifies this
      ensures Snapshot() == Signals.StopScope(old(Snapshot()), k)
    {
      if k >= |scopes| || !scopes[k].active {
        return;
      }
      var owned := scopes[k].effects;
      var i := 0;
      while i < |owned|
        invariant 0 <= i <= |owned|
        invariant StopAll(Snapshot(), owned[i..]) == StopAll(old(Snapshot()), owned)
      {
        assert owned[i..][0] == owned[i] && owned[i..][1..] == owned[i + 1..];
        Stop(owned[i]);
        i := i + 1;
      }
      scopes := scopes[k := scopes[k].(active := false)];
    }

    /** `effectScope(callback?)`: appends an active scope and runs the
        callback with it as the innermost scope. */
    method EffectScope(callback: Option<Callback>) returns (k: nat, status: Status)
      modifies this
      ensures k == |old(scopes)|
      ensures (Snapshot(), status) == NewScope(old(Snapshot()), callback)
    {
      k := |scopes|;
      var out := NewScope(Snapshot(), callback);
      Load(out.0);
      status := out.1;
    }
  }
}
