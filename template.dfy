/** The reactive template binder: attributes written `.prop`, `:attr` and
    `@event` on the given element nodes become a property binding, an
    attribute binding and an event listener, each evaluating the attribute's
    value as an expression, and the directive attributes are removed from the
    element. The bindings' effects are created inside one effect scope.

    Evaluating the expression, setting the property or attribute and adding
    the listener are DOM operations outside this model; an expression is
    handed to the engine as the evaluator body `compile(expr)`. */
module Template {
  import opened Options
  import opened Signals
  import opened SignalRuntime

  // ---------------------------------------------------------------------------
  // kebab-case to camelCase

  predicate IsLower(c: char) {
    'a' <= c <= 'z'
  }

  /** The upper-case letter of a lower-case ASCII letter. */
  function Upper(c: char): (u: char)
    requires IsLower(c)
    ensures u == "ABCDEFGHIJKLMNOPQRSTUVWXYZ"[c as int - 'a' as int]
  {
    (c as int - 32) as char
  }

  /** A `-` followed by a lower-case letter starts at index `i`. */
  predicate PairAt(s: string, i: int) {
    0 <= i && i + 1 < |s| && s[i] == '-' && IsLower(s[i + 1])
  }

  /** The `/-([a-z])/g` replacement: scanning left to right, each `-` followed
      by a lower-case letter is dropped and the letter upper-cased; matches do
      not overlap, so the scan resumes after the letter. */
  function ToCamelCase(s: string): string
    decreases |s|
  {
    if PairAt(s, 0) then [Upper(s[1])] + ToCamelCase(s[2..])
    else if s == [] then []
    else [s[0]] + ToCamelCase(s[1..])
  }

  /** The number of positions where a `-` is followed by a lower-case letter. */
  function Pairs(s: string): nat
    decreases |s|
  {
    if s == [] then 0 else (if PairAt(s, 0) then 1 else 0) + Pairs(s[1..])
  }

  ghost predicate HasPair(s: string) {
    exists i :: PairAt(s, i)
  }

  /** Each match removes one character: the output is shorter than the input
      by the number of `-`-letter pairs. */
  lemma {:induction false} CamelLength(s: string)
    ensures |ToCamelCase(s)| == |s| - Pairs(s)
    decreases |s|
  {
    if PairAt(s, 0) {
      CamelLength(s[2..]);
      assert !PairAt(s[1..], 0);
      assert s[1..][1..] == s[2..];
    } else if s != [] {
      CamelLength(s[1..]);
    }
  }

  /** The first character of the output: the upper-cased letter of a leading
      match, or the first input character. */
  lemma CamelHead(s: string)
    requires s != []
    ensures ToCamelCase(s) != []
    ensures ToCamelCase(s)[0] == if PairAt(s, 0) then Upper(s[1]) else s[0]
  {
  }

  /** No output character is a `-` followed by a lower-case letter: a `-` that
      is kept was not followed by one, and what follows it in the output is
      that same character or an upper-cased letter. */
  lemma {:induction false} CamelHasNoPair(s: string)
    ensures !HasPair(ToCamelCase(s))
    decreases |s|
  {
    var r := ToCamelCase(s);
    if PairAt(s, 0) {
      CamelHasNoPair(s[2..]);
      var t := ToCamelCase(s[2..]);
      assert r == [Upper(s[1])] + t;
      forall i | 0 <= i ensures !PairAt(r, i) {
        if i > 0 {
          assert !PairAt(t, i - 1);
        }
      }
    } else if s != [] {
      CamelHasNoPair(s[1..]);
      var t := ToCamelCase(s[1..]);
      assert r == [s[0]] + t;
      forall i | 0 <= i ensures !PairAt(r, i) {
        if i > 0 {
          assert !PairAt(t, i - 1);
        } else if s[0] == '-' && t != [] {
          CamelHead(s[1..]);
          assert !IsLower(s[1]);
        }
      }
    }
  }

  /** A string without any `-`-letter pair is left unchanged. */
  lemma {:induction false} CamelIdentity(s: string)
    requires !HasPair(s)
    ensures ToCamelCase(s) == s
    decreases |s|
  {
    if s != [] {
      assert !PairAt(s, 0);
      assert !HasPair(s[1..]) by {
        forall i | 0 <= i ensures !PairAt(s[1..], i) {
          assert !PairAt(s, i + 1);
        }
      }
      CamelIdentity(s[1..]);
    }
  }

  /** A string with no `-` is unchanged. */
  lemma CamelNoDash(s: string)
    requires '-' !in s
    ensures ToCamelCase(s) == s
  {
    CamelIdentity(s);
  }

  /** Converting twice is converting once. */
  lemma CamelIdempotent(s: string)
    ensures ToCamelCase(ToCamelCase(s)) == ToCamelCase(s)
  {
    CamelHasNoPair(s);
    CamelIdentity(ToCamelCase(s));
  }

  /** Matching is left to right and does not overlap: in `a--b` the first `-`
      is followed by `-` and stays, the second takes the `b`. */
  lemma CamelDoubleDash()
    ensures ToCamelCase("a--b") == "a-B"
  {
    assert "a--b"[1..] == "--b" && "--b"[1..] == "-b" && "-b"[2..] == [];
    assert PairAt("-b", 0) && !PairAt("--b", 0) && !PairAt("a--b", 0);
  }

  // ---------------------------------------------------------------------------
  // Attribute dispatch

  datatype Attr = Attr(name: string, value: string)

  /** A binding created from one attribute: the target name and the
      expression text. */
  datatype Binding =
    | PropertyBinding(prop: string, expr: string)
    | AttributeBinding(attr: string, expr: string)
    | EventListener(event: string, expr: string)

  predicate IsDirective(name: string) {
    |name| > 0 && name[0] in {'.', ':', '@'}
  }

  /** The binding an attribute asks for, if any: the property name is the
      camel-cased rest of the name; attribute and event names are kept as
      written, since the DOM lower-cases them already. */
  function Classify(a: Attr): (b: Option<Binding>)
    ensures b.Some? <==> IsDirective(a.name)
  {
    if |a.name| > 0 && a.name[0] == '.' then Some(PropertyBinding(ToCamelCase(a.name[1..]), a.value))
    else if |a.name| > 0 && a.name[0] == ':' then Some(AttributeBinding(a.name[1..], a.value))
    else if |a.name| > 0 && a.name[0] == '@' then Some(EventListener(a.name[1..], a.value))
    else None
  }

  /** `.x-y="e"` binds property `xY` to `e`. */
  lemma ClassifyProperty(rest: string, value: string)
    ensures Classify(Attr("." + rest, value)) == Some(PropertyBinding(ToCamelCase(rest), value))
  {
    assert ("." + rest)[1..] == rest;
  }

  /** `:name="e"` binds attribute `name` to `e`, without case conversion. */
  lemma ClassifyAttribute(rest: string, value: string)
    ensures Classify(Attr(":" + rest, value)) == Some(AttributeBinding(rest, value))
  {
    assert (":" + rest)[1..] == rest;
  }

  /** `@name="e"` listens to event `name`, without case conversion. */
  lemma ClassifyEvent(rest: string, value: string)
    ensures Classify(Attr("@" + rest, value)) == Some(EventListener(rest, value))
  {
    assert ("@" + rest)[1..] == rest;
  }

  /** The bindings a list of attributes asks for, in order. */
  function Bindings(attrs: seq<Attr>): seq<Binding>
  {
    if attrs == [] then []
    else
      var last := attrs[|attrs| - 1];
      Bindings(attrs[..|attrs| - 1]) + (if Classify(last).Some? then [Classify(last).value] else [])
  }

  /** The attributes that are not directives. */
  function Plain(attrs: seq<Attr>): seq<Attr>
  {
    if attrs == [] then []
    else if IsDirective(attrs[0].name) then Plain(attrs[1..])
    else [attrs[0]] + Plain(attrs[1..])
  }

  /** The attributes whose name is not in `removed`. */
  function Keep(attrs: seq<Attr>, removed: set<string>): (r: seq<Attr>)
    ensures forall a :: a in r <==> a in attrs && a.name !in removed
  {
    if attrs == [] then []
    else if attrs[0].name in removed then Keep(attrs[1..], removed)
    else [attrs[0]] + Keep(attrs[1..], removed)
  }

  lemma {:induction false} KeepNone(attrs: seq<Attr>)
    ensures Keep(attrs, {}) == attrs
    decreases |attrs|
  {
    if attrs != [] {
      KeepNone(attrs[1..]);
    }
  }

  lemma {:induction false} KeepTwice(attrs: seq<Attr>, removed: set<string>, name: string)
    ensures Keep(Keep(attrs, removed), {name}) == Keep(attrs, removed + {name})
    decreases |attrs|
  {
    if attrs != [] {
      KeepTwice(attrs[1..], removed, name);
      var rest := Keep(attrs[1..], removed);
      if attrs[0].name !in removed {
        assert ([attrs[0]] + rest)[0] == attrs[0] && ([attrs[0]] + rest)[1..] == rest;
      }
    }
  }

  /** Removing, from a list, the names of its own directive attributes
      leaves exactly its plain attributes. */
  lemma {:induction false} KeepPlain(attrs: seq<Attr>, removed: set<string>)
    requires forall a :: a in attrs ==> (a.name in removed <==> IsDirective(a.name))
    ensures Keep(attrs, removed) == Plain(attrs)
    decreases |attrs|
  {
    if attrs != [] {
      assert attrs[0] in attrs;
      KeepPlain(attrs[1..], removed);
    }
  }

  /** An element: its attribute list in document order, with unique names. */
  class Element {
    var attributes: seq<Attr>

    constructor (attributes: seq<Attr>)
      ensures this.attributes == attributes
    {
      this.attributes := attributes;
    }

    /** `element.removeAttribute(name)`. */
    method RemoveAttribute(name: string)
      modifies this
      ensures attributes == Keep(old(attributes), {name})
    {
      attributes := Keep(attributes, {name});
    }

    /** The inner loop of `reactiveNodes` for one element: walks a snapshot
        of the attribute list, so that removals do not skip entries, turns
        each directive into its binding and removes it. */
    method Bind() returns (bindings: seq<Binding>)
      modifies this
      ensures bindings == Bindings(old(attributes))
      ensures attributes == Plain(old(attributes))
    {
      var snapshot := attributes;
      ghost var removed: set<string> := {};
      KeepNone(snapshot);
      bindings := [];
      for i := 0 to |snapshot|
        invariant attributes == Keep(snapshot, removed)
        invariant removed == DirectiveNames(snapshot, i)
        invariant bindings == Bindings(snapshot[..i])
      {
        var attr := snapshot[i];
        BindStep(snapshot, i);
        if |attr.name| > 0 && attr.name[0] == '.' {
          bindings := bindings + [PropertyBinding(ToCamelCase(attr.name[1..]), attr.value)];
          KeepTwice(snapshot, removed, attr.name);
          RemoveAttribute(attr.name);
          removed := removed + {attr.name};
        } else if |attr.name| > 0 && attr.name[0] == ':' {
          bindings := bindings + [AttributeBinding(attr.name[1..], attr.value)];
          KeepTwice(snapshot, removed, attr.name);
          RemoveAttribute(attr.name);
          removed := removed + {attr.name};
        } else if |attr.name| > 0 && attr.name[0] == '@' {
          bindings := bindings + [EventListener(attr.name[1..], attr.value)];
          KeepTwice(snapshot, removed, attr.name);
          RemoveAttribute(attr.name);
          removed := removed + {attr.name};
        }
      }
      assert snapshot[..|snapshot|] == snapshot;
      DirectiveNamesAll(snapshot);
      KeepPlain(snapshot, removed);
    }
  }

  /** The names of the directive attributes among the first `i`. */
  ghost function DirectiveNames(attrs: seq<Attr>, i: nat): set<string>
    requires i <= |attrs|
  {
    set j | 0 <= j < i && IsDirective(attrs[j].name) :: attrs[j].name
  }

  /** What one step of the attribute loop adds. */
  lemma BindStep(attrs: seq<Attr>, i: nat)
    requires i < |attrs|
    ensures Bindings(attrs[..i + 1])
      == Bindings(attrs[..i]) + (if Classify(attrs[i]).Some? then [Classify(attrs[i]).value] else [])
    ensures DirectiveNames(attrs, i + 1)
      == DirectiveNames(attrs, i) + (if IsDirective(attrs[i].name) then {attrs[i].name} else {})
  {
    assert attrs[..i + 1][..i] == attrs[..i];
  }

  lemma DirectiveNamesAll(attrs: seq<Attr>)
    ensures forall a :: a in attrs ==> (a.name in DirectiveNames(attrs, |attrs|) <==> IsDirective(a.name))
  {
    forall a | a in attrs ensures a.name in DirectiveNames(attrs, |attrs|) <==> IsDirective(a.name) {
      var j :| 0 <= j < |attrs| && attrs[j] == a;
    }
  }

  // ---------------------------------------------------------------------------
  // reactiveNodes

  /** A child node: an element, or any other kind of node (text, comment). */
  datatype ChildNode = ElementNode(element: Element) | OtherNode

  /** A binding of the `node`-th node of the list. */
  datatype Bound = Bound(node: nat, binding: Binding)

  function Elements(nodes: seq<ChildNode>): set<Element> {
    set i | 0 <= i < |nodes| && nodes[i].ElementNode? :: nodes[i].element
  }

  /** Distinct element nodes are distinct objects, as in a `NodeList`. */
  predicate Distinct(nodes: seq<ChildNode>) {
    forall i, j :: 0 <= i < j < |nodes| && nodes[i].ElementNode? && nodes[j].ElementNode? ==>
      nodes[i].element != nodes[j].element
  }

  /** The attribute lists of the nodes; a node that is not an element has none. */
  function AttrLists(nodes: seq<ChildNode>): (r: seq<seq<Attr>>)
    reads Elements(nodes)
    ensures |r| == |nodes|
    ensures forall i :: 0 <= i < |nodes| ==> r[i] == if nodes[i].ElementNode? then nodes[i].element.attributes else []
  {
    if nodes == [] then []
    else
      assert Elements(nodes[..|nodes| - 1]) <= Elements(nodes) by {
        forall e | e in Elements(nodes[..|nodes| - 1]) ensures e in Elements(nodes) {
          var i :| 0 <= i < |nodes| - 1 && nodes[..|nodes| - 1][i].ElementNode? && nodes[..|nodes| - 1][i].element == e;
          assert nodes[i].element == e;
        }
      }
      var last := nodes[|nodes| - 1];
      AttrLists(nodes[..|nodes| - 1]) + [if last.ElementNode? then last.element.attributes else []]
  }

  /** The bindings `bs` of the `n`-th node, each tagged with it. */
  function Tag(n: nat, bs: seq<Binding>): seq<Bound>
  {
    seq(|bs|, k requires 0 <= k < |bs| => Bound(n, bs[k]))
  }

  /** The bindings of the node lists in order, each tagged with its node. */
  function Tagged(lists: seq<seq<Attr>>): seq<Bound>
  {
    if lists == [] then []
    else
      var n := |lists| - 1;
      Tagged(lists[..n]) + Tag(n, Bindings(lists[n]))
  }

  /** What one step of the node loop adds. */
  lemma TaggedStep(lists: seq<seq<Attr>>, i: nat)
    requires i < |lists|
    ensures Tagged(lists[..i + 1]) == Tagged(lists[..i]) + Tag(i, Bindings(lists[i]))
  {
    assert lists[..i + 1][..i] == lists[..i];
  }

  /** The effects of the bindings, in order: one per property or attribute
      binding, evaluating its expression; a listener is not an effect. */
  function EffectJobs(bound: seq<Bound>, compile: string -> Expr): seq<Job>
  {
    if bound == [] then []
    else
      var rest := EffectJobs(bound[1..], compile);
      match bound[0].binding
      case EventListener(_, _) => rest
      case PropertyBinding(_, e) => [Job(compile(e), [])] + rest
      case AttributeBinding(_, e) => [Job(compile(e), [])] + rest
  }

  /** The other element nodes of a distinct list are other objects. */
  lemma OthersDiffer(nodes: seq<ChildNode>, i: nat)
    requires Distinct(nodes) && i < |nodes| && nodes[i].ElementNode?
    ensures forall j :: 0 <= j < |nodes| && j != i && nodes[j].ElementNode? ==> nodes[j].element != nodes[i].element
  {
    forall j | 0 <= j < |nodes| && j != i && nodes[j].ElementNode?
      ensures nodes[j].element != nodes[i].element
    {
      if j < i {
        assert nodes[j].element != nodes[i].element;
      }
    }
  }

  /** `reactiveNodes(nodes, ...)`: visits the element nodes of the list, not
      their children, binds their directive attributes and removes them, and
      creates the bindings' effects inside one new effect scope, whose index
      (standing for its stop function) is returned. */
  method ReactiveNodes(rt: Runtime, nodes: seq<ChildNode>, compile: string -> Expr)
    returns (scope: nat, status: Status, bound: seq<Bound>)
    requires Distinct(nodes)
    modifies rt, Elements(nodes)
    ensures bound == Tagged(old(AttrLists(nodes)))
    ensures forall i :: 0 <= i < |nodes| && nodes[i].ElementNode? ==>
      nodes[i].element.attributes == Plain(old(nodes[i].element.attributes))
    ensures scope == |old(rt.scopes)|
    ensures (rt.Snapshot(), status) == NewScope(old(rt.Snapshot()), Some(Callback(EffectJobs(bound, compile), false)))
  {
    ghost var lists := AttrLists(nodes);
    bound := [];
    for i := 0 to |nodes|
      invariant forall j :: 0 <= j < |nodes| && nodes[j].ElementNode? ==>
        nodes[j].element.attributes == if j < i then Plain(lists[j]) else lists[j]
      invariant bound == Tagged(lists[..i])
      invariant rt.Snapshot() == old(rt.Snapshot())
    {
      TaggedStep(lists, i);
      if nodes[i].ElementNode? {
        var element := nodes[i].element;
        assert element in Elements(nodes);
        OthersDiffer(nodes, i);
        var bs := element.Bind();
        bound := bound + Tag(i, bs);
      } else {
        assert Bindings(lists[i]) == [];
      }
    }
    assert lists[..|nodes|] == lists;
    scope, status := rt.EffectScope(Some(Callback(EffectJobs(bound, compile), false)));
  }
}
