/** The part of Python's syntax tree that the analyzers look at. A parsed
    file is one `Node` (the `Module`, as an `Other` node); a file that does
    not parse has no tree. */
module PyAst {
  import opened Common

  /** `import a.b as c` / `from m import x as y`: one imported name. */
  datatype Alias = Alias(name: string, asname: Option<string>)

  /** A regular positional parameter (`args.args[i]`) with its annotation. */
  datatype Param = Param(name: string, annotation: Option<Node>)

  /** The statements that `_max_nesting_depth` counts as one level deeper. */
  datatype NestKind = For | While | If | With

  datatype Node =
    | Import(line: int, names: seq<Alias>)
    | ImportFrom(line: int, moduleName: Option<string>, names: seq<Alias>)
    | Name(id: string)
    | Attribute(value: Node, attr: string)
    | Constant(isStr: bool)
    | Expr(value: Node)
    | Pass
      /** `otherArgs`: defaults and the annotations of positional-only,
          keyword-only and star parameters. */
    | FunctionDef(line: int, name: string, params: seq<Param>, otherArgs: seq<Node>,
                  body: seq<Node>, decorators: seq<Node>, returnAnnotation: Option<Node>)
    | ClassDef(line: int, name: string, bases: seq<Node>, body: seq<Node>, decorators: seq<Node>)
    | ExceptHandler(line: int, exType: Option<Node>, body: seq<Node>)
    | Nest(kind: NestKind, children: seq<Node>)
      /** Any other node (Module, Call, Assign, Try, AsyncFunctionDef, ...). */
    | Other(children: seq<Node>)

  function OptionNodes(o: Option<Node>, ghost parent: Node): (r: seq<Node>)
    requires o.Some? ==> o.value < parent
    ensures forall c :: c in r ==> c < parent
  {
    match o
    case None => []
    case Some(v) => [v]
  }

  function Annotations(ps: seq<Param>, ghost parent: Node): (r: seq<Node>)
    requires forall p :: p in ps ==> p < parent
    ensures forall c :: c in r ==> c < parent
    decreases |ps|
  {
    if ps == [] then []
    else
      assert ps[0] in ps;
      assert forall p :: p in ps[1..] ==> p in ps;
      OptionNodes(ps[0].annotation, parent) + Annotations(ps[1..], parent)
  }

  /** `ast.iter_child_nodes`: the direct children, in field order. */
  function Children(n: Node): (r: seq<Node>)
    ensures forall c :: c in r ==> c < n
    ensures forall j :: 0 <= j < |r| ==> r[j] < n
  {
    var r := match n
      case Import(_, _) => []
      case ImportFrom(_, _, _) => []
      case Name(_) => []
      case Attribute(v, _) => [v]
      case Constant(_) => []
      case Expr(v) => [v]
      case Pass => []
      case FunctionDef(_, _, ps, other, body, decos, ret) =>
        Annotations(ps, n) + other + body + decos + OptionNodes(ret, n)
      case ClassDef(_, _, bases, body, decos) => bases + body + decos
      case ExceptHandler(_, t, body) => OptionNodes(t, n) + body
      case Nest(_, cs) => cs
      case Other(cs) => cs;
    assert forall j :: 0 <= j < |r| ==> r[j] in r;
    r
  }

  /** Number of nodes in the tree rooted at `n`. */
  function Size(n: Node): (r: nat)
    ensures r >= 1
    decreases n, 1
  {
    1 + ChildrenSize(Children(n), n)
  }

  function ChildrenSize(cs: seq<Node>, ghost parent: Node): nat
    requires forall c :: c in cs ==> c < parent
    decreases parent, 0, |cs|
  {
    if cs == [] then 0
    else
      assert cs[0] in cs;
      assert forall c :: c in cs[1..] ==> c in cs;
      Size(cs[0]) + ChildrenSize(cs[1..], parent)
  }

  /** Total number of nodes in all trees of a work queue. */
  function QueueSize(q: seq<Node>): nat
    decreases |q|
  {
    if q == [] then 0 else Size(q[0]) + QueueSize(q[1..])
  }

  lemma {:induction false} ChildrenSizeIsQueueSize(cs: seq<Node>, parent: Node)
    requires forall c :: c in cs ==> c < parent
    ensures ChildrenSize(cs, parent) == QueueSize(cs)
    decreases |cs|
  {
    if cs != [] {
      assert forall c :: c in cs[1..] ==> c in cs;
      ChildrenSizeIsQueueSize(cs[1..], parent);
    }
  }

  lemma {:induction false} QueueSizeAppend(a: seq<Node>, b: seq<Node>)
    ensures QueueSize(a + b) == QueueSize(a) + QueueSize(b)
    decreases |a|
  {
    if a == [] {
      assert a + b == b;
    } else {
      assert (a + b)[0] == a[0] && (a + b)[1..] == a[1..] + b;
      QueueSizeAppend(a[1..], b);
    }
  }

  /** The work queue of `ast.walk` after visiting its first node is smaller. */
  lemma StepShrinks(q: seq<Node>)
    requires q != []
    ensures QueueSize(q[1..] + Children(q[0])) < QueueSize(q)
  {
    QueueSizeAppend(q[1..], Children(q[0]));
    ChildrenSizeIsQueueSize(Children(q[0]), q[0]);
  }

  /** `ast.walk` from a queue: pop the front node, yield it, enqueue its
      children (breadth first). */
  function WalkQueue(q: seq<Node>): seq<Node>
    decreases QueueSize(q)
  {
    if q == [] then []
    else
      StepShrinks(q);
      [q[0]] + WalkQueue(q[1..] + Children(q[0]))
  }

  /** `ast.walk(tree)`: every node of the tree, breadth first. */
  function Walk(tree: Node): seq<Node> {
    WalkQueue([tree])
  }

  /** Every node put on the queue is eventually visited. */
  lemma {:induction false} QueueVisited(q: seq<Node>, n: Node)
    requires n in q
    ensures n in WalkQueue(q)
    decreases QueueSize(q)
  {
    if n != q[0] {
      StepShrinks(q);
      assert n in q[1..] + Children(q[0]);
      QueueVisited(q[1..] + Children(q[0]), n);
    }
  }

  /** The walk is closed under taking children: the children of a visited
      node are visited too. */
  lemma {:induction false} WalkClosed(q: seq<Node>, n: Node, c: Node)
    requires n in WalkQueue(q) && c in Children(n)
    ensures c in WalkQueue(q)
    decreases QueueSize(q)
  {
    StepShrinks(q);
    var next := q[1..] + Children(q[0]);
    assert WalkQueue(q) == [q[0]] + WalkQueue(next);
    if n == q[0] {
      assert c in next;
      QueueVisited(next, c);
    } else {
      WalkClosed(next, n, c);
    }
  }

  /** One `*.py` file found by `rglob`: its path as `str(path)`, its text,
      and the tree `ast.parse` gives, or `None` when it raises. */
  datatype SourceFile = SourceFile(path: string, content: string, tree: Option<Node>)

  /** The non-empty `/`-separated components of a path (`Path.parts`). */
  function PathParts(path: string): (r: seq<string>)
    ensures forall p :: p in r <==> p != [] && p in Split(path, '/')
    ensures forall p :: p in r ==> '/' !in p
  {
    NonEmpty(Split(path, '/'))
  }

  /** The pieces that are not empty, in order. */
  function NonEmpty(ss: seq<string>): (r: seq<string>)
    ensures forall p :: p in r <==> p != [] && p in ss
    decreases |ss|
  {
    if ss == [] then []
    else (if ss[0] == [] then [] else [ss[0]]) + NonEmpty(ss[1..])
  }

  /** A three-component path has exactly its three components as parts. */
  lemma PathPartsExample(a: string, b: string, c: string)
    requires a != [] && b != [] && c != []
    requires '/' !in a && '/' !in b && '/' !in c
    ensures PathParts(a + "/" + b + "/" + c) == [a, b, c]
  {
    SplitNoSep(c, '/');
    SplitAt(b, c, '/');
    SplitAt(a, b + "/" + c, '/');
    assert a + "/" + b + "/" + c == a + ['/'] + (b + ['/'] + c);
    assert b + "/" + c == b + ['/'] + c;
    assert Split(a + "/" + b + "/" + c, '/') == [a, b, c];
    assert [a, b, c][1..] == [b, c] && [b, c][1..] == [c] && [c][1..] == [];
    assert NonEmpty([c]) == [c] + NonEmpty([]);
    assert NonEmpty([b, c]) == [b] + NonEmpty([c]);
    assert NonEmpty([a, b, c]) == [a] + NonEmpty([b, c]);
  }

  /** `any(p in path.parts for p in patterns)`. */
  predicate HasPartIn(path: string, patterns: seq<string>) {
    exists p :: p in patterns && p in PathParts(path)
  }

  /** A three-component path matches no pattern that equals none of its
      components. */
  lemma PartsNotIn(a: string, b: string, c: string, patterns: seq<string>)
    requires a != [] && b != [] && c != []
    requires '/' !in a && '/' !in b && '/' !in c
    requires a !in patterns && b !in patterns && c !in patterns
    ensures !HasPartIn(a + "/" + b + "/" + c, patterns)
  {
    PathPartsExample(a, b, c);
  }

  /** The directory names the scanners skip wherever they occur in a path. */
  const SkipParts: seq<string> := ["__pycache__", ".git", ".venv", "venv", "node_modules"]
}
