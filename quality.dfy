/** The quality scanner: project files, docstrings and type hints, and the
    code smells it roasts (god files, leftover assistant chatter, long
    names, deep nesting, `except: pass`). */
module Quality {
  import opened Common
  import opened PyAst

  /** The five smell types. */
  datatype SmellType = LongName | ArrowPattern | ExceptPass | GodFile | LlmArtifact

  /** The `smell_type` string of each. */
  function SmellTypeName(t: SmellType): string {
    match t
    case LongName => "long_name"
    case ArrowPattern => "arrow_pattern"
    case ExceptPass => "except_pass"
    case GodFile => "god_file"
    case LlmArtifact => "llm_artifact"
  }

  /** The roast attached to each smell type (`ROASTS`). */
  function Roast(t: SmellType): string {
    match t
    case LongName =>
      "If you keep using sentences like this to code, you'd better start coding tea parties."
    case ArrowPattern =>
      "Are we building software or a staircase to hell? Flatten this out."
    case ExceptPass =>
      "Catching all exceptions and doing nothing? Just close your eyes while driving on the highway, it's the same thing."
    case GodFile =>
      "This file is longer than a CVS receipt. Break it up before it gains sentience."
    case LlmArtifact =>
      "You left the AI's polite small talk in your codebase. Clean up your room."
  }

  /** A reported smell; its roast is always the one of its type. */
  datatype CodeSmell = CodeSmell(file: string, line: int, smellType: SmellType, context: string)
  {
    function roast(): string {
      Roast(smellType)
    }
  }

  function Smell(file: string, line: int, t: SmellType, context: string): CodeSmell {
    CodeSmell(file, line, t, context)
  }

  // ----- The score -----

  /** `int(num / den * weight)` for non-negative counters: the floor of the
      exact ratio. */
  function RatioPoints(num: nat, den: nat, weight: nat): (r: nat)
    requires den > 0
    ensures r * den <= num * weight < (r + 1) * den
    ensures num <= den ==> r <= weight
  {
    RatioBounds(num, den, weight);
    num * weight / den
  }

  lemma RatioBounds(num: nat, den: nat, weight: nat)
    requires den > 0
    ensures num <= den ==> num * weight / den <= weight
  {
    if num <= den {
      assert num * weight <= den * weight by {
        MulMono(num, den, weight);
      }
      DivAtMost(num * weight, den, weight);
    }
  }

  lemma MulMono(a: nat, b: nat, w: nat)
    requires a <= b
    ensures a * w <= b * w
  {
  }

  lemma DivAtMost(x: nat, d: nat, w: nat)
    requires d > 0 && x <= d * w
    ensures x / d <= w
  {
  }

  /** The counters a scan accumulates and the smells it collects. */
  datatype Tally = Tally(totalFunctions: nat, documentedFunctions: nat, typedFunctions: nat,
                         totalClasses: nat, documentedClasses: nat, smells: seq<CodeSmell>)

  const EmptyTally := Tally(0, 0, 0, 0, 0, [])

  /** Every counted documented or typed definition was also counted as a
      definition. */
  ghost predicate Bounded(t: Tally) {
    t.documentedFunctions <= t.totalFunctions && t.typedFunctions <= t.totalFunctions
    && t.documentedClasses <= t.totalClasses
  }

  /** The points of the four project-file flags. */
  function StructurePoints(readme: bool, license: bool, tests: bool, pyproject: bool): (r: nat)
    ensures r <= 40
  {
    (if readme then 15 else 0) + (if license then 10 else 0) + (if tests then 10 else 0)
    + (if pyproject then 5 else 0)
  }

  /** The uncapped sum the score is `min(100, ...)` of. */
  function RawScore(readme: bool, license: bool, tests: bool, pyproject: bool, t: Tally): nat {
    StructurePoints(readme, license, tests, pyproject)
    + (if t.totalFunctions > 0 then RatioPoints(t.documentedFunctions, t.totalFunctions, 20) else 0)
    + (if t.totalClasses > 0 then RatioPoints(t.documentedClasses, t.totalClasses, 10) else 0)
    + (if t.totalFunctions > 0 then RatioPoints(t.typedFunctions, t.totalFunctions, 30) else 0)
  }

  /** `calculate_score`'s result. */
  function QualityScore(readme: bool, license: bool, tests: bool, pyproject: bool, t: Tally): (r: nat)
    ensures r <= 100
    ensures r == RawScore(readme, license, tests, pyproject, t) || r == 100
    ensures RawScore(readme, license, tests, pyproject, t) <= 100 ==> r == RawScore(readme, license, tests, pyproject, t)
    ensures r <= RawScore(readme, license, tests, pyproject, t)
  {
    var raw := RawScore(readme, license, tests, pyproject, t);
    if raw < 100 then raw else 100
  }

  /** Under the counter bounds the sum never exceeds 100, so the cap never
      changes the score. */
  lemma CapInactive(readme: bool, license: bool, tests: bool, pyproject: bool, t: Tally)
    requires Bounded(t)
    ensures RawScore(readme, license, tests, pyproject, t) <= 100
    ensures QualityScore(readme, license, tests, pyproject, t) == RawScore(readme, license, tests, pyproject, t)
  {
  }

  /** No project files and no definitions score 0; everything present and
      every definition documented and typed scores 100. */
  lemma ScoreExtremes(t: Tally)
    ensures QualityScore(false, false, false, false, EmptyTally) == 0
    ensures t.totalFunctions > 0 && t.totalClasses > 0
            && t.documentedFunctions == t.typedFunctions == t.totalFunctions
            && t.documentedClasses == t.totalClasses
            ==> QualityScore(true, true, true, true, t) == 100
  {
    if t.totalFunctions > 0 && t.totalClasses > 0 {
      assert RatioPoints(t.totalFunctions, t.totalFunctions, 20) == 20;
      assert RatioPoints(t.totalFunctions, t.totalFunctions, 30) == 30;
      assert RatioPoints(t.totalClasses, t.totalClasses, 10) == 10;
    }
  }

  // ----- Nesting depth -----

  predicate IsNest(n: Node) {
    n.Nest?
  }

  /** `_max_nesting_depth(node, current)`. */
  function NestingDepth(n: Node, current: int): (r: int)
    ensures r >= current
    decreases n, 1
  {
    ChildrenDepth(Children(n), current, n)
  }

  function ChildDepth(c: Node, current: int): (r: int)
    ensures r >= current
    decreases c, 2
  {
    if IsNest(c) then NestingDepth(c, current + 1) else NestingDepth(c, current)
  }

  /** `max_depth` after the loop has visited the children `cs`. */
  function ChildrenDepth(cs: seq<Node>, current: int, ghost parent: Node): (r: int)
    requires forall j :: 0 <= j < |cs| ==> cs[j] < parent
    ensures r >= current
    decreases parent, 0, |cs|
  {
    if cs == [] then current
    else
      var last := cs[|cs| - 1];
      var prev := ChildrenDepth(cs[..|cs| - 1], current, parent);
      var d := ChildDepth(last, current);
      if prev < d then d else prev
  }

  /** One more child of `node` folds its depth into the maximum. */
  lemma ChildrenDepthStep(node: Node, current: int, i: nat)
    requires i < |Children(node)|
    ensures var cs := Children(node);
            ChildrenDepth(cs[..i + 1], current, node)
            == var prev := ChildrenDepth(cs[..i], current, node);
               var d := ChildDepth(cs[i], current);
               if prev < d then d else prev
  {
    var cs := Children(node);
    assert cs[..i + 1][..i] == cs[..i];
  }

  /** `_max_nesting_depth`, as it runs: a loop over the children with a
      recursive call per child. */
  method MaxNestingDepth(node: Node, current: int) returns (maxDepth: int)
    ensures maxDepth == NestingDepth(node, current)
    decreases node
  {
    maxDepth := current;
    var cs := Children(node);
    var i := 0;
    while i < |cs|
      invariant 0 <= i <= |cs|
      invariant maxDepth == ChildrenDepth(cs[..i], current, node)
    {
      var child := cs[i];
      assert child in cs;
      var childDepth;
      if child.Nest? {
        childDepth := MaxNestingDepth(child, current + 1);
      } else {
        childDepth := MaxNestingDepth(child, current);
      }
      assert childDepth == ChildDepth(child, current);
      ChildrenDepthStep(node, current, i);
      maxDepth := if maxDepth < childDepth then childDepth else maxDepth;
      i := i + 1;
    }
    assert cs[..|cs|] == cs;
  }

  /** The reference: the largest number of For/While/If/With nodes on a
      path from a child of `n` down. */
  function NestHeight(n: Node): nat
    decreases n, 1
  {
    ChildrenHeight(Children(n), n)
  }

  function ChildrenHeight(cs: seq<Node>, ghost parent: Node): nat
    requires forall j :: 0 <= j < |cs| ==> cs[j] < parent
    decreases parent, 0, |cs|
  {
    if cs == [] then 0
    else
      var last := cs[|cs| - 1];
      var prev := ChildrenHeight(cs[..|cs| - 1], parent);
      var h := (if IsNest(last) then 1 else 0) + NestHeight(last);
      if prev < h then h else prev
  }

  /** `current` only shifts the result: the depth is `current` plus the
      height of nested blocks below the node. */
  lemma {:induction false} DepthIsOffsetHeight(n: Node, current: int)
    ensures NestingDepth(n, current) == current + NestHeight(n)
    decreases n, 1
  {
    ChildrenDepthIsOffsetHeight(Children(n), current, n);
  }

  lemma {:induction false} ChildrenDepthIsOffsetHeight(cs: seq<Node>, current: int, parent: Node)
    requires forall j :: 0 <= j < |cs| ==> cs[j] < parent
    ensures ChildrenDepth(cs, current, parent) == current + ChildrenHeight(cs, parent)
    decreases parent, 0, |cs|
  {
    if cs != [] {
      var last := cs[|cs| - 1];
      ChildrenDepthIsOffsetHeight(cs[..|cs| - 1], current, parent);
      if IsNest(last) {
        DepthIsOffsetHeight(last, current + 1);
      } else {
        DepthIsOffsetHeight(last, current);
      }
    }
  }

  /** `k` nested `if` blocks around a `pass`. */
  function NestedIfs(k: nat): seq<Node>
    decreases k
  {
    if k == 0 then [Pass] else [Nest(If, NestedIfs(k - 1))]
  }

  lemma {:induction false} NestedIfsHeight(k: nat, parent: Node)
    requires forall j :: 0 <= j < |NestedIfs(k)| ==> NestedIfs(k)[j] < parent
    ensures ChildrenHeight(NestedIfs(k), parent) == k
    decreases k
  {
    if k == 0 {
      assert NestedIfs(0) == [Pass];
      assert ChildrenHeight([Pass], parent) == NestHeight(Pass);
    } else {
      var n := Nest(If, NestedIfs(k - 1));
      assert NestedIfs(k) == [n];
      assert ChildrenHeight([n], parent) == 1 + NestHeight(n);
      NestedIfsHeight(k - 1, n);
    }
  }

  /** A function whose body is `k` nested `if`s. */
  function IfsFunction(k: nat): Node {
    FunctionDef(1, "f", [], [], NestedIfs(k), [], None)
  }

  /** Four nested `if`s give depth 4 and three give 3. */
  lemma NestedIfsDepth(k: nat)
    ensures NestingDepth(IfsFunction(k), 0) == k
  {
    var f := IfsFunction(k);
    assert Children(f) == NestedIfs(k);
    NestedIfsHeight(k, f);
    DepthIsOffsetHeight(f, 0);
  }

  // ----- Smells of one file -----

  const LlmPatterns: seq<string> :=
    ["Sure, here is", "Here's the code", "I'll help you", "Let me explain", "As an AI", "I cannot"]

  /** The line also holds a docstring quote or a comment sign. */
  predicate HasMarker(line: string) {
    Contains(line, "\"\"\"") || Contains(line, "'''") || Contains(line, "#")
  }

  predicate LlmHit(line: string, pattern: string) {
    Contains(line, pattern) && HasMarker(line)
  }

  /** Some pattern hits the line. */
  predicate IsLlmLine(line: string) {
    exists p :: p in LlmPatterns && LlmHit(line, p)
  }

  function LlmSmell(path: string, lineNo: int, line: string): CodeSmell {
    Smell(path, lineNo, LlmArtifact, Take(Strip(line), 50))
  }

  /** The `llm_artifact` smells of the first lines of a file (numbered from 1). */
  function LlmSmells(path: string, lines: seq<string>): (r: seq<CodeSmell>)
    ensures |r| <= |lines|
    decreases |lines|
  {
    if lines == [] then []
    else
      var n := |lines|;
      LlmSmells(path, lines[..n - 1]) + LineSmells(path, n, lines[n - 1])
  }

  /** The smell of line number `lineNo`, if it is an assistant artifact. */
  function LineSmells(path: string, lineNo: int, line: string): (r: seq<CodeSmell>)
    ensures |r| <= 1
  {
    if IsLlmLine(line) then [LlmSmell(path, lineNo, line)] else []
  }

  /** The number of smells reported at a line. */
  function CountAtLine(smells: seq<CodeSmell>, lineNo: int): nat
    decreases |smells|
  {
    if smells == [] then 0
    else CountAtLine(smells[..|smells| - 1], lineNo) + (if smells[|smells| - 1].line == lineNo then 1 else 0)
  }

  lemma {:induction false} CountAtLineAppend(a: seq<CodeSmell>, b: seq<CodeSmell>, lineNo: int)
    ensures CountAtLine(a + b, lineNo) == CountAtLine(a, lineNo) + CountAtLine(b, lineNo)
    decreases |b|
  {
    if b == [] {
      assert a + b == a;
    } else {
      assert (a + b)[..|a + b| - 1] == a + b[..|b| - 1];
      assert (a + b)[|a + b| - 1] == b[|b| - 1];
      CountAtLineAppend(a, b[..|b| - 1], lineNo);
    }
  }

  lemma LineSmellsFacts(path: string, lineNo: int, line: string, i: int)
    ensures forall x :: x in LineSmells(path, lineNo, line) ==> x.line == lineNo
    ensures CountAtLine(LineSmells(path, lineNo, line), i) == if IsLlmLine(line) && i == lineNo then 1 else 0
  {
    var r := LineSmells(path, lineNo, line);
    if r != [] {
      assert r[..0] == [];
    }
  }

  lemma {:induction false} LlmSmellLines(path: string, lines: seq<string>)
    ensures forall x :: x in LlmSmells(path, lines) ==> 1 <= x.line <= |lines|
    decreases |lines|
  {
    if lines != [] {
      var n := |lines|;
      LlmSmellLines(path, lines[..n - 1]);
      LineSmellsFacts(path, n, lines[n - 1], 0);
    }
  }

  lemma {:induction false} CountAboveRange(smells: seq<CodeSmell>, lineNo: int)
    requires forall x :: x in smells ==> x.line < lineNo
    ensures CountAtLine(smells, lineNo) == 0
    decreases |smells|
  {
    if smells != [] {
      assert smells[|smells| - 1] in smells;
      CountAboveRange(smells[..|smells| - 1], lineNo);
    }
  }

  /** Line `i` gets one `llm_artifact` smell exactly when some pattern and a
      quote or comment sign occur in it, and never more than one. */
  lemma {:induction false} LlmAtMostOncePerLine(path: string, lines: seq<string>, i: int)
    requires 1 <= i <= |lines|
    ensures CountAtLine(LlmSmells(path, lines), i) == if IsLlmLine(lines[i - 1]) then 1 else 0
    decreases |lines|
  {
    var n := |lines|;
    var init := lines[..n - 1];
    CountAtLineAppend(LlmSmells(path, init), LineSmells(path, n, lines[n - 1]), i);
    LineSmellsFacts(path, n, lines[n - 1], i);
    if i < n {
      LlmAtMostOncePerLine(path, init, i);
      assert init[i - 1] == lines[i - 1];
    } else {
      LlmSmellLines(path, init);
      CountAboveRange(LlmSmells(path, init), i);
    }
  }

  function GodFileSmells(path: string, lines: seq<string>): seq<CodeSmell> {
    if |lines| > 1000 then [Smell(path, 1, GodFile, IntToString(|lines|) + " lines")] else []
  }

  /** A docstring: the first statement is an expression of a string constant. */
  predicate IsDocumented(body: seq<Node>) {
    |body| > 0 && body[0].Expr? && body[0].value.Constant? && body[0].value.isStr
  }

  /** A return annotation or an annotation on some positional parameter. */
  predicate IsTyped(n: Node)
    requires n.FunctionDef?
  {
    n.returnAnnotation.Some? || exists p :: p in n.params && p.annotation.Some?
  }

  predicate IsFunction(n: Node) { n.FunctionDef? }
  predicate IsDocumentedFunction(n: Node) { n.FunctionDef? && IsDocumented(n.body) }
  predicate IsTypedFunction(n: Node) { n.FunctionDef? && IsTyped(n) }
  predicate IsClass(n: Node) { n.ClassDef? }
  predicate IsDocumentedClass(n: Node) { n.ClassDef? && IsDocumented(n.body) }

  /** A handler whose body is exactly one `pass`. */
  predicate IsExceptPass(n: Node) {
    n.ExceptHandler? && |n.body| == 1 && n.body[0].Pass?
  }

  /** The smells of a function definition with nesting depth `depth`: a long
      name first, then the arrow. */
  function FunctionSmells(path: string, line: int, name: string, depth: int): seq<CodeSmell> {
    (if |name| > 35 then [Smell(path, line, LongName, name)] else [])
    + (if depth > 3 then [Smell(path, line, ArrowPattern, "Nesting depth: " + IntToString(depth))] else [])
  }

  /** The smells a walked node adds, in the order the source checks them. */
  function NodeSmells(path: string, n: Node): seq<CodeSmell> {
    match n
    case FunctionDef(line, name, _, _, _, _, _) => FunctionSmells(path, line, name, NestingDepth(n, 0))
    case ClassDef(line, name, _, _, _) =>
      if |name| > 35 then [Smell(path, line, LongName, name)] else []
    case ExceptHandler(line, _, body) =>
      if IsExceptPass(n) then [Smell(path, line, ExceptPass, "except: pass")] else []
    case _ => []
  }

  /** The number of smells of a type. */
  function CountType(smells: seq<CodeSmell>, t: SmellType): nat
    decreases |smells|
  {
    if smells == [] then 0
    else CountType(smells[..|smells| - 1], t) + (if smells[|smells| - 1].smellType == t then 1 else 0)
  }

  lemma {:induction false} CountTypeAppend(a: seq<CodeSmell>, b: seq<CodeSmell>, t: SmellType)
    ensures CountType(a + b, t) == CountType(a, t) + CountType(b, t)
    decreases |b|
  {
    if b == [] {
      assert a + b == a;
    } else {
      assert (a + b)[..|a + b| - 1] == a + b[..|b| - 1];
      assert (a + b)[|a + b| - 1] == b[|b| - 1];
      CountTypeAppend(a, b[..|b| - 1], t);
    }
  }

  lemma CountTypeSingle(x: CodeSmell, t: SmellType)
    ensures CountType([x], t) == if x.smellType == t then 1 else 0
  {
    assert [x][..0] == [];
  }

  /** The count of each type among a function definition's smells. */
  lemma FunctionSmellCounts(path: string, line: int, name: string, depth: int, t: SmellType)
    ensures CountType(FunctionSmells(path, line, name, depth), t)
            == Indicator(t == LongName && |name| > 35) + Indicator(t == ArrowPattern && depth > 3)
  {
    var a := if |name| > 35 then [Smell(path, line, LongName, name)] else [];
    var b := if depth > 3 then [Smell(path, line, ArrowPattern, "Nesting depth: " + IntToString(depth))] else [];
    CountTypeAppend(a, b, t);
    if a != [] {
      CountTypeSingle(a[0], t);
    }
    if b != [] {
      CountTypeSingle(b[0], t);
    }
  }

  /** A function gets one `arrow_pattern` smell exactly when its nesting
      depth exceeds 3; one `long_name` smell exactly when a function or class
      name is longer than 35; one `except_pass` smell exactly for a handler
      whose body is a single `pass`; nothing else is reported per node. */
  lemma NodeSmellCounts(path: string, n: Node)
    ensures CountType(NodeSmells(path, n), ArrowPattern) == Indicator(n.FunctionDef? && NestingDepth(n, 0) > 3)
    ensures CountType(NodeSmells(path, n), LongName) == Indicator((n.FunctionDef? || n.ClassDef?) && |n.name| > 35)
    ensures CountType(NodeSmells(path, n), ExceptPass) == Indicator(IsExceptPass(n))
    ensures CountType(NodeSmells(path, n), GodFile) == 0
    ensures CountType(NodeSmells(path, n), LlmArtifact) == 0
  {
    NodeSmellCount(path, n, ArrowPattern);
    NodeSmellCount(path, n, LongName);
    NodeSmellCount(path, n, ExceptPass);
    NodeSmellCount(path, n, GodFile);
    NodeSmellCount(path, n, LlmArtifact);
  }

  /** The count of one smell type among a node's smells. */
  lemma NodeSmellCount(path: string, n: Node, t: SmellType)
    ensures CountType(NodeSmells(path, n), t)
            == Indicator(t == ArrowPattern && n.FunctionDef? && NestingDepth(n, 0) > 3)
               + Indicator(t == LongName && (n.FunctionDef? || n.ClassDef?) && |n.name| > 35)
               + Indicator(t == ExceptPass && IsExceptPass(n))
  {
    if n.FunctionDef? {
      FunctionSmellCounts(path, n.line, n.name, NestingDepth(n, 0), t);
    } else if n.ClassDef? {
      if |n.name| > 35 {
        CountTypeSingle(Smell(path, n.line, LongName, n.name), t);
      }
    } else if IsExceptPass(n) {
      CountTypeSingle(Smell(path, n.line, ExceptPass, "except: pass"), t);
    }
  }

  /** Four nested `if`s are an arrow, three are not. */
  lemma ArrowThreshold(path: string)
    ensures CountType(NodeSmells(path, IfsFunction(4)), ArrowPattern) == 1
    ensures CountType(NodeSmells(path, IfsFunction(3)), ArrowPattern) == 0
  {
    NestedIfsDepth(4);
    NestedIfsDepth(3);
    NodeSmellCounts(path, IfsFunction(4));
    NodeSmellCounts(path, IfsFunction(3));
  }

  function Indicator(b: bool): nat {
    if b then 1 else 0
  }

  /** The counters and smells after visiting one walked node. */
  function NodeStep(t: Tally, path: string, n: Node): Tally {
    Tally(t.totalFunctions + Indicator(IsFunction(n)),
          t.documentedFunctions + Indicator(IsDocumentedFunction(n)),
          t.typedFunctions + Indicator(IsTypedFunction(n)),
          t.totalClasses + Indicator(IsClass(n)),
          t.documentedClasses + Indicator(IsDocumentedClass(n)),
          t.smells + NodeSmells(path, n))
  }

  function WalkStep(t: Tally, path: string, nodes: seq<Node>): (r: Tally)
    ensures Bounded(t) ==> Bounded(r)
    decreases |nodes|
  {
    if nodes == [] then t
    else NodeStep(WalkStep(t, path, nodes[..|nodes| - 1]), path, nodes[|nodes| - 1])
  }

  /** The counters and smells after one file; a file that does not parse
      changes nothing. */
  function FileStep(t: Tally, f: SourceFile): (r: Tally)
    ensures Bounded(t) ==> Bounded(r)
  {
    match f.tree
    case None => t
    case Some(tree) =>
      var lines := Split(f.content, '\n');
      var t1 := Tally(t.totalFunctions, t.documentedFunctions, t.typedFunctions, t.totalClasses,
                      t.documentedClasses, t.smells + GodFileSmells(f.path, lines) + LlmSmells(f.path, lines));
      WalkStep(t1, f.path, Walk(tree))
  }

  function FilesStep(t: Tally, files: seq<SourceFile>): (r: Tally)
    ensures Bounded(t) ==> Bounded(r)
    decreases |files|
  {
    if files == [] then t
    else
      var prev := FilesStep(t, files[..|files| - 1]);
      var f := files[|files| - 1];
      if HasPartIn(f.path, SkipParts) then prev else FileStep(prev, f)
  }

  // ----- The report -----

  const ReadmeFiles: seq<string> := ["README.md", "README.rst", "README.txt", "README"]
  const LicenseFiles: seq<string> := ["LICENSE", "LICENSE.md", "LICENSE.txt", "COPYING"]
  const TestEntries: seq<string> := ["tests", "test", "tests.py", "test.py"]

  /** Some of the names is an entry of the project root. */
  predicate AnyPresent(root: map<string, string>, names: seq<string>) {
    exists p :: p in names && p in root
  }

  class QualityReport {
    var hasReadme: bool
    var hasLicense: bool
    var hasTests: bool
    var hasDocstrings: bool
    var hasTypeHints: bool
    var hasPyproject: bool
    var totalFunctions: nat
    var documentedFunctions: nat
    var typedFunctions: nat
    var totalClasses: nat
    var documentedClasses: nat
    var smells: seq<CodeSmell>
    var score: int

    function State(): Tally
      reads this
    {
      Tally(totalFunctions, documentedFunctions, typedFunctions, totalClasses, documentedClasses, smells)
    }

    /** The counter bounds hold, and the two "has" flags record whether a
        documented or typed function was seen. */
    ghost predicate Valid()
      reads this
    {
      Bounded(State())
      && hasDocstrings == (documentedFunctions > 0)
      && hasTypeHints == (typedFunctions > 0)
    }

    constructor ()
      ensures Valid() && State() == EmptyTally && score == 0
      ensures !hasReadme && !hasLicense && !hasTests && !hasPyproject
    {
      hasReadme, hasLicense, hasTests, hasDocstrings, hasTypeHints, hasPyproject :=
        false, false, false, false, false, false;
      totalFunctions, documentedFunctions, typedFunctions := 0, 0, 0;
      totalClasses, documentedClasses := 0, 0;
      smells := [];
      score := 0;
    }

    /** `calculate_score`: accumulate the points, then cap at 100. */
    method CalculateScore()
      modifies this`score
      ensures score == QualityScore(hasReadme, hasLicense, hasTests, hasPyproject, State())
    {
      var s := 0;
      if hasReadme {
        s := s + 15;
      }
      if hasLicense {
        s := s + 10;
      }
      if hasTests {
        s := s + 10;
      }
      if hasPyproject {
        s := s + 5;
      }
      if totalFunctions > 0 {
        s := s + RatioPoints(documentedFunctions, totalFunctions, 20);
      }
      if totalClasses > 0 {
        s := s + RatioPoints(documentedClasses, totalClasses, 10);
      }
      if totalFunctions > 0 {
        s := s + RatioPoints(typedFunctions, totalFunctions, 30);
      }
      score := if 100 < s then 100 else s;
    }
  }

  /** `_check_project_files`. */
  method CheckProjectFiles(report: QualityReport, root: map<string, string>)
    modifies report`hasReadme, report`hasLicense, report`hasTests, report`hasPyproject
    ensures report.hasReadme == AnyPresent(root, ReadmeFiles)
    ensures report.hasLicense == AnyPresent(root, LicenseFiles)
    ensures report.hasTests == AnyPresent(root, TestEntries)
    ensures report.hasPyproject == ("pyproject.toml" in root)
  {
    report.hasReadme := AnyPresent(root, ReadmeFiles);
    report.hasLicense := AnyPresent(root, LicenseFiles);
    report.hasTests := AnyPresent(root, TestEntries);
    report.hasPyproject := "pyproject.toml" in root;
  }

  /** The `llm_patterns` loop over the lines, with its `break`. */
  method ScanLlm(report: QualityReport, path: string, lines: seq<string>)
    modifies report`smells
    ensures report.smells == old(report.smells) + LlmSmells(path, lines)
  {
    var i := 0;
    while i < |lines|
      invariant 0 <= i <= |lines|
      invariant report.smells == old(report.smells) + LlmSmells(path, lines[..i])
    {
      assert lines[..i + 1][..i] == lines[..i];
      ghost var done := LlmSmells(path, lines[..i]);
      assert LlmSmells(path, lines[..i + 1]) == done + LineSmells(path, i + 1, lines[i]);
      CheckLlmLine(report, path, i + 1, lines[i]);
      SeqAssoc(old(report.smells), done, LineSmells(path, i + 1, lines[i]));
      i := i + 1;
    }
    assert lines[..|lines|] == lines;
  }

  /** The inner loop over the patterns for one line: the first hit reports
      the line and stops. */
  method CheckLlmLine(report: QualityReport, path: string, lineNo: int, line: string)
    modifies report`smells
    ensures report.smells == old(report.smells) + LineSmells(path, lineNo, line)
  {
    var j := 0;
    while j < |LlmPatterns|
      invariant 0 <= j <= |LlmPatterns|
      invariant report.smells == old(report.smells)
      invariant forall q :: 0 <= q < j ==> !LlmHit(line, LlmPatterns[q])
    {
      if Contains(line, LlmPatterns[j]) && (Contains(line, "\"\"\"") || Contains(line, "'''") || Contains(line, "#")) {
        assert LlmHit(line, LlmPatterns[j]);
        report.smells := report.smells + [LlmSmell(path, lineNo, line)];
        return;
      }
      j := j + 1;
    }
    assert !IsLlmLine(line) by {
      forall p | p in LlmPatterns
        ensures !LlmHit(line, p)
      {
        var q :| 0 <= q < |LlmPatterns| && LlmPatterns[q] == p;
      }
    }
  }

  /** The `FunctionDef` branch of the `ast.walk` loop. */
  method VisitFunction(report: QualityReport, path: string, node: Node)
    requires node.FunctionDef? && report.Valid()
    modifies report`totalFunctions, report`documentedFunctions, report`typedFunctions,
             report`smells, report`hasDocstrings, report`hasTypeHints
    ensures report.Valid()
    ensures report.State() == NodeStep(old(report.State()), path, node)
  {
    ReportFunctionSmells(report, path, node);
    CountFunction(report, node);
  }

  /** The long-name and arrow checks of a function definition. */
  method ReportFunctionSmells(report: QualityReport, path: string, node: Node)
    requires node.FunctionDef?
    modifies report`smells
    ensures report.smells == old(report.smells) + NodeSmells(path, node)
  {
    if |node.name| > 35 {
      report.smells := report.smells + [Smell(path, node.line, LongName, node.name)];
    }
    var depth := MaxNestingDepth(node, 0);
    if depth > 3 {
      report.smells := report.smells + [Smell(path, node.line, ArrowPattern, "Nesting depth: " + IntToString(depth))];
    }
  }

  /** The counters of a function definition: one more function, and one
      more documented or typed one when it is. */
  method CountFunction(report: QualityReport, node: Node)
    requires node.FunctionDef? && report.Valid()
    modifies report`totalFunctions, report`documentedFunctions, report`typedFunctions,
             report`hasDocstrings, report`hasTypeHints
    ensures report.Valid()
    ensures report.totalFunctions == old(report.totalFunctions) + 1
    ensures report.documentedFunctions == old(report.documentedFunctions) + Indicator(IsDocumented(node.body))
    ensures report.typedFunctions == old(report.typedFunctions) + Indicator(IsTyped(node))
  {
    report.totalFunctions := report.totalFunctions + 1;
    var body := node.body;
    if |body| > 0 && body[0].Expr? && body[0].value.Constant? && body[0].value.isStr {
      report.documentedFunctions := report.documentedFunctions + 1;
      report.hasDocstrings := true;
    }
    if node.returnAnnotation.Some? || exists p :: p in node.params && p.annotation.Some? {
      report.typedFunctions := report.typedFunctions + 1;
      report.hasTypeHints := true;
    }
  }

  /** The `ClassDef` branch of the `ast.walk` loop. */
  method VisitClass(report: QualityReport, path: string, node: Node)
    requires node.ClassDef? && report.Valid()
    modifies report`totalClasses, report`documentedClasses, report`smells
    ensures report.Valid()
    ensures report.State() == NodeStep(old(report.State()), path, node)
  {
    report.totalClasses := report.totalClasses + 1;
    if |node.name| > 35 {
      report.smells := report.smells + [Smell(path, node.line, LongName, node.name)];
    }
    var body := node.body;
    if |body| > 0 && body[0].Expr? && body[0].value.Constant? && body[0].value.isStr {
      report.documentedClasses := report.documentedClasses + 1;
    }
  }

  /** The body of the `ast.walk` loop for one node. */
  method VisitNode(report: QualityReport, path: string, node: Node)
    requires report.Valid()
    modifies report`totalFunctions, report`documentedFunctions, report`typedFunctions,
             report`totalClasses, report`documentedClasses, report`smells,
             report`hasDocstrings, report`hasTypeHints
    ensures report.Valid()
    ensures report.State() == NodeStep(old(report.State()), path, node)
  {
    if node.FunctionDef? {
      VisitFunction(report, path, node);
    } else if node.ClassDef? {
      VisitClass(report, path, node);
    } else if node.ExceptHandler? {
      var body := node.body;
      if |body| > 0 && |body| == 1 {
        if body[0].Pass? {
          report.smells := report.smells + [Smell(path, node.line, ExceptPass, "except: pass")];
        }
      }
    }
  }

  /** `_scan_file`. */
  method ScanFile(report: QualityReport, f: SourceFile)
    requires report.Valid()
    modifies report`totalFunctions, report`documentedFunctions, report`typedFunctions,
             report`totalClasses, report`documentedClasses, report`smells,
             report`hasDocstrings, report`hasTypeHints
    ensures report.Valid()
    ensures report.State() == FileStep(old(report.State()), f)
  {
    if f.tree.None? {
      return;
    }
    var lines := Split(f.content, '\n');
    ReportGodFile(report, f.path, lines);
    ScanLlm(report, f.path, lines);
    WalkFile(report, f.path, Walk(f.tree.value));
  }

  method ReportGodFile(report: QualityReport, path: string, lines: seq<string>)
    modifies report`smells
    ensures report.smells == old(report.smells) + GodFileSmells(path, lines)
  {
    if |lines| > 1000 {
      report.smells := report.smells + [Smell(path, 1, GodFile, IntToString(|lines|) + " lines")];
    }
  }

  /** The `ast.walk` loop. */
  method WalkFile(report: QualityReport, path: string, nodes: seq<Node>)
    requires report.Valid()
    modifies report`totalFunctions, report`documentedFunctions, report`typedFunctions,
             report`totalClasses, report`documentedClasses, report`smells,
             report`hasDocstrings, report`hasTypeHints
    ensures report.Valid()
    ensures report.State() == WalkStep(old(report.State()), path, nodes)
  {
    var i := 0;
    while i < |nodes|
      invariant 0 <= i <= |nodes|
      invariant report.Valid()
      invariant report.State() == WalkStep(old(report.State()), path, nodes[..i])
    {
      assert nodes[..i + 1][..i] == nodes[..i];
      VisitNode(report, path, nodes[i]);
      i := i + 1;
    }
    assert nodes[..|nodes|] == nodes;
  }

  /** `scan`: a fresh report, the project files, every file, the score. */
  method Scan(files: seq<SourceFile>, root: map<string, string>) returns (report: QualityReport)
    ensures fresh(report) && report.Valid()
    ensures report.State() == FilesStep(EmptyTally, files)
    ensures report.hasReadme == AnyPresent(root, ReadmeFiles)
    ensures report.hasLicense == AnyPresent(root, LicenseFiles)
    ensures report.hasTests == AnyPresent(root, TestEntries)
    ensures report.hasPyproject == ("pyproject.toml" in root)
    ensures report.score
            == QualityScore(report.hasReadme, report.hasLicense, report.hasTests, report.hasPyproject, report.State())
  {
    report := new QualityReport();
    CheckProjectFiles(report, root);
    ScanFiles(report, files);
    report.CalculateScore();
  }

  /** The `rglob` loop, skipping paths with a skipped directory. */
  method ScanFiles(report: QualityReport, files: seq<SourceFile>)
    requires report.Valid()
    modifies report`totalFunctions, report`documentedFunctions, report`typedFunctions,
             report`totalClasses, report`documentedClasses, report`smells,
             report`hasDocstrings, report`hasTypeHints
    ensures report.Valid()
    ensures report.State() == FilesStep(old(report.State()), files)
  {
    var i := 0;
    while i < |files|
      invariant 0 <= i <= |files|
      invariant report.Valid()
      invariant report.State() == FilesStep(old(report.State()), files[..i])
    {
      assert files[..i + 1][..i] == files[..i];
      if !HasPartIn(files[i].path, SkipParts) {
        ScanFile(report, files[i]);
      }
      i := i + 1;
    }
    assert files[..|files|] == files;
  }

  /** After any scan the score is the uncapped sum, within [0, 100]. */
  lemma ScanScoreIsRaw(files: seq<SourceFile>, readme: bool, license: bool, tests: bool, pyproject: bool)
    ensures var t := FilesStep(EmptyTally, files);
            QualityScore(readme, license, tests, pyproject, t) == RawScore(readme, license, tests, pyproject, t) <= 100
  {
    CapInactive(readme, license, tests, pyproject, FilesStep(EmptyTally, files));
  }
}
