/** The bloat scanner: imported names that are never used, heavy
    dependencies imported in code or listed in a dependency manifest, and a
    score that starts at 100 and loses points per issue. */
module Bloat {
  import opened Common
  import opened PyAst

  /** One entry of the heavy-dependency registry `HEAVY_DEPS`. */
  datatype HeavyDep = HeavyDep(name: string, size: string, alternative: string, reason: string)

  /** The registry's keys, in its order. */
  const HeavyNames: seq<string> := ["requests", "beautifulsoup4", "pandas", "tensorflow", "django"]

  /** `HEAVY_DEPS.get(name)`. */
  function HeavyInfo(name: string): (r: Option<HeavyDep>)
    ensures r.Some? <==> name in HeavyNames
    ensures r.Some? ==> r.value.name == name
  {
    if name == "requests" then
      Some(HeavyDep("requests", "large", "httpx or urllib3", "requests pulls in many transitive deps"))
    else if name == "beautifulsoup4" then
      Some(HeavyDep("beautifulsoup4", "large", "selectolax or lxml", "bs4 is slow, lighter alternatives exist"))
    else if name == "pandas" then
      Some(HeavyDep("pandas", "huge", "polars or duckdb", "pandas is 50MB+, consider if you need it all"))
    else if name == "tensorflow" then
      Some(HeavyDep("tensorflow", "huge", "pytorch or onnxruntime", "TF is massive, do you need the full framework?"))
    else if name == "django" then
      Some(HeavyDep("django", "huge", "fastapi or flask", "Django is batteries-included, maybe too many batteries?"))
    else None
  }

  predicate IsHeavy(name: string) {
    name in HeavyNames
  }

  /** No registry name contains a space. */
  lemma HeavyNamesHaveNoSpace(name: string)
    requires IsHeavy(name)
    ensures ' ' !in name
  {
    assert name == "requests" || name == "beautifulsoup4" || name == "pandas"
        || name == "tensorflow" || name == "django";
  }

  /** A detected bloat issue (`issue_type` is "heavy_dep" or "unused_import"). */
  datatype BloatIssue = BloatIssue(file: string, line: int, issueType: string,
                                   description: string, suggestion: string, severity: string)

  /** The points `add_issue` deducts for one issue of a severity. */
  function Deduction(severity: string): nat {
    if severity == "error" then 10 else if severity == "warning" then 5 else 2
  }

  function FloorAtZero(x: int): (r: nat)
    ensures r >= x && (x >= 0 ==> r == x) && (x < 0 ==> r == 0)
  {
    if x < 0 then 0 else x
  }

  /** The score after adding `issues` one by one to a fresh report. */
  function ScoreAfter(issues: seq<BloatIssue>): (r: int)
    ensures 0 <= r <= 100
    decreases |issues|
  {
    if issues == [] then 100
    else FloorAtZero(ScoreAfter(issues[..|issues| - 1]) - Deduction(issues[|issues| - 1].severity))
  }

  /** The sum of the deductions of all issues. */
  function TotalDeduction(issues: seq<BloatIssue>): nat
    decreases |issues|
  {
    if issues == [] then 0
    else TotalDeduction(issues[..|issues| - 1]) + Deduction(issues[|issues| - 1].severity)
  }

  /** Flooring at each step is the same as flooring once at the end: the
      score is `max(0, 100 - sum of deductions)`. */
  lemma {:induction false} ScoreIsFlooredDeduction(issues: seq<BloatIssue>)
    ensures ScoreAfter(issues) == FloorAtZero(100 - TotalDeduction(issues))
    decreases |issues|
  {
    if issues != [] {
      ScoreIsFlooredDeduction(issues[..|issues| - 1]);
    }
  }

  /** More issues never raise the score. */
  lemma {:induction false} ScoreNonIncreasing(issues: seq<BloatIssue>, more: seq<BloatIssue>)
    ensures ScoreAfter(issues + more) <= ScoreAfter(issues)
    decreases |more|
  {
    if more == [] {
      assert issues + more == issues;
    } else {
      var all := issues + more;
      assert all[..|all| - 1] == issues + more[..|more| - 1];
      ScoreNonIncreasing(issues, more[..|more| - 1]);
      assert ScoreAfter(all) <= ScoreAfter(all[..|all| - 1]);
    }
  }

  /** The counters of a report other than its score, as one value. */
  datatype Tally = Tally(issues: seq<BloatIssue>, totalImports: int, unusedImports: int,
                         heavyDeps: seq<string>)

  const EmptyTally := Tally([], 0, 0, [])

  class BloatReport {
    var issues: seq<BloatIssue>
    var totalImports: int
    var unusedImports: int
    var heavyDeps: seq<string>
    var score: int

    /** The score is never stale: it is what the issues so far give. */
    ghost predicate Valid()
      reads this
    {
      score == ScoreAfter(issues)
    }

    function State(): Tally
      reads this
    {
      Tally(issues, totalImports, unusedImports, heavyDeps)
    }

    constructor ()
      ensures Valid() && State() == EmptyTally && score == 100
    {
      issues := [];
      totalImports := 0;
      unusedImports := 0;
      heavyDeps := [];
      score := 100;
    }

    /** `add_issue`: append the issue and deduct its points, floored at 0. */
    method AddIssue(issue: BloatIssue)
      requires Valid()
      modifies this`issues, this`score
      ensures Valid()
      ensures issues == old(issues) + [issue]
      ensures score == FloorAtZero(old(score) - Deduction(issue.severity))
      ensures 0 <= score <= old(score)
    {
      issues := issues + [issue];
      assert issues[..|issues| - 1] == old(issues);
      if issue.severity == "error" {
        score := FloorAtZero(score - 10);
      } else if issue.severity == "warning" {
        score := FloorAtZero(score - 5);
      } else {
        score := FloorAtZero(score - 2);
      }
    }
  }

  // ----- The import map -----

  /** `_collect_imports`'s dict: the keys in insertion order and the line
      of each key. */
  datatype ImportMap = ImportMap(keys: seq<string>, lines: map<string, int>)

  ghost predicate WellFormed(m: ImportMap) {
    NoDup(m.keys) && forall k :: k in m.lines <==> k in m.keys
  }

  /** `imports[k] = line`: an existing key keeps its position. */
  function Put(m: ImportMap, k: string, line: int): (r: ImportMap)
    ensures WellFormed(m) ==> WellFormed(r)
    ensures k in r.lines && r.lines[k] == line
    ensures forall j :: j in m.lines && j != k ==> j in r.lines && r.lines[j] == m.lines[j]
    ensures WellFormed(m) ==> m.keys <= r.keys && forall x :: x in r.keys ==> x in m.keys || x == k
  {
    ImportMap(if k in m.lines then m.keys else m.keys + [k], m.lines[k := line])
  }

  /** `alias.asname or alias.name`. */
  function BoundName(a: Alias): string {
    if a.asname.Some? && a.asname.value != [] then a.asname.value else a.name
  }

  /** The key an alias writes: its first dotted component after `import`
      (`dotted`), the name itself after `from m import`. */
  function AliasKey(a: Alias, dotted: bool): string {
    if dotted then Split(BoundName(a), '.')[0] else BoundName(a)
  }

  /** The keys of an alias list, in alias order. */
  function AliasKeys(names: seq<Alias>, dotted: bool): seq<string>
    decreases |names|
  {
    if names == [] then []
    else AliasKeys(names[..|names| - 1], dotted) + [AliasKey(names[|names| - 1], dotted)]
  }

  /** The keys one node writes into the import map, in alias order; a
      `from . import` without a module writes none. */
  function Bindings(n: Node): seq<string> {
    match n
    case Import(_, names) => AliasKeys(names, true)
    case ImportFrom(_, m, names) => if m.Some? && m.value != [] then AliasKeys(names, false) else []
    case _ => []
  }

  function ImportLine(n: Node): int {
    match n
    case Import(line, _) => line
    case ImportFrom(line, _, _) => line
    case _ => 0
  }

  function PutAll(m: ImportMap, names: seq<string>, line: int): (r: ImportMap)
    ensures WellFormed(m) ==> WellFormed(r)
    ensures forall k :: k in r.lines <==> k in m.lines || k in names
    ensures forall k :: k in names ==> r.lines[k] == line
    ensures forall k :: k in m.lines && k !in names ==> r.lines[k] == m.lines[k]
    ensures WellFormed(m) ==> m.keys <= r.keys
    decreases |names|
  {
    if names == [] then m
    else
      var r := Put(PutAll(m, names[..|names| - 1], line), names[|names| - 1], line);
      assert forall k :: k in names ==> k in names[..|names| - 1] || k == names[|names| - 1];
      r
  }

  /** The import map after visiting `nodes` in order. */
  function ImportsOf(nodes: seq<Node>): (r: ImportMap)
    ensures WellFormed(r)
    decreases |nodes|
  {
    if nodes == [] then ImportMap([], map[])
    else
      var last := nodes[|nodes| - 1];
      PutAll(ImportsOf(nodes[..|nodes| - 1]), Bindings(last), ImportLine(last))
  }

  /** The keys of a prefix of the walk stay in front: the map only ever
      appends keys. */
  lemma {:induction false} ImportsOfKeysGrow(nodes: seq<Node>, i: nat)
    requires i <= |nodes|
    ensures ImportsOf(nodes[..i]).keys <= ImportsOf(nodes).keys
    decreases |nodes| - i
  {
    if i < |nodes| {
      ImportsOfKeysGrow(nodes, i + 1);
      var pre := nodes[..i + 1];
      assert pre[..|pre| - 1] == nodes[..i];
      assert ImportsOf(nodes[..i]).keys <= ImportsOf(pre).keys;
    } else {
      assert nodes[..i] == nodes;
    }
  }

  /** Keys are listed in the order of their first binding: a key bound by
      one of the first `i` nodes comes before a key none of them binds. */
  lemma KeysInFirstBindingOrder(nodes: seq<Node>, i: nat, a: nat, b: nat)
    requires i <= |nodes|
    requires a < |ImportsOf(nodes).keys| && b < |ImportsOf(nodes).keys|
    requires exists j :: 0 <= j < i && ImportsOf(nodes).keys[a] in Bindings(nodes[j])
    requires forall j :: 0 <= j < i ==> ImportsOf(nodes).keys[b] !in Bindings(nodes[j])
    ensures a < b
  {
    var ks := ImportsOf(nodes).keys;
    var pre := ImportsOf(nodes[..i]);
    ImportsOfKeysGrow(nodes, i);
    var j :| 0 <= j < i && ks[a] in Bindings(nodes[j]);
    assert nodes[..i][j] == nodes[j];
    ImportedIff(nodes[..i], ks[a]);
    ImportedIff(nodes[..i], ks[b]);
    forall j' | 0 <= j' < i ensures ks[b] !in Bindings(nodes[..i][j']) {
      assert nodes[..i][j'] == nodes[j'];
    }
    assert ks[a] in pre.keys && ks[b] !in pre.keys;
    var c :| 0 <= c < |pre.keys| && pre.keys[c] == ks[a];
    assert ks[c] == ks[a];
  }

  /** A name is a key exactly when some visited node binds it. */
  lemma {:induction false} ImportedIff(nodes: seq<Node>, k: string)
    ensures k in ImportsOf(nodes).lines <==> exists i :: 0 <= i < |nodes| && k in Bindings(nodes[i])
    decreases |nodes|
  {
    if nodes != [] {
      var init := nodes[..|nodes| - 1];
      ImportedIff(init, k);
      if exists i :: 0 <= i < |nodes| && k in Bindings(nodes[i]) {
        var i :| 0 <= i < |nodes| && k in Bindings(nodes[i]);
        if i < |nodes| - 1 {
          assert init[i] == nodes[i];
        }
      }
    }
  }

  /** A name bound several times keeps the line of the last node binding it. */
  lemma {:induction false} ImportLineIsLast(nodes: seq<Node>, k: string, j: int)
    requires 0 <= j < |nodes| && k in Bindings(nodes[j])
    requires forall i :: j < i < |nodes| ==> k !in Bindings(nodes[i])
    ensures k in ImportsOf(nodes).lines && ImportsOf(nodes).lines[k] == ImportLine(nodes[j])
    decreases |nodes|
  {
    var init := nodes[..|nodes| - 1];
    if j < |nodes| - 1 {
      forall i | j < i < |init| ensures k !in Bindings(init[i]) {
        assert init[i] == nodes[i];
      }
      ImportLineIsLast(init, k, j);
    }
  }

  /** The key rules on single statements. */
  lemma BindingExamples(line: int)
    ensures Bindings(Import(line, [Alias("a.b", None)])) == ["a"]
    ensures Bindings(Import(line, [Alias("a.b", Some("c"))])) == ["c"]
    ensures Bindings(ImportFrom(line, Some("m"), [Alias("x", Some("y"))])) == ["y"]
    ensures Bindings(ImportFrom(line, None, [Alias("x", None)])) == []
  {
    SplitNoSep("b", '.');
    SplitNoSep("c", '.');
    SplitAt("a", "b", '.');
    assert "a.b" == "a" + ['.'] + "b";
  }

  /** One more alias puts one more key. */
  lemma AliasKeysStep(imports: ImportMap, names: seq<Alias>, dotted: bool, line: int, j: nat)
    requires j < |names|
    ensures PutAll(imports, AliasKeys(names[..j + 1], dotted), line)
            == Put(PutAll(imports, AliasKeys(names[..j], dotted), line), AliasKey(names[j], dotted), line)
  {
    assert names[..j + 1][..j] == names[..j];
    var keys := AliasKeys(names[..j + 1], dotted);
    assert keys == AliasKeys(names[..j], dotted) + [AliasKey(names[j], dotted)];
    assert keys[..|keys| - 1] == AliasKeys(names[..j], dotted);
  }

  /** The inner `for alias in node.names` loop of `_collect_imports`. */
  method PutAliases(imports: ImportMap, names: seq<Alias>, dotted: bool, line: int) returns (r: ImportMap)
    ensures r == PutAll(imports, AliasKeys(names, dotted), line)
  {
    r := imports;
    var j := 0;
    while j < |names|
      invariant 0 <= j <= |names|
      invariant r == PutAll(imports, AliasKeys(names[..j], dotted), line)
    {
      var key := AliasKey(names[j], dotted);
      AliasKeysStep(imports, names, dotted, line, j);
      r := Put(r, key, line);
      j := j + 1;
    }
    assert names[..|names|] == names;
  }

  /** One more node of the walk puts its bindings. */
  lemma ImportsOfStep(nodes: seq<Node>, i: nat)
    requires i < |nodes|
    ensures ImportsOf(nodes[..i + 1]) == PutAll(ImportsOf(nodes[..i]), Bindings(nodes[i]), ImportLine(nodes[i]))
  {
    assert nodes[..i + 1][..i] == nodes[..i];
  }

  /** `_collect_imports`: fill the map while walking the tree. */
  method CollectImports(tree: Node) returns (imports: ImportMap)
    ensures imports == ImportsOf(Walk(tree))
  {
    var nodes := Walk(tree);
    imports := ImportMap([], map[]);
    var i := 0;
    while i < |nodes|
      invariant 0 <= i <= |nodes|
      invariant imports == ImportsOf(nodes[..i])
    {
      ImportsOfStep(nodes, i);
      imports := CollectNode(imports, nodes[i]);
      i := i + 1;
    }
    assert nodes[..|nodes|] == nodes;
  }

  /** One node of the walk in `_collect_imports`. */
  method CollectNode(imports: ImportMap, n: Node) returns (r: ImportMap)
    ensures r == PutAll(imports, Bindings(n), ImportLine(n))
  {
    r := imports;
    match n {
      case Import(line, names) =>
        r := PutAliases(imports, names, true, line);
      case ImportFrom(line, m, names) =>
        if m.Some? && m.value != [] {
          r := PutAliases(imports, names, false, line);
        }
      case _ =>
    }
  }

  // ----- The usage set -----

  /** The name one node adds to the usage set. */
  function NodeUsages(n: Node): set<string> {
    match n
    case Name(id) => {id}
    case Attribute(Name(id), _) => {id}
    case _ => {}
  }

  function UsagesOf(nodes: seq<Node>): set<string>
    decreases |nodes|
  {
    if nodes == [] then {}
    else UsagesOf(nodes[..|nodes| - 1]) + NodeUsages(nodes[|nodes| - 1])
  }

  lemma {:induction false} UsagesMembers(nodes: seq<Node>, u: string)
    ensures u in UsagesOf(nodes) <==> exists n :: n in nodes && u in NodeUsages(n)
    decreases |nodes|
  {
    if nodes != [] {
      var init := nodes[..|nodes| - 1];
      UsagesMembers(init, u);
      assert forall n :: n in nodes <==> n in init || n == nodes[|nodes| - 1];
    }
  }

  /** The identifiers of the `Name` nodes among `nodes`. */
  ghost function NameIds(nodes: seq<Node>): set<string> {
    set n | n in nodes && n.Name? :: n.id
  }

  /** Over a whole walk the usage set is exactly the identifiers of the
      `Name` nodes: the base of a visited attribute access is visited too. */
  lemma UsagesAreNameIds(tree: Node)
    ensures UsagesOf(Walk(tree)) == NameIds(Walk(tree))
  {
    var w := Walk(tree);
    forall u | u in UsagesOf(w) ensures u in NameIds(w) {
      UsagesMembers(w, u);
      var n :| n in w && u in NodeUsages(n);
      if n.Attribute? {
        assert n.value in Children(n);
        WalkClosed([tree], n, n.value);
      }
    }
    forall u | u in NameIds(w) ensures u in UsagesOf(w) {
      var n :| n in w && n.Name? && n.id == u;
      assert u in NodeUsages(n);
      UsagesMembers(w, u);
    }
  }

  /** `_collect_usages`: fill the set while walking the tree. */
  method CollectUsages(tree: Node) returns (usages: set<string>)
    ensures usages == UsagesOf(Walk(tree))
  {
    var nodes := Walk(tree);
    usages := {};
    var i := 0;
    while i < |nodes|
      invariant 0 <= i <= |nodes|
      invariant usages == UsagesOf(nodes[..i])
    {
      assert nodes[..i + 1][..i] == nodes[..i];
      match nodes[i] {
        case Name(id) =>
          usages := usages + {id};
        case Attribute(v, _) =>
          if v.Name? {
            usages := usages + {v.id};
          }
        case _ =>
      }
      i := i + 1;
    }
    assert nodes[..|nodes|] == nodes;
  }

  // ----- One file -----

  predicate IsUnused(name: string, usages: set<string>) {
    name !in usages && name != "*"
  }

  function UnusedDescription(name: string): string {
    "Unused import: " + name
  }

  function UnusedIssue(path: string, name: string, line: int): BloatIssue {
    BloatIssue(path, line, "unused_import", UnusedDescription(name),
               "Remove 'import " + name + "' or use it", "warning")
  }

  /** The `unused_import` issues of the first keys of a file's import map. */
  function UnusedIssues(path: string, keys: seq<string>, lines: map<string, int>,
                        usages: set<string>): (r: seq<BloatIssue>)
    requires forall k :: k in keys ==> k in lines
    ensures |r| <= |keys|
    ensures forall x :: x in r ==> x.issueType == "unused_import" && x.severity == "warning"
    decreases |keys|
  {
    if keys == [] then []
    else
      var k := keys[|keys| - 1];
      UnusedIssues(path, keys[..|keys| - 1], lines, usages)
      + (if IsUnused(k, usages) then [UnusedIssue(path, k, lines[k])] else [])
  }

  /** The number of issues with description `d`. */
  function CountDescribed(issues: seq<BloatIssue>, d: string): (r: nat)
    ensures r <= |issues|
    decreases |issues|
  {
    if issues == [] then 0
    else CountDescribed(issues[..|issues| - 1], d) + (if issues[|issues| - 1].description == d then 1 else 0)
  }

  lemma {:induction false} CountDescribedAppend(a: seq<BloatIssue>, b: seq<BloatIssue>, d: string)
    ensures CountDescribed(a + b, d) == CountDescribed(a, d) + CountDescribed(b, d)
    decreases |b|
  {
    if b == [] {
      assert a + b == a;
    } else {
      assert (a + b)[..|a + b| - 1] == a + b[..|b| - 1];
      assert (a + b)[|a + b| - 1] == b[|b| - 1];
      CountDescribedAppend(a, b[..|b| - 1], d);
    }
  }

  /** Each key that is neither used nor "*" gives exactly one
      `unused_import` issue, at its line; any other key gives none. */
  lemma {:induction false} UnusedReportedOnce(path: string, keys: seq<string>, lines: map<string, int>,
                                              usages: set<string>, k: string)
    requires NoDup(keys) && forall x :: x in keys ==> x in lines
    ensures CountDescribed(UnusedIssues(path, keys, lines, usages), UnusedDescription(k))
            == if k in keys && IsUnused(k, usages) then 1 else 0
    ensures k in keys && IsUnused(k, usages) ==> UnusedIssue(path, k, lines[k]) in UnusedIssues(path, keys, lines, usages)
    decreases |keys|
  {
    if keys != [] {
      var init := keys[..|keys| - 1];
      var last := keys[|keys| - 1];
      UnusedReportedOnce(path, init, lines, usages, k);
      var tail := if IsUnused(last, usages) then [UnusedIssue(path, last, lines[last])] else [];
      CountDescribedAppend(UnusedIssues(path, init, lines, usages), tail, UnusedDescription(k));
      PrefixInjective("Unused import: ", last, k);
      assert forall x :: x in keys <==> x in init || x == last;
      assert k == last ==> k !in init;
      assert CountDescribed(tail, UnusedDescription(k)) == if k == last && tail != [] then 1 else 0;
    }
  }

  function HeavyDescription(name: string): string {
    "Heavy dependency: " + name
  }

  function HeavyIssue(path: string, name: string, line: int, info: HeavyDep): BloatIssue {
    BloatIssue(path, line, "heavy_dep", HeavyDescription(name), "Consider: " + info.alternative, "info")
  }

  /** The heavy-dependency pass over the first keys of a file's import map:
      the new `heavy_deps` list and the issues it adds. */
  function HeavyPass(path: string, keys: seq<string>, lines: map<string, int>,
                     seen: seq<string>): (r: (seq<string>, seq<BloatIssue>))
    requires forall k :: k in keys ==> k in lines
    ensures forall k :: k in r.0 <==> k in seen || (k in keys && IsHeavy(k))
    decreases |keys|
  {
    if keys == [] then (seen, [])
    else
      var prev := HeavyPass(path, keys[..|keys| - 1], lines, seen);
      var k := keys[|keys| - 1];
      assert forall x :: x in keys <==> x in keys[..|keys| - 1] || x == k;
      match HeavyInfo(k)
      case Some(info) =>
        if k !in prev.0 then (prev.0 + [k], prev.1 + [HeavyIssue(path, k, lines[k], info)])
        else prev
      case None => prev
  }

  /** The report's counters after one file (a file that does not parse
      changes nothing). */
  function FileStep(t: Tally, f: SourceFile): Tally {
    match f.tree
    case None => t
    case Some(tree) =>
      var imports := ImportsOf(Walk(tree));
      var usages := UsagesOf(Walk(tree));
      var unused := UnusedIssues(f.path, imports.keys, imports.lines, usages);
      var heavy := HeavyPass(f.path, imports.keys, imports.lines, t.heavyDeps);
      Tally(t.issues + unused + heavy.1, t.totalImports + |imports.keys|,
            t.unusedImports + |unused|, heavy.0)
  }

  lemma UnusedStep(path: string, keys: seq<string>, lines: map<string, int>, usages: set<string>, i: nat)
    requires forall k :: k in keys ==> k in lines
    requires i < |keys|
    ensures UnusedIssues(path, keys[..i + 1], lines, usages)
            == UnusedIssues(path, keys[..i], lines, usages)
               + (if IsUnused(keys[i], usages) then [UnusedIssue(path, keys[i], lines[keys[i]])] else [])
  {
    assert keys[..i + 1][..i] == keys[..i];
  }

  /** The body of that loop: one imported name. */
  method CheckUnused(report: BloatReport, path: string, name: string, line: int, usages: set<string>)
    requires report.Valid()
    modifies report
    ensures report.Valid()
    ensures report.issues == old(report.issues) + (if IsUnused(name, usages) then [UnusedIssue(path, name, line)] else [])
    ensures report.unusedImports == old(report.unusedImports) + (if IsUnused(name, usages) then 1 else 0)
    ensures report.totalImports == old(report.totalImports) && report.heavyDeps == old(report.heavyDeps)
  {
    if name !in usages && name != "*" {
      report.unusedImports := report.unusedImports + 1;
      report.AddIssue(UnusedIssue(path, name, line));
    } else {
      assert report.issues + [] == report.issues;
    }
  }

  /** The first `for imp_name, imp_line in imports.items()` loop of `_scan_file`. */
  method ReportUnused(report: BloatReport, path: string, imports: ImportMap, usages: set<string>)
    requires report.Valid() && WellFormed(imports)
    modifies report
    ensures report.Valid()
    ensures report.issues == old(report.issues) + UnusedIssues(path, imports.keys, imports.lines, usages)
    ensures report.unusedImports
            == old(report.unusedImports) + |UnusedIssues(path, imports.keys, imports.lines, usages)|
    ensures report.totalImports == old(report.totalImports) && report.heavyDeps == old(report.heavyDeps)
  {
    var keys := imports.keys;
    var i := 0;
    while i < |keys|
      invariant 0 <= i <= |keys|
      invariant report.Valid()
      invariant report.issues == old(report.issues) + UnusedIssues(path, keys[..i], imports.lines, usages)
      invariant report.unusedImports
                == old(report.unusedImports) + |UnusedIssues(path, keys[..i], imports.lines, usages)|
      invariant report.totalImports == old(report.totalImports) && report.heavyDeps == old(report.heavyDeps)
    {
      UnusedStep(path, keys, imports.lines, usages, i);
      ghost var done := UnusedIssues(path, keys[..i], imports.lines, usages);
      CheckUnused(report, path, keys[i], imports.lines[keys[i]], usages);
      SeqAssoc(old(report.issues), done, if IsUnused(keys[i], usages) then [UnusedIssue(path, keys[i], imports.lines[keys[i]])] else []);
      i := i + 1;
    }
    assert keys[..|keys|] == keys;
  }

  lemma HeavyPassStep(path: string, keys: seq<string>, lines: map<string, int>, seen: seq<string>, i: int)
    requires forall k :: k in keys ==> k in lines
    requires 0 <= i < |keys|
    ensures var prev := HeavyPass(path, keys[..i], lines, seen);
            var k := keys[i];
            HeavyPass(path, keys[..i + 1], lines, seen)
            == if IsHeavy(k) && k !in prev.0
               then (prev.0 + [k], prev.1 + [HeavyIssue(path, k, lines[k], HeavyInfo(k).value)])
               else prev
  {
    assert keys[..i + 1][..i] == keys[..i];
  }

  /** The body of the heavy-dependency loop for one key. */
  method CheckHeavy(report: BloatReport, path: string, name: string, line: int)
    requires report.Valid()
    modifies report
    ensures report.Valid()
    ensures if IsHeavy(name) && name !in old(report.heavyDeps)
            then report.heavyDeps == old(report.heavyDeps) + [name]
                 && report.issues == old(report.issues) + [HeavyIssue(path, name, line, HeavyInfo(name).value)]
            else report.heavyDeps == old(report.heavyDeps) && report.issues == old(report.issues)
    ensures report.totalImports == old(report.totalImports)
    ensures report.unusedImports == old(report.unusedImports)
  {
    var info := HeavyInfo(name);
    if info.Some? {
      if name !in report.heavyDeps {
        report.heavyDeps := report.heavyDeps + [name];
        report.AddIssue(HeavyIssue(path, name, line, info.value));
      }
    }
  }

  /** The second `for imp_name, imp_line in imports.items()` loop of `_scan_file`. */
  method ReportHeavy(report: BloatReport, path: string, imports: ImportMap)
    requires report.Valid() && WellFormed(imports)
    modifies report
    ensures report.Valid()
    ensures var r := HeavyPass(path, imports.keys, imports.lines, old(report.heavyDeps));
            report.heavyDeps == r.0 && report.issues == old(report.issues) + r.1
    ensures report.totalImports == old(report.totalImports)
    ensures report.unusedImports == old(report.unusedImports)
  {
    var keys := imports.keys;
    var i := 0;
    while i < |keys|
      invariant 0 <= i <= |keys|
      invariant report.Valid()
      invariant var r := HeavyPass(path, keys[..i], imports.lines, old(report.heavyDeps));
                report.heavyDeps == r.0 && report.issues == old(report.issues) + r.1
      invariant report.totalImports == old(report.totalImports)
      invariant report.unusedImports == old(report.unusedImports)
    {
      HeavyPassStep(path, keys, imports.lines, old(report.heavyDeps), i);
      CheckHeavy(report, path, keys[i], imports.lines[keys[i]]);
      i := i + 1;
    }
    assert keys[..|keys|] == keys;
  }

  /** `_scan_file`. */
  method ScanFile(report: BloatReport, f: SourceFile)
    requires report.Valid()
    modifies report
    ensures report.Valid()
    ensures report.State() == FileStep(old(report.State()), f)
  {
    if f.tree.None? {
      return;
    }
    var tree := f.tree.value;
    var imports := CollectImports(tree);
    var usages := CollectUsages(tree);
    report.totalImports := report.totalImports + |imports.keys|;
    ReportUnused(report, f.path, imports, usages);
    ReportHeavy(report, f.path, imports);
  }

  // ----- Heavy-dependency deduplication across files -----

  /** The number of import-derived `heavy_dep` issues for `name`. */
  function HeavyCount(issues: seq<BloatIssue>, name: string): nat {
    CountDescribed(issues, HeavyDescription(name))
  }

  /** The description of the manifest issue for a registry name. */
  function ManifestDescription(name: string): string
    requires IsHeavy(name)
  {
    HeavyDescription(name) + " (" + HeavyInfo(name).value.size + ")"
  }

  /** Every name in `heavy_deps` is a registry name listed once and has
      exactly one import-derived issue; any other name has none; and no
      issue carries a manifest description.  Which names are in
      `heavy_deps` is stated by `FilesStepHeavyDeps`. */
  ghost predicate HeavyOnce(t: Tally) {
    NoDup(t.heavyDeps)
    && (forall k :: k in t.heavyDeps ==> IsHeavy(k))
    && (forall k :: HeavyCount(t.issues, k) == if k in t.heavyDeps then 1 else 0)
    && forall x, n :: x in t.issues && n in HeavyNames ==> x.description != ManifestDescription(n)
  }

  lemma ManifestDescriptionShape(n: string)
    requires IsHeavy(n)
    ensures ManifestDescription(n)
            == "Heavy dependency: " + (n + [' '] + ("(" + HeavyInfo(n).value.size + ")"))
  {
  }

  /** An import-derived description is never a manifest description. */
  lemma DescriptionsDiffer(k: string, n: string)
    requires IsHeavy(k) && IsHeavy(n)
    ensures HeavyDescription(k) != ManifestDescription(n)
  {
    var suffix := n + [' '] + ("(" + HeavyInfo(n).value.size + ")");
    assert suffix[|n|] == ' ';
    HeavyNamesHaveNoSpace(k);
    CharWitness(suffix, k, ' ');
    PrefixInjective("Heavy dependency: ", k, suffix);
    ManifestDescriptionShape(n);
  }

  /** Distinct registry names have distinct manifest descriptions. */
  lemma ManifestDescriptionsDiffer(a: string, b: string)
    requires IsHeavy(a) && IsHeavy(b)
    ensures ManifestDescription(a) == ManifestDescription(b) <==> a == b
  {
    ManifestDescriptionShape(a);
    ManifestDescriptionShape(b);
    var sa := "(" + HeavyInfo(a).value.size + ")";
    var sb := "(" + HeavyInfo(b).value.size + ")";
    PrefixInjective("Heavy dependency: ", a + [' '] + sa, b + [' '] + sb);
    HeavyNamesHaveNoSpace(a);
    HeavyNamesHaveNoSpace(b);
    DelimitedPrefix(a, sa, b, sb, ' ');
  }

  lemma UnusedDescriptionsDiffer(name: string, k: string)
    ensures UnusedDescription(name) != HeavyDescription(k)
    ensures IsHeavy(k) ==> UnusedDescription(name) != ManifestDescription(k)
  {
    assert UnusedDescription(name)[0] == 'U';
    assert HeavyDescription(k)[0] == 'H';
  }

  lemma {:induction false} UnusedIssuesDescriptions(path: string, keys: seq<string>, lines: map<string, int>,
                                                    usages: set<string>)
    requires forall x :: x in keys ==> x in lines
    ensures forall x :: x in UnusedIssues(path, keys, lines, usages) ==> exists n :: x.description == UnusedDescription(n)
    decreases |keys|
  {
    if keys != [] {
      UnusedIssuesDescriptions(path, keys[..|keys| - 1], lines, usages);
    }
  }

  lemma {:induction false} CountAbsent(issues: seq<BloatIssue>, d: string)
    requires forall x :: x in issues ==> x.description != d
    ensures CountDescribed(issues, d) == 0
    decreases |issues|
  {
    if issues != [] {
      CountAbsent(issues[..|issues| - 1], d);
    }
  }

  lemma CountSingle(x: BloatIssue, d: string)
    ensures CountDescribed([x], d) == if x.description == d then 1 else 0
  {
    assert [x][..0] == [];
  }

  /** Recording one new heavy dependency with its issue keeps the
      deduplication invariant. */
  lemma HeavyOnceAppend(t: Tally, k: string, issue: BloatIssue)
    requires HeavyOnce(t) && IsHeavy(k) && k !in t.heavyDeps
    requires issue.description == HeavyDescription(k)
    ensures HeavyOnce(Tally(t.issues + [issue], t.totalImports, t.unusedImports, t.heavyDeps + [k]))
  {
    NoDupAppend(t.heavyDeps, k);
    forall x ensures HeavyCount(t.issues + [issue], x) == if x in t.heavyDeps + [k] then 1 else 0 {
      CountDescribedAppend(t.issues, [issue], HeavyDescription(x));
      CountSingle(issue, HeavyDescription(x));
      PrefixInjective("Heavy dependency: ", x, k);
    }
    forall y, n | y in t.issues + [issue] && n in HeavyNames ensures y.description != ManifestDescription(n) {
      if y == issue {
        DescriptionsDiffer(k, n);
      }
    }
  }

  lemma {:induction false} HeavyPassKeepsOnce(t: Tally, path: string, keys: seq<string>, lines: map<string, int>)
    requires forall x :: x in keys ==> x in lines
    requires HeavyOnce(t)
    ensures var r := HeavyPass(path, keys, lines, t.heavyDeps);
            HeavyOnce(Tally(t.issues + r.1, t.totalImports, t.unusedImports, r.0))
    decreases |keys|
  {
    if keys == [] {
      assert t.issues + [] == t.issues;
    } else {
      var init := keys[..|keys| - 1];
      var k := keys[|keys| - 1];
      HeavyPassKeepsOnce(t, path, init, lines);
      HeavyPassStep(path, keys, lines, t.heavyDeps, |keys| - 1);
      assert keys[..|keys|] == keys;
      var prev := HeavyPass(path, init, lines, t.heavyDeps);
      if IsHeavy(k) && k !in prev.0 {
        var issue := HeavyIssue(path, k, lines[k], HeavyInfo(k).value);
        HeavyOnceAppend(Tally(t.issues + prev.1, t.totalImports, t.unusedImports, prev.0), k, issue);
        SeqAssoc(t.issues, prev.1, [issue]);
      }
    }
  }

  /** One file keeps the deduplication invariant. */
  lemma FileStepKeepsOnce(t: Tally, f: SourceFile)
    requires HeavyOnce(t)
    ensures HeavyOnce(FileStep(t, f))
  {
    if f.tree.Some? {
      var imports := ImportsOf(Walk(f.tree.value));
      var usages := UsagesOf(Walk(f.tree.value));
      var unused := UnusedIssues(f.path, imports.keys, imports.lines, usages);
      var t1 := Tally(t.issues + unused, t.totalImports, t.unusedImports, t.heavyDeps);
      UnusedIssuesDescriptions(f.path, imports.keys, imports.lines, usages);
      forall x ensures HeavyCount(t1.issues, x) == HeavyCount(t.issues, x) {
        CountDescribedAppend(t.issues, unused, HeavyDescription(x));
        forall y | y in unused ensures y.description != HeavyDescription(x) {
          var n :| y.description == UnusedDescription(n);
          UnusedDescriptionsDiffer(n, x);
        }
        CountAbsent(unused, HeavyDescription(x));
      }
      forall y, k | y in t1.issues && k in HeavyNames ensures y.description != ManifestDescription(k) {
        if y !in t.issues {
          var n :| y.description == UnusedDescription(n);
          UnusedDescriptionsDiffer(n, k);
        }
      }
      HeavyPassKeepsOnce(t1, f.path, imports.keys, imports.lines);
    }
  }

  // ----- The dependency manifests -----

  const DependencyFiles: seq<string> := ["requirements.txt", "pyproject.toml", "setup.py"]

  /** The contents of the manifests present among the root entries, in
      the order of `DependencyFiles`. */
  function Manifests(root: map<string, string>): seq<string> {
    ManifestsFrom(DependencyFiles, root)
  }

  function ManifestsFrom(names: seq<string>, root: map<string, string>): seq<string>
    decreases |names|
  {
    if names == [] then []
    else ManifestsFrom(names[..|names| - 1], root)
         + (if names[|names| - 1] in root then [root[names[|names| - 1]]] else [])
  }

  /** A registry name occurs in some lowercased manifest. */
  predicate FoundIn(name: string, contents: seq<string>) {
    exists c :: c in contents && Contains(Lower(c), name)
  }

  /** The registry names found in the manifests. */
  function FoundDeps(contents: seq<string>): set<string> {
    set d | d in HeavyNames && FoundIn(d, contents)
  }

  function ManifestIssue(name: string): BloatIssue
    requires IsHeavy(name)
  {
    var info := HeavyInfo(name).value;
    BloatIssue("dependencies", 0, "heavy_dep", ManifestDescription(name),
               "Consider: " + info.alternative + ". " + info.reason,
               if info.size == "large" then "info" else "warning")
  }

  function ManifestIssues(order: seq<string>): (r: seq<BloatIssue>)
    requires forall d :: d in order ==> IsHeavy(d)
    ensures |r| == |order|
    decreases |order|
  {
    if order == [] then []
    else ManifestIssues(order[..|order| - 1]) + [ManifestIssue(order[|order| - 1])]
  }

  /** The counters after the manifest pass appends the found names in `order`. */
  function ManifestStep(t: Tally, order: seq<string>): Tally
    requires forall d :: d in order ==> IsHeavy(d)
  {
    Tally(t.issues + ManifestIssues(order), t.totalImports, t.unusedImports, t.heavyDeps + order)
  }

  lemma ManifestStepAppend(t: Tally, order: seq<string>, d: string)
    requires forall x :: x in order ==> IsHeavy(x)
    requires IsHeavy(d)
    ensures var m := ManifestStep(t, order);
            ManifestStep(t, order + [d])
            == Tally(m.issues + [ManifestIssue(d)], m.totalImports, m.unusedImports, m.heavyDeps + [d])
  {
    assert (order + [d])[..|order|] == order;
  }

  /** The first half of `_scan_dependencies`: the set `deps_found`. */
  method FindManifestDeps(root: map<string, string>) returns (found: set<string>)
    ensures found == FoundDeps(Manifests(root))
  {
    found := {};
    var f := 0;
    while f < |DependencyFiles|
      invariant 0 <= f <= |DependencyFiles|
      invariant found == FoundDeps(ManifestsFrom(DependencyFiles[..f], root))
    {
      ghost var seen := ManifestsFrom(DependencyFiles[..f], root);
      var file := DependencyFiles[f];
      assert DependencyFiles[..f + 1][..f] == DependencyFiles[..f];
      if file in root {
        var content := root[file];
        var lowered := Lower(content);
        var d := 0;
        while d < |HeavyNames|
          invariant 0 <= d <= |HeavyNames|
          invariant found == FoundDeps(seen) + (set e | e in HeavyNames[..d] && Contains(lowered, e))
        {
          assert HeavyNames[..d + 1] == HeavyNames[..d] + [HeavyNames[d]];
          if Contains(lowered, HeavyNames[d]) {
            found := found + {HeavyNames[d]};
          }
          d := d + 1;
        }
        assert HeavyNames[..|HeavyNames|] == HeavyNames;
        FoundDepsAppend(seen, content);
      }
      f := f + 1;
    }
    assert DependencyFiles[..|DependencyFiles|] == DependencyFiles;
  }

  lemma FoundDepsAppend(contents: seq<string>, c: string)
    ensures FoundDeps(contents + [c])
            == FoundDeps(contents) + (set e | e in HeavyNames && Contains(Lower(c), e))
  {
    forall x | x in contents + [c] ensures x in contents || x == c { }
  }

  /** The body of the `for dep in deps_found` loop. */
  method ReportManifestDep(report: BloatReport, dep: string)
    requires report.Valid() && IsHeavy(dep)
    modifies report
    ensures report.Valid()
    ensures report.State()
            == Tally(old(report.issues) + [ManifestIssue(dep)], old(report.totalImports),
                     old(report.unusedImports), old(report.heavyDeps) + [dep])
  {
    report.heavyDeps := report.heavyDeps + [dep];
    report.AddIssue(ManifestIssue(dep));
  }

  /** The second half of `_scan_dependencies`: one manifest issue per
      found name, in the set's iteration order, which is returned. */
  method ReportManifestDeps(report: BloatReport, found: set<string>) returns (order: seq<string>)
    requires report.Valid() && forall d :: d in found ==> IsHeavy(d)
    modifies report
    ensures report.Valid()
    ensures NoDup(order) && forall d :: d in order <==> d in found
    ensures forall d :: d in order ==> IsHeavy(d)
    ensures report.State() == ManifestStep(old(report.State()), order)
  {
    var remaining := found;
    order := [];
    while remaining != {}
      invariant remaining <= found
      invariant NoDup(order) && forall d :: d in order <==> d in found && d !in remaining
      invariant forall d :: d in order ==> IsHeavy(d)
      invariant report.Valid()
      invariant report.State() == ManifestStep(old(report.State()), order)
      decreases |remaining|
    {
      var dep :| dep in remaining;
      ReportManifestDep(report, dep);
      NoDupAppend(order, dep);
      ManifestStepAppend(old(report.State()), order, dep);
      order := order + [dep];
      remaining := remaining - {dep};
    }
  }

  /** `_scan_dependencies`. */
  method ScanDependencies(report: BloatReport, root: map<string, string>) returns (order: seq<string>)
    requires report.Valid()
    modifies report
    ensures report.Valid()
    ensures NoDup(order) && forall d :: d in order <==> d in FoundDeps(Manifests(root))
    ensures forall d :: d in order ==> IsHeavy(d)
    ensures report.State() == ManifestStep(old(report.State()), order)
  {
    var found := FindManifestDeps(root);
    order := ReportManifestDeps(report, found);
  }

  /** The severity of a manifest issue is info for a "large" dependency and
      warning for a "huge" one. */
  lemma ManifestSeverity(name: string)
    requires IsHeavy(name)
    ensures ManifestIssue(name).severity
            == (if name == "requests" || name == "beautifulsoup4" then "info" else "warning")
  {
  }

  // ----- The whole scan -----

  /** The counters after scanning `files` in order, skipping the paths
      `_should_skip` excludes. */
  function FilesStep(t: Tally, files: seq<SourceFile>): Tally
    decreases |files|
  {
    if files == [] then t
    else
      var prev := FilesStep(t, files[..|files| - 1]);
      var f := files[|files| - 1];
      if HasPartIn(f.path, SkipParts) then prev else FileStep(prev, f)
  }

  /** Across all files, `heavy_deps` stays duplicate-free and each name in it
      has exactly one import-derived issue (any other name has none). */
  lemma {:induction false} FilesStepKeepsOnce(t: Tally, files: seq<SourceFile>)
    requires HeavyOnce(t)
    ensures HeavyOnce(FilesStep(t, files))
    decreases |files|
  {
    if files != [] {
      FilesStepKeepsOnce(t, files[..|files| - 1]);
      var prev := FilesStep(t, files[..|files| - 1]);
      if !HasPartIn(files[|files| - 1].path, SkipParts) {
        FileStepKeepsOnce(prev, files[|files| - 1]);
      }
    }
  }

  /** A file that is scanned, parses and has `k` among its import keys. */
  predicate ImportedBy(f: SourceFile, k: string) {
    !HasPartIn(f.path, SkipParts) && f.tree.Some? && k in ImportsOf(Walk(f.tree.value)).lines
  }

  /** One file adds to `heavy_deps` exactly its heavy import keys. */
  lemma FileStepHeavyDeps(t: Tally, f: SourceFile, k: string)
    ensures k in FileStep(t, f).heavyDeps
            <==> k in t.heavyDeps || (IsHeavy(k) && f.tree.Some? && k in ImportsOf(Walk(f.tree.value)).lines)
  {
  }

  /** After the files, `heavy_deps` holds exactly the heavy names that some
      scanned, parsed file imports. */
  lemma {:induction false} FilesStepHeavyDeps(t: Tally, files: seq<SourceFile>, k: string)
    ensures k in FilesStep(t, files).heavyDeps
            <==> k in t.heavyDeps || (IsHeavy(k) && exists i :: 0 <= i < |files| && ImportedBy(files[i], k))
    decreases |files|
  {
    if files != [] {
      var init := files[..|files| - 1];
      var f := files[|files| - 1];
      FilesStepHeavyDeps(t, init, k);
      if !HasPartIn(f.path, SkipParts) {
        FileStepHeavyDeps(FilesStep(t, init), f, k);
      }
      if IsHeavy(k) && exists i :: 0 <= i < |files| && ImportedBy(files[i], k) {
        var i :| 0 <= i < |files| && ImportedBy(files[i], k);
        if i < |files| - 1 {
          assert init[i] == files[i];
        }
      }
      if exists i :: 0 <= i < |init| && ImportedBy(init[i], k) {
        var i :| 0 <= i < |init| && ImportedBy(init[i], k);
        assert files[i] == init[i];
      }
    }
  }

  /** A whole import pass reports each heavy name once if some scanned,
      parsed file imports it, and never otherwise. */
  lemma HeavyReportedOnce(files: seq<SourceFile>, k: string)
    ensures HeavyCount(FilesStep(EmptyTally, files).issues, k)
            == if IsHeavy(k) && exists i :: 0 <= i < |files| && ImportedBy(files[i], k) then 1 else 0
  {
    assert HeavyOnce(EmptyTally);
    FilesStepKeepsOnce(EmptyTally, files);
    FilesStepHeavyDeps(EmptyTally, files, k);
  }

  /** An order in which the manifest pass can visit the found dependencies
      (Python's set iteration order is not fixed). */
  ghost predicate ManifestOrder(order: seq<string>, root: map<string, string>) {
    NoDup(order) && forall d :: d in order <==> d in FoundDeps(Manifests(root))
  }

  /** The counters `scan` can leave: all files, then the manifests in some
      order of the found set. */
  ghost predicate ScanState(t: Tally, files: seq<SourceFile>, root: map<string, string>) {
    exists order :: ManifestOrder(order, root) && t == ManifestStep(FilesStep(EmptyTally, files), order)
  }

  /** `scan`: a fresh report, every file, then the manifests. */
  method Scan(files: seq<SourceFile>, root: map<string, string>) returns (report: BloatReport, order: seq<string>)
    ensures fresh(report) && report.Valid()
    ensures NoDup(order) && forall d :: d in order <==> d in FoundDeps(Manifests(root))
    ensures forall d :: d in order ==> IsHeavy(d)
    ensures report.State() == ManifestStep(FilesStep(EmptyTally, files), order)
  {
    report := new BloatReport();
    var i := 0;
    while i < |files|
      invariant 0 <= i <= |files|
      invariant report.Valid()
      invariant report.State() == FilesStep(EmptyTally, files[..i])
    {
      assert files[..i + 1][..i] == files[..i];
      assert FilesStep(EmptyTally, files[..i + 1])
             == if HasPartIn(files[i].path, SkipParts) then FilesStep(EmptyTally, files[..i])
                else FileStep(FilesStep(EmptyTally, files[..i]), files[i]);
      if !HasPartIn(files[i].path, SkipParts) {
        ScanFile(report, files[i]);
      }
      i := i + 1;
    }
    assert files[..|files|] == files;
    order := ScanDependencies(report, root);
  }

  /** The manifest pass does not look at the import-derived list: a registry
      name both imported and listed in a manifest gets two `heavy_dep`
      issues, one of each description, and appears twice in `heavy_deps`. */
  lemma ImportedAndListedTwice(files: seq<SourceFile>, order: seq<string>, k: string)
    requires forall d :: d in order ==> IsHeavy(d)
    requires NoDup(order)
    requires k in FilesStep(EmptyTally, files).heavyDeps && k in order
    ensures var t := ManifestStep(FilesStep(EmptyTally, files), order);
            HeavyCount(t.issues, k) == 1
            && CountDescribed(t.issues, ManifestDescription(k)) == 1
            && multiset(t.heavyDeps)[k] == 2
  {
    FilesStepKeepsOnce(EmptyTally, files);
    ImportedAndListedImportIssue(FilesStep(EmptyTally, files), order, k);
    ImportedAndListedManifestIssue(FilesStep(EmptyTally, files), order, k);
    ImportedAndListedDeps(FilesStep(EmptyTally, files), order, k);
  }

  lemma ImportedAndListedImportIssue(t0: Tally, order: seq<string>, k: string)
    requires forall d :: d in order ==> IsHeavy(d)
    requires NoDup(order) && HeavyOnce(t0)
    requires k in t0.heavyDeps
    ensures HeavyCount(ManifestStep(t0, order).issues, k) == 1
  {
    CountDescribedAppend(t0.issues, ManifestIssues(order), HeavyDescription(k));
    ManifestCounts(order, k);
    assert HeavyCount(t0.issues, k) == 1;
  }

  lemma ImportedAndListedManifestIssue(t0: Tally, order: seq<string>, k: string)
    requires forall d :: d in order ==> IsHeavy(d)
    requires NoDup(order) && HeavyOnce(t0)
    requires k in t0.heavyDeps && k in order
    ensures CountDescribed(ManifestStep(t0, order).issues, ManifestDescription(k)) == 1
  {
    CountDescribedAppend(t0.issues, ManifestIssues(order), ManifestDescription(k));
    ManifestCounts(order, k);
    CountAbsent(t0.issues, ManifestDescription(k));
  }

  lemma ImportedAndListedDeps(t0: Tally, order: seq<string>, k: string)
    requires forall d :: d in order ==> IsHeavy(d)
    requires NoDup(order) && HeavyOnce(t0)
    requires k in t0.heavyDeps && k in order
    ensures multiset(ManifestStep(t0, order).heavyDeps)[k] == 2
  {
    NoDupCount(t0.heavyDeps, k);
    NoDupCount(order, k);
    assert multiset(t0.heavyDeps + order) == multiset(t0.heavyDeps) + multiset(order);
  }

  /** In the manifest issues of distinct names, `k` has one manifest
      description and no import-derived one. */
  lemma {:induction false} ManifestCounts(order: seq<string>, k: string)
    requires forall d :: d in order ==> IsHeavy(d)
    requires NoDup(order) && IsHeavy(k)
    ensures CountDescribed(ManifestIssues(order), HeavyDescription(k)) == 0
    ensures CountDescribed(ManifestIssues(order), ManifestDescription(k)) == if k in order then 1 else 0
    decreases |order|
  {
    if order != [] {
      var init := order[..|order| - 1];
      var last := order[|order| - 1];
      NoDupDropLast(order);
      ManifestCounts(init, k);
      var issue := ManifestIssue(last);
      CountDescribedAppend(ManifestIssues(init), [issue], HeavyDescription(k));
      CountDescribedAppend(ManifestIssues(init), [issue], ManifestDescription(k));
      CountSingle(issue, HeavyDescription(k));
      CountSingle(issue, ManifestDescription(k));
      DescriptionsDiffer(k, last);
      ManifestDescriptionsDiffer(last, k);
      assert forall x :: x in order <==> x in init || x == last;
    }
  }

  lemma {:induction false} NoDupCount(s: seq<string>, k: string)
    requires NoDup(s)
    ensures multiset(s)[k] == if k in s then 1 else 0
    decreases |s|
  {
    if s != [] {
      NoDupDropLast(s);
      var init := s[..|s| - 1];
      assert s == init + [s[|s| - 1]];
      NoDupCount(init, k);
    }
  }
}
