/** The duplicate scanner: what a project's code is about (imported
    packages, function and class names, words of the text), a fingerprint of
    it, and how closely it resembles a fixed list of known projects. The
    fingerprint is the SHA-256 of a text; the hash function is a parameter. */
module Duplicate {
  import opened Common
  import opened PyAst

  // ----- The registry of known projects (`KNOWN_PROJECTS`) -----

  datatype Signature = Rag | LlmRouting | AiCommunication | ProvenanceTracking
  {
    /** The registry key. */
    function name(): string {
      match this
      case Rag => "rag"
      case LlmRouting => "llm_routing"
      case AiCommunication => "ai_communication"
      case ProvenanceTracking => "provenance"
    }

    /** The signature's `patterns`: five words each. */
    function words(): seq<string> {
      match this
      case Rag => ["chromadb", "embedding", "search", "vector", "retrieval"]
      case LlmRouting => ["ollama", "model", "generate", "llm", "route"]
      case AiCommunication => ["agent", "message", "poll", "ains", "ainternet"]
      case ProvenanceTracking => ["audit", "token", "trace", "provenance", "trust"]
    }

    function projectName(): string {
      match this
      case Rag => "rapid-rag"
      case LlmRouting => "oomllama"
      case AiCommunication => "ainternet"
      case ProvenanceTracking => "tibet-core"
    }

    function description(): string {
      match this
      case Rag => "Fast local RAG with TIBET provenance"
      case LlmRouting => "Smart LLM routing with TIBET"
      case AiCommunication => "AI-to-AI communication protocol"
      case ProvenanceTracking => "Cryptographic provenance for trustworthy systems"
    }

    function url(): string {
      match this
      case Rag => "https://pypi.org/project/rapid-rag/"
      case LlmRouting => "https://pypi.org/project/oomllama/"
      case AiCommunication => "https://pypi.org/project/ainternet/"
      case ProvenanceTracking => "https://pypi.org/project/tibet-core/"
    }

    function suggestion(): string {
      match this
      case Rag => "Consider using rapid-rag instead of building your own RAG"
      case LlmRouting => "Consider using oomllama for LLM routing"
      case AiCommunication => "Consider using ainternet for AI communication"
      case ProvenanceTracking => "Use tibet-core for provenance tracking"
    }

    function downloads(): nat {
      match this
      case Rag => 239
      case LlmRouting => 3552
      case AiCommunication => 0
      case ProvenanceTracking => 0
    }
  }

  /** The registry in its dictionary order. */
  const KnownOrder: seq<Signature> := [Rag, LlmRouting, AiCommunication, ProvenanceTracking]

  /** A registry entry reported as similar, with the similarity found. */
  datatype SimilarProject = SimilarProject(signature: Signature, similarity: real)

  // ----- Intent features (`_extract_intent`) -----

  datatype Features = Features(
    imports: set<string>, functions: set<string>, classes: set<string>,
    keywords: set<string>, patterns: set<Signature>)

  const EmptyFeatures := Features({}, {}, {}, {}, {})

  /** Field-wise union. */
  function Union(a: Features, b: Features): Features {
    Features(a.imports + b.imports, a.functions + b.functions, a.classes + b.classes,
             a.keywords + b.keywords, a.patterns + b.patterns)
  }

  /** `name.split(".")[0]`. */
  function Root(name: string): string {
    Split(name, '.')[0]
  }

  /** The roots of the names of an `import` statement. */
  function ImportRoots(names: seq<Alias>): set<string> {
    set a | a in names :: Root(a.name)
  }

  /** What one node of the walk adds. */
  function AddNode(f: Features, n: Node): Features {
    match n
    case Import(_, names) => f.(imports := f.imports + ImportRoots(names))
    case ImportFrom(_, m, _) =>
      if m.Some? && m.value != [] then f.(imports := f.imports + {Root(m.value)}) else f
    case FunctionDef(_, name, _, _, _, _, _) => f.(functions := f.functions + {Lower(name)})
    case ClassDef(_, name, _, _, _) => f.(classes := f.classes + {Lower(name)})
    case _ => f
  }

  function AddNodes(f: Features, nodes: seq<Node>): Features
    decreases |nodes|
  {
    if nodes == [] then f else AddNode(AddNodes(f, nodes[..|nodes| - 1]), nodes[|nodes| - 1])
  }

  /** A word character of Python's `\b`, for ASCII text. */
  predicate IsWordChar(c: char) {
    'a' <= c <= 'z' || 'A' <= c <= 'Z' || '0' <= c <= '9' || c == '_'
  }

  predicate AllLower(w: string) {
    forall k :: 0 <= k < |w| ==> 'a' <= w[k] <= 'z'
  }

  /** `\b[a-z]{4,}\b` matches `s[i..j]`. */
  predicate KeywordAt(s: string, i: nat, j: nat)
    requires i <= j <= |s|
  {
    j - i >= 4 && AllLower(s[i..j])
    && (i == 0 || !IsWordChar(s[i - 1])) && (j == |s| || !IsWordChar(s[j]))
  }

  /** `set(re.findall(r'\b[a-z]{4,}\b', s))`. */
  function KeywordsIn(s: string): (r: set<string>)
    ensures forall w :: w in r ==> |w| >= 4 && AllLower(w)
  {
    set i: nat, j: nat | i <= j <= |s| && KeywordAt(s, i, j) :: s[i..j]
  }

  /** The keywords of a file's text. */
  function Keywords(content: string): set<string> {
    KeywordsIn(Lower(content))
  }

  /** The files `_extract_intent` passes over by path. */
  predicate PathSkipped(path: string) {
    Contains(path, "__pycache__") || Contains(path, ".venv")
  }

  /** One file: skipped by path, skipped when it does not parse, else its
      nodes and then its keywords. */
  function AddFile(f: Features, file: SourceFile): Features {
    if PathSkipped(file.path) || file.tree.None? then f
    else
      var g := AddNodes(f, Walk(file.tree.value));
      g.(keywords := g.keywords + Keywords(file.content))
  }

  /** The features of the files, before pattern tagging. */
  function Gathered(files: seq<SourceFile>): Features
    decreases |files|
  {
    if files == [] then EmptyFeatures else AddFile(Gathered(files[..|files| - 1]), files[|files| - 1])
  }

  /** The number of words of a signature found in `terms`
      (`sum(1 for p in patterns if p in terms)`). */
  function CountIn(ws: seq<string>, terms: set<string>): (r: nat)
    ensures r <= |ws|
    decreases |ws|
  {
    if ws == [] then 0
    else CountIn(ws[..|ws| - 1], terms) + (if ws[|ws| - 1] in terms then 1 else 0)
  }

  /** The terms pattern tagging looks at: imports, functions, classes and keywords. */
  function TagTerms(f: Features): set<string> {
    f.imports + f.functions + f.classes + f.keywords
  }

  /** The patterns of the first `n` registry entries that at least two words
      of `terms` hit. */
  function TaggedUpTo(n: nat, terms: set<string>): set<Signature>
    requires n <= |KnownOrder|
    decreases n
  {
    if n == 0 then {}
    else
      var s := KnownOrder[n - 1];
      TaggedUpTo(n - 1, terms) + (if CountIn(s.words(), terms) >= 2 then {s} else {})
  }

  /** `_extract_intent`: the gathered features with their patterns. */
  function Intent(files: seq<SourceFile>): Features {
    var g := Gathered(files);
    g.(patterns := g.patterns + TaggedUpTo(|KnownOrder|, TagTerms(g)))
  }

  // ----- The fingerprint text (`_hash_intent`) -----

  function PatternNames(ps: set<Signature>): set<string> {
    set s | s in ps :: s.name()
  }

  /** The text whose SHA-256 is the fingerprint: the sorted imports,
      functions, classes and pattern names, each joined with commas, then
      the four joined with bars. */
  function HashInput(f: Features): string {
    Join(HashParts(f), "|")
  }

  /** `",".join(sorted(names))`. */
  function SortedJoin(names: set<string>): string {
    Join(SortedElements(names), ",")
  }

  function HashParts(f: Features): seq<string> {
    [SortedJoin(f.imports), SortedJoin(f.functions), SortedJoin(f.classes), SortedJoin(PatternNames(f.patterns))]
  }

  /** Names that neither are empty nor contain a separator. */
  predicate Clean(names: set<string>) {
    forall x :: x in names ==> x != [] && '|' !in x && ',' !in x
  }

  // ----- Registry matching (`_match_known_projects`) -----

  /** The terms matching looks at: imports, functions and keywords. */
  function MatchTerms(f: Features): set<string> {
    f.imports + f.functions + f.keywords
  }

  /** The fraction of the signature's words found among the terms. */
  function Similarity(s: Signature, terms: set<string>): (r: real)
    ensures 0.0 <= r <= 1.0
  {
    CountIn(s.words(), terms) as real / |s.words()| as real
  }

  /** The reports for the first `n` registry entries, in registry order. */
  function MatchesUpTo(n: nat, terms: set<string>): seq<SimilarProject>
    requires n <= |KnownOrder|
    decreases n
  {
    if n == 0 then []
    else
      var s := KnownOrder[n - 1];
      var sim := Similarity(s, terms);
      MatchesUpTo(n - 1, terms) + (if sim >= 0.4 then [SimilarProject(s, sim)] else [])
  }

  function Matches(f: Features): seq<SimilarProject> {
    MatchesUpTo(|KnownOrder|, MatchTerms(f))
  }

  // ----- The uniqueness score (`_calculate_score`) -----

  function MaxSimilarity(ps: seq<SimilarProject>): (r: real)
    requires ps != []
    ensures forall k :: 0 <= k < |ps| ==> ps[k].similarity <= r
    ensures exists k :: 0 <= k < |ps| && ps[k].similarity == r
    decreases |ps|
  {
    if |ps| == 1 then ps[0].similarity
    else
      var m := MaxSimilarity(ps[1..]);
      assert forall k :: 1 <= k < |ps| ==> ps[k] == ps[1..][k - 1];
      if ps[0].similarity >= m then ps[0].similarity else m
  }

  /** 100 with no match, else `int((1 - max_similarity) * 100)`. */
  function UniquenessScore(ps: seq<SimilarProject>): int {
    if ps == [] then 100 else Trunc((1.0 - MaxSimilarity(ps)) * 100.0)
  }

  // ----- Properties -----

  /** A signature's position in the registry. */
  function Index(s: Signature): (r: nat)
    ensures r < |KnownOrder| && KnownOrder[r] == s
  {
    match s
    case Rag => 0
    case LlmRouting => 1
    case AiCommunication => 2
    case ProvenanceTracking => 3
  }

  /** With five words per signature, the inclusive 0.4 threshold means at
      least two words found. */
  lemma ThresholdIsTwo(s: Signature, terms: set<string>)
    ensures Similarity(s, terms) >= 0.4 <==> CountIn(s.words(), terms) >= 2
  {
    assert |s.words()| == 5;
  }

  /** Each report of the first `n` entries names one of them and carries
      its similarity, which reached the threshold. */
  lemma {:induction false} MatchesUpToElements(n: nat, terms: set<string>)
    requires n <= |KnownOrder|
    ensures forall p :: p in MatchesUpTo(n, terms) ==>
              Index(p.signature) < n && p.similarity == Similarity(p.signature, terms) >= 0.4
                && CountIn(p.signature.words(), terms) >= 2
    decreases n
  {
    if n > 0 {
      MatchesUpToElements(n - 1, terms);
      ThresholdIsTwo(KnownOrder[n - 1], terms);
    }
  }

  /** The reports come in registry order, so no entry twice. */
  lemma {:induction false} MatchesUpToOrdered(n: nat, terms: set<string>)
    requires n <= |KnownOrder|
    ensures forall i, j :: 0 <= i < j < |MatchesUpTo(n, terms)| ==>
              Index(MatchesUpTo(n, terms)[i].signature) < Index(MatchesUpTo(n, terms)[j].signature)
    decreases n
  {
    if n > 0 {
      MatchesUpToOrdered(n - 1, terms);
      MatchesUpToElements(n - 1, terms);
      var prev := MatchesUpTo(n - 1, terms);
      var t := KnownOrder[n - 1];
      var extra := if Similarity(t, terms) >= 0.4 then [SimilarProject(t, Similarity(t, terms))] else [];
      var r := MatchesUpTo(n, terms);
      assert r == prev + extra;
      assert Index(t) == n - 1;
      forall i, j | 0 <= i < j < |r| ensures Index(r[i].signature) < Index(r[j].signature) {
        if j >= |prev| {
          assert r[j] == extra[0] && r[i] == prev[i] && prev[i] in prev;
        } else {
          assert r[i] == prev[i] && r[j] == prev[j];
        }
      }
    }
  }

  /** An entry among the first `n` is reported iff two of its words are terms. */
  lemma {:induction false} MatchesUpToIff(n: nat, terms: set<string>, s: Signature)
    requires n <= |KnownOrder|
    ensures (exists p :: p in MatchesUpTo(n, terms) && p.signature == s)
            <==> Index(s) < n && CountIn(s.words(), terms) >= 2
    decreases n
  {
    if n > 0 {
      MatchesUpToIff(n - 1, terms, s);
      MatchesUpToElements(n - 1, terms);
      var t := KnownOrder[n - 1];
      ThresholdIsTwo(t, terms);
      var prev := MatchesUpTo(n - 1, terms);
      var r := MatchesUpTo(n, terms);
      if Index(s) == n - 1 && CountIn(s.words(), terms) >= 2 {
        assert r[|r| - 1] in r;
      }
      if exists p :: p in r && p.signature == s {
        var p :| p in r && p.signature == s;
        if p !in prev {
          assert p.signature == t;
        }
      }
    }
  }

  /** A known project is reported exactly when at least two of its words are
      among the imports, functions and keywords (class names do not count),
      and then only once. */
  lemma MatchedIff(f: Features, s: Signature)
    ensures (exists p :: p in Matches(f) && p.signature == s) <==> CountIn(s.words(), MatchTerms(f)) >= 2
    ensures forall i, j :: 0 <= i < j < |Matches(f)| ==> Matches(f)[i].signature != Matches(f)[j].signature
    ensures forall p :: p in Matches(f) ==> p.similarity == Similarity(p.signature, MatchTerms(f)) >= 0.4
  {
    MatchesUpToIff(|KnownOrder|, MatchTerms(f), s);
    MatchesUpToOrdered(|KnownOrder|, MatchTerms(f));
    MatchesUpToElements(|KnownOrder|, MatchTerms(f));
  }

  /** The uniqueness score is 100 exactly when nothing matched, and at most
      60 otherwise. */
  lemma {:induction false} ScoreBounds(f: Features)
    ensures Matches(f) == [] <==> UniquenessScore(Matches(f)) == 100
    ensures Matches(f) != [] ==> 0 <= UniquenessScore(Matches(f)) <= 60
  {
    var r := Matches(f);
    MatchesUpToElements(|KnownOrder|, MatchTerms(f));
    if r != [] {
      var m := MaxSimilarity(r);
      var k :| 0 <= k < |r| && r[k].similarity == m;
      assert r[k] in r;
      assert 0.4 <= m <= 1.0;
      assert 0.0 <= (1.0 - m) * 100.0 <= 60.0;
    }
  }

  /** The score does not go up as the best similarity goes up. */
  lemma ScoreAntitone(ps: seq<SimilarProject>, qs: seq<SimilarProject>)
    requires ps != [] && qs != []
    requires MaxSimilarity(ps) <= MaxSimilarity(qs) <= 1.0
    ensures UniquenessScore(qs) <= UniquenessScore(ps)
  {
    var x := (1.0 - MaxSimilarity(qs)) * 100.0;
    var y := (1.0 - MaxSimilarity(ps)) * 100.0;
    assert 0.0 <= x <= y;
    assert Trunc(x) as real <= x <= y < Trunc(y) as real + 1.0;
  }

  /** The count over five words, word by word. */
  lemma CountInFive(w: seq<string>, terms: set<string>)
    requires |w| == 5
    ensures CountIn(w, terms)
            == (if w[0] in terms then 1 else 0) + (if w[1] in terms then 1 else 0)
               + (if w[2] in terms then 1 else 0) + (if w[3] in terms then 1 else 0)
               + (if w[4] in terms then 1 else 0)
  {
    assert w[..1][..0] == [] && w[..2][..1] == w[..1] && w[..3][..2] == w[..2];
    assert w[..4][..3] == w[..3] && w[..5][..4] == w[..4] && w[..5] == w;
    assert CountIn(w[..1], terms) == (if w[0] in terms then 1 else 0);
    assert CountIn(w[..2], terms) == CountIn(w[..1], terms) + (if w[1] in terms then 1 else 0);
    assert CountIn(w[..3], terms) == CountIn(w[..2], terms) + (if w[2] in terms then 1 else 0);
    assert CountIn(w[..4], terms) == CountIn(w[..3], terms) + (if w[3] in terms then 1 else 0);
  }

  /** Two words of a signature, one imported and one in the text, reach the
      inclusive threshold; class names are not looked at. */
  lemma MatchExample()
    ensures var f := EmptyFeatures.(imports := {"chromadb"}, keywords := {"vector"},
                                    classes := {"embedding", "search", "ollama", "model"});
            Matches(f) == [SimilarProject(Rag, 0.4)] && UniquenessScore(Matches(f)) == 60
  {
    var f := EmptyFeatures.(imports := {"chromadb"}, keywords := {"vector"},
                            classes := {"embedding", "search", "ollama", "model"});
    var terms := MatchTerms(f);
    assert terms == {"chromadb", "vector"};
    CountInFive(Rag.words(), terms);
    CountInFive(LlmRouting.words(), terms);
    CountInFive(AiCommunication.words(), terms);
    CountInFive(ProvenanceTracking.words(), terms);
    assert MatchesUpTo(1, terms) == [SimilarProject(Rag, 0.4)];
    assert MaxSimilarity([SimilarProject(Rag, 0.4)]) == 0.4;
  }

  /** `\b` in action: a word between spaces is a keyword, one running into
      `_` is not, nor is a word of three letters. */
  lemma KeywordExamples()
    ensures "vector" in KeywordsIn("a vector search")
    ensures KeywordsIn("search_x") == {}
    ensures KeywordsIn("llm") == {}
  {
    assert KeywordAt("a vector search", 2, 8) && "a vector search"[2..8] == "vector";
    var s := "search_x";
    forall i: nat, j: nat | i <= j <= |s|
      ensures !KeywordAt(s, i, j)
    {
      if j - i >= 4 && AllLower(s[i..j]) {
        assert j <= 6 by {
          if j > 6 {
            assert s[i..j][6 - i] == '_';
          }
        }
        assert IsWordChar(s[j]);
      }
    }
  }

  /** One file's features on their own. */
  function FileFeatures(file: SourceFile): Features {
    AddFile(EmptyFeatures, file)
  }

  lemma AddNodeUnion(f: Features, x: Features, n: Node)
    ensures AddNode(Union(f, x), n) == Union(f, AddNode(x, n))
  {
    match n
    case Import(_, names) =>
      assert f.imports + x.imports + ImportRoots(names) == f.imports + (x.imports + ImportRoots(names));
    case ImportFrom(_, m, _) =>
    case FunctionDef(_, _, _, _, _, _, _) =>
    case ClassDef(_, _, _, _, _) =>
    case _ =>
  }

  lemma {:induction false} AddNodesUnion(f: Features, nodes: seq<Node>)
    ensures AddNodes(f, nodes) == Union(f, AddNodes(EmptyFeatures, nodes))
    decreases |nodes|
  {
    if nodes == [] {
      assert Union(f, EmptyFeatures) == f;
    } else {
      var init := nodes[..|nodes| - 1];
      AddNodesUnion(f, init);
      AddNodeUnion(f, AddNodes(EmptyFeatures, init), nodes[|nodes| - 1]);
    }
  }

  /** Adding a file unions in its own features. */
  lemma AddFileUnion(f: Features, file: SourceFile)
    ensures AddFile(f, file) == Union(f, FileFeatures(file))
  {
    if PathSkipped(file.path) || file.tree.None? {
      assert Union(f, EmptyFeatures) == f;
    } else {
      AddNodesUnion(f, Walk(file.tree.value));
    }
  }

  /** The gathered features are the union of the files' own. */
  lemma {:induction false} GatheredMembers(files: seq<SourceFile>)
    ensures Gathered(files).patterns == {}
    ensures forall x :: x in Gathered(files).imports <==> exists g :: g in files && x in FileFeatures(g).imports
    ensures forall x :: x in Gathered(files).functions <==> exists g :: g in files && x in FileFeatures(g).functions
    ensures forall x :: x in Gathered(files).classes <==> exists g :: g in files && x in FileFeatures(g).classes
    ensures forall x :: x in Gathered(files).keywords <==> exists g :: g in files && x in FileFeatures(g).keywords
    decreases |files|
  {
    if files != [] {
      var init := files[..|files| - 1];
      var last := files[|files| - 1];
      GatheredMembers(init);
      AddFileUnion(Gathered(init), last);
      assert forall g :: g in files <==> g in init || g == last;
      FilePatternsEmpty(last);
    }
  }

  lemma FilePatternsEmpty(file: SourceFile)
    ensures FileFeatures(file).patterns == {}
  {
    if !(PathSkipped(file.path) || file.tree.None?) {
      AddNodesPatterns(EmptyFeatures, Walk(file.tree.value));
    }
  }

  lemma {:induction false} AddNodesPatterns(f: Features, nodes: seq<Node>)
    ensures AddNodes(f, nodes).patterns == f.patterns
    decreases |nodes|
  {
    if nodes != [] {
      AddNodesPatterns(f, nodes[..|nodes| - 1]);
    }
  }

  /** The features, and so the fingerprint text and the matches, depend only
      on which files there are, not on the order `rglob` yields them in. */
  lemma IntentOrderIndependent(files1: seq<SourceFile>, files2: seq<SourceFile>)
    requires forall g :: g in files1 <==> g in files2
    ensures Intent(files1) == Intent(files2)
    ensures HashInput(Intent(files1)) == HashInput(Intent(files2))
    ensures Matches(Intent(files1)) == Matches(Intent(files2))
  {
    GatheredMembers(files1);
    GatheredMembers(files2);
    var a, b := Gathered(files1), Gathered(files2);
    assert a.imports == b.imports;
    assert a.functions == b.functions;
    assert a.classes == b.classes;
    assert a.keywords == b.keywords;
    assert a == b;
  }

  /** Pattern tagging counts class names and keywords too, and needs two words. */
  lemma TaggedIff(files: seq<SourceFile>, s: Signature)
    ensures s in Intent(files).patterns <==> CountIn(s.words(), TagTerms(Gathered(files))) >= 2
  {
    GatheredMembers(files);
    TaggedUpToIff(|KnownOrder|, TagTerms(Gathered(files)), s);
  }

  lemma {:induction false} TaggedUpToIff(n: nat, terms: set<string>, s: Signature)
    requires n <= |KnownOrder|
    ensures s in TaggedUpTo(n, terms) <==> Index(s) < n && CountIn(s.words(), terms) >= 2
    decreases n
  {
    if n > 0 {
      TaggedUpToIff(n - 1, terms, s);
    }
  }

  lemma JoinEmptyIff(parts: seq<string>, sep: string)
    requires forall k :: 0 <= k < |parts| ==> parts[k] != []
    ensures Join(parts, sep) == [] <==> parts == []
  {
    if parts != [] {
      JoinStartsWithFirst(parts, sep);
    }
  }

  /** The sorted list of clean names has clean entries. */
  lemma SortedClean(a: set<string>)
    requires Clean(a)
    ensures forall k :: 0 <= k < |SortedElements(a)| ==>
              SortedElements(a)[k] != [] && ',' !in SortedElements(a)[k] && '|' !in SortedElements(a)[k]
  {
    var sa := SortedElements(a);
    assert forall k :: 0 <= k < |sa| ==> sa[k] in a;
  }

  /** Distinct clean name sets give distinct comma-joined sorted lists. */
  lemma SortedJoinInjective(a: set<string>, b: set<string>)
    requires Clean(a) && Clean(b)
    requires SortedJoin(a) == SortedJoin(b)
    ensures a == b
  {
    var sa, sb := SortedElements(a), SortedElements(b);
    SortedClean(a);
    SortedClean(b);
    JoinEmptyIff(sa, ",");
    JoinEmptyIff(sb, ",");
    if sa != [] {
      SplitJoin(sa, ',');
      SplitJoin(sb, ',');
    }
    assert sa == sb;
  }

  lemma PatternNamesClean(ps: set<Signature>)
    ensures Clean(PatternNames(ps))
  {
  }

  /** The four parts come back from the text. */
  lemma HashInputSplits(f: Features)
    requires Clean(f.imports) && Clean(f.functions) && Clean(f.classes)
    ensures Split(HashInput(f), '|') == HashParts(f)
  {
    PatternNamesClean(f.patterns);
    SortedClean(f.imports);
    SortedClean(f.functions);
    SortedClean(f.classes);
    SortedClean(PatternNames(f.patterns));
    JoinAvoids(SortedElements(f.imports), ",", '|');
    JoinAvoids(SortedElements(f.functions), ",", '|');
    JoinAvoids(SortedElements(f.classes), ",", '|');
    JoinAvoids(SortedElements(PatternNames(f.patterns)), ",", '|');
    SplitJoin(HashParts(f), '|');
  }

  /** Registry keys are distinct. */
  lemma PatternNamesInjective(ps: set<Signature>, qs: set<Signature>)
    requires PatternNames(ps) == PatternNames(qs)
    ensures ps == qs
  {
    forall s ensures s in ps <==> s in qs {
      assert s in ps <==> s.name() in PatternNames(ps);
      assert s in qs <==> s.name() in PatternNames(qs);
    }
  }

  /** The fingerprint text identifies the sorted feature sets it is built from,
      as long as no name is empty or holds a separator; keywords are not part
      of it. */
  lemma HashInputIdentifies(f: Features, g: Features)
    requires Clean(f.imports) && Clean(f.functions) && Clean(f.classes)
    requires Clean(g.imports) && Clean(g.functions) && Clean(g.classes)
    requires HashInput(f) == HashInput(g)
    ensures f.imports == g.imports && f.functions == g.functions && f.classes == g.classes
    ensures f.patterns == g.patterns
  {
    HashInputSplits(f);
    HashInputSplits(g);
    var pf, pg := HashParts(f), HashParts(g);
    assert pf == pg;
    assert pf[0] == pg[0] && pf[1] == pg[1] && pf[2] == pg[2] && pf[3] == pg[3];
    PatternNamesClean(f.patterns);
    PatternNamesClean(g.patterns);
    SortedJoinInjective(f.imports, g.imports);
    SortedJoinInjective(f.functions, g.functions);
    SortedJoinInjective(f.classes, g.classes);
    SortedJoinInjective(PatternNames(f.patterns), PatternNames(g.patterns));
    PatternNamesInjective(f.patterns, g.patterns);
  }

  // ----- The report and the scanner -----

  class DuplicateReport {
    var intentHash: string
    var similarProjects: seq<SimilarProject>
    var uniqueFeatures: seq<string>
    var score: int

    constructor ()
      ensures intentHash == [] && similarProjects == [] && uniqueFeatures == [] && score == 100
    {
      intentHash := [];
      similarProjects := [];
      uniqueFeatures := [];
      score := 100;
    }
  }

  /** The inner `for alias in node.names` loop. */
  method AddImportRoots(imports: set<string>, names: seq<Alias>) returns (r: set<string>)
    ensures r == imports + ImportRoots(names)
  {
    r := imports;
    var j := 0;
    while j < |names|
      invariant 0 <= j <= |names|
      invariant r == imports + ImportRoots(names[..j])
    {
      assert ImportRoots(names[..j + 1]) == ImportRoots(names[..j]) + {Root(names[j].name)} by {
        assert forall a :: a in names[..j + 1] <==> a in names[..j] || a == names[j];
      }
      r := r + {Root(names[j].name)};
      j := j + 1;
    }
    assert names[..|names|] == names;
  }

  /** The `ast.walk` loop of one parsed file. */
  method CollectNodes(f: Features, nodes: seq<Node>) returns (g: Features)
    ensures g == AddNodes(f, nodes)
  {
    g := f;
    var i := 0;
    while i < |nodes|
      invariant 0 <= i <= |nodes|
      invariant g == AddNodes(f, nodes[..i])
    {
      assert nodes[..i + 1][..i] == nodes[..i];
      match nodes[i] {
        case Import(_, names) =>
          var imports := AddImportRoots(g.imports, names);
          g := g.(imports := imports);
        case ImportFrom(_, m, _) =>
          if m.Some? && m.value != [] {
            g := g.(imports := g.imports + {Root(m.value)});
          }
        case FunctionDef(_, name, _, _, _, _, _) =>
          g := g.(functions := g.functions + {Lower(name)});
        case ClassDef(_, name, _, _, _) =>
          g := g.(classes := g.classes + {Lower(name)});
        case _ =>
      }
      i := i + 1;
    }
    assert nodes[..|nodes|] == nodes;
  }

  /** The body of the file loop of `_extract_intent`. */
  method CollectFile(f: Features, file: SourceFile) returns (g: Features)
    ensures g == AddFile(f, file)
  {
    if Contains(file.path, "__pycache__") || Contains(file.path, ".venv") {
      return f;
    }
    if file.tree.None? {
      return f;
    }
    g := CollectNodes(f, Walk(file.tree.value));
    g := g.(keywords := g.keywords + Keywords(file.content));
  }

  /** The pattern loop of `_extract_intent`. */
  method TagPatterns(f: Features) returns (g: Features)
    ensures g == f.(patterns := f.patterns + TaggedUpTo(|KnownOrder|, TagTerms(f)))
  {
    var terms := f.imports + f.functions + f.classes;
    g := f;
    var n := 0;
    while n < |KnownOrder|
      invariant 0 <= n <= |KnownOrder|
      invariant g == f.(patterns := f.patterns + TaggedUpTo(n, TagTerms(f)))
    {
      var s := KnownOrder[n];
      if CountIn(s.words(), terms + f.keywords) >= 2 {
        g := g.(patterns := g.patterns + {s});
      }
      n := n + 1;
    }
  }

  /** `_extract_intent`. */
  method ExtractIntent(files: seq<SourceFile>) returns (features: Features)
    ensures features == Intent(files)
  {
    features := EmptyFeatures;
    var i := 0;
    while i < |files|
      invariant 0 <= i <= |files|
      invariant features == Gathered(files[..i])
    {
      assert files[..i + 1][..i] == files[..i];
      features := CollectFile(features, files[i]);
      i := i + 1;
    }
    assert files[..|files|] == files;
    features := TagPatterns(features);
  }

  class DuplicateScanner {
    var registryUrl: Option<string>
    var report: DuplicateReport

    constructor (registryUrl: Option<string>)
      ensures this.registryUrl == registryUrl && fresh(report)
      ensures report.intentHash == [] && report.similarProjects == [] && report.score == 100
    {
      this.registryUrl := registryUrl;
      report := new DuplicateReport();
    }

    /** `_match_known_projects`. */
    method MatchKnownProjects(f: Features)
      modifies report`similarProjects
      ensures report.similarProjects == old(report.similarProjects) + Matches(f)
    {
      var terms := f.imports + f.functions + f.keywords;
      var n := 0;
      while n < |KnownOrder|
        invariant 0 <= n <= |KnownOrder|
        invariant report.similarProjects == old(report.similarProjects) + MatchesUpTo(n, MatchTerms(f))
      {
        var s := KnownOrder[n];
        var similarity := CountIn(s.words(), terms) as real / |s.words()| as real;
        if similarity >= 0.4 {
          report.similarProjects := report.similarProjects + [SimilarProject(s, similarity)];
        } else {
          assert MatchesUpTo(n + 1, MatchTerms(f)) == MatchesUpTo(n, MatchTerms(f)) + [];
        }
        n := n + 1;
      }
    }

    /** `_calculate_score`. */
    method CalculateScore()
      modifies report`score
      ensures report.score == UniquenessScore(report.similarProjects)
    {
      if report.similarProjects == [] {
        report.score := 100;
        return;
      }
      var maxSimilarity := MaxSimilarity(report.similarProjects);
      report.score := Trunc((1.0 - maxSimilarity) * 100.0);
    }

    /** `scan`: a fresh report, the fingerprint, the registry matches and the
        score. `hash` stands for the first 16 hex digits of SHA-256; the
        online registry check does nothing, so `checkOnline` changes nothing. */
    method Scan(files: seq<SourceFile>, checkOnline: bool, hash: string -> string) returns (r: DuplicateReport)
      modifies this
      ensures fresh(r) && r == report && registryUrl == old(registryUrl)
      ensures r.intentHash == hash(HashInput(Intent(files)))
      ensures r.similarProjects == Matches(Intent(files))
      ensures r.uniqueFeatures == []
      ensures r.score == UniquenessScore(Matches(Intent(files)))
    {
      report := new DuplicateReport();
      var features := ExtractIntent(files);
      report.intentHash := hash(HashInput(features));
      MatchKnownProjects(features);
      if checkOnline && registryUrl.Some? && registryUrl.value != [] {
        // `_check_online_registry` makes no request and changes nothing.
      }
      CalculateScore();
      r := report;
    }
  }
}
