/** The forge pipeline: run the scanners the configuration enables (quality
    always), turn their reports into the five weighted components of the
    trust score, and certify with a badge when the total is high enough. */
module Forge {
  import opened Common
  import opened PyAst
  import opened Score
  import Bloat
  import Quality
  import Security
  import Duplicate

  /** The `ForgeConfig` fields the pipeline reads. */
  datatype Config = Config(
    scanBloat: bool, scanDuplicates: bool, scanSecurity: bool, autoWrap: bool,
    registryUrl: string, checkDuplicatesOnline: bool, minScoreForBadge: int, badgeStyle: string)

  /** `ForgeConfig()` with its defaults. */
  const DefaultConfig := Config(true, true, true, true, "https://humotica.com/api/forge", true, 70, "flat")

  class ForgeResult {
    var projectPath: string
    var trustScore: TrustScore
    var bloatReport: Bloat.BloatReport?
    var duplicateReport: Duplicate.DuplicateReport?
    var securityReport: Security.SecurityReport?
    var qualityReport: Quality.QualityReport?
    var wrapped: bool
    var certified: bool
    var badgeMarkdown: string

    /** A result with a fresh trust score and no reports. */
    constructor (projectPath: string, now: string)
      ensures this.projectPath == projectPath && fresh(trustScore)
      ensures trustScore.Valid() && trustScore.components == [] && trustScore.total == 0
      ensures bloatReport == null && duplicateReport == null && securityReport == null && qualityReport == null
      ensures !wrapped && !certified && badgeMarkdown == []
    {
      this.projectPath := projectPath;
      trustScore := new TrustScore(now);
      bloatReport, duplicateReport, securityReport, qualityReport := null, null, null, null;
      wrapped, certified, badgeMarkdown := false, false, [];
    }

    /** The part of `certify` after the scan: wrap when `autoWrap` is set
        (which leaves the project unwrapped), then certify with a badge when
        the total reaches `minScore`. */
    method Finish(projectPath: string, autoWrap: bool, minScore: int, badgeStyle: string, ghost tibet: bool)
      requires !wrapped && !certified && badgeMarkdown == []
      modifies this`wrapped, this`certified, this`badgeMarkdown
      ensures Components(this, tibet) == old(Components(this, tibet))
      ensures !wrapped
      ensures certified <==> trustScore.total >= minScore
      ensures badgeMarkdown == if certified then BadgeMarkdown(trustScore.total, badgeStyle) else []
    {
      // Wrapping and certifying touch no report.
      var w := false;
      if autoWrap {
        w := WrapProject(projectPath);
      }
      var total := trustScore.total;
      var badge := if total >= minScore then BadgeMarkdown(total, badgeStyle) else [];
      wrapped, certified, badgeMarkdown := w, total >= minScore, badge;
      QualityPartUnchanged(qualityReport);
      PyprojectUnchanged(qualityReport);
      SecurityPartUnchanged(securityReport);
      BloatPartUnchanged(bloatReport);
      UniquenessPartUnchanged(duplicateReport);
    }

    /** A result with a fresh trust score and the given reports. */
    constructor WithReports(projectPath: string, now: string, bloat: Bloat.BloatReport?,
                            duplicates: Duplicate.DuplicateReport?, security: Security.SecurityReport?,
                            quality: Quality.QualityReport?)
      ensures this.projectPath == projectPath && fresh(trustScore)
      ensures trustScore.Valid() && trustScore.components == [] && trustScore.total == 0
      ensures bloatReport == bloat && duplicateReport == duplicates
      ensures securityReport == security && qualityReport == quality
      ensures !wrapped && !certified && badgeMarkdown == []
    {
      this.projectPath := projectPath;
      trustScore := new TrustScore(now);
      bloatReport, duplicateReport, securityReport, qualityReport := bloat, duplicates, security, quality;
      wrapped, certified, badgeMarkdown := false, false, [];
    }
  }

  const QualityName := "Code Quality"
  const SecurityName := "Security"
  const EfficiencyName := "Efficiency"
  const UniquenessName := "Uniqueness"
  const ProvenanceName := "Provenance"
  const ProvenanceDetails := "TIBET integration readiness"
  const ProvenanceAdvice := "Add tibet-core for full provenance"

  // ----- The five components -----

  function YesNo(b: bool): string {
    if b then "Yes" else "No"
  }

  /** `documented / total < 0.5` in exact arithmetic, for `total > 0`. */
  predicate UnderHalf(documented: nat, total: nat) {
    2 * documented < total
  }

  /** Dividing by a positive number keeps a strict bound. */
  lemma QuotientBelow(a: real, w: real, bound: real)
    requires w > 0.0
    ensures a / w < bound <==> a < bound * w
  {
    var q := a / w;
    assert q * w == a;
    if q < bound {
      assert (bound - q) * w > 0.0;
    } else {
      assert (q - bound) * w >= 0.0;
    }
  }

  /** The exact-rational ratio test agrees with `UnderHalf`. */
  lemma UnderHalfRatio(documented: nat, total: nat)
    requires total > 0
    ensures (documented as real / total as real < 0.5) <==> UnderHalf(documented, total)
  {
    QuotientBelow(documented as real, total as real, 0.5);
  }

  /** `_quality_suggestions`: one line per missing README, license and tests,
      and one when fewer than half of the functions carry a docstring. */
  function QualityAdvice(hasReadme: bool, hasLicense: bool, hasTests: bool,
                         totalFunctions: nat, documentedFunctions: nat): seq<string>
  {
    (if hasReadme then [] else ["Add a README.md"])
    + (if hasLicense then [] else ["Add a LICENSE file"])
    + (if hasTests then [] else ["Add tests"])
    + (if totalFunctions > 0 && UnderHalf(documentedFunctions, totalFunctions)
       then ["Add docstrings to functions"] else [])
  }

  /** The "Code Quality" component for a quality report's fields. */
  function QualityEntry(score: int, hasReadme: bool, hasLicense: bool, hasTests: bool,
                        totalFunctions: nat, documentedFunctions: nat): ScoreComponent
  {
    ScoreComponent(QualityName, Clamp(score), 0.25,
                   "README: " + YesNo(hasReadme) + ", Tests: " + YesNo(hasTests),
                   QualityAdvice(hasReadme, hasLicense, hasTests, totalFunctions, documentedFunctions))
  }

  function QualityComponent(q: Quality.QualityReport): ScoreComponent
    reads q
  {
    QualityEntry(q.score, q.hasReadme, q.hasLicense, q.hasTests, q.totalFunctions, q.documentedFunctions)
  }

  /** `[f"Fix: {i.description}" for i in issues]`. */
  function FixLines(issues: seq<Security.SecurityIssue>): seq<string> {
    seq(|issues|, k requires 0 <= k < |issues| => "Fix: " + issues[k].description())
  }

  function SecurityDetails(criticalCount: int, highCount: int): string {
    "Critical: " + IntToString(criticalCount) + ", High: " + IntToString(highCount)
  }

  /** The "Security" component for a security report's fields. */
  function SecurityEntry(score: int, criticalCount: int, highCount: int,
                         issues: seq<Security.SecurityIssue>): ScoreComponent
  {
    ScoreComponent(SecurityName, Clamp(score), 0.25, SecurityDetails(criticalCount, highCount),
                   FixLines(Take(issues, 3)))
  }

  function SecurityComponent(s: Security.SecurityReport): ScoreComponent
    reads s
  {
    SecurityEntry(s.score, s.criticalCount, s.highCount, s.issues)
  }

  /** `[f"Consider: {i.suggestion}" for i in issues]`. */
  function ConsiderLines(issues: seq<Bloat.BloatIssue>): seq<string> {
    seq(|issues|, k requires 0 <= k < |issues| => "Consider: " + issues[k].suggestion)
  }

  function BloatDetails(unusedImports: int, heavyDeps: int): string {
    "Unused imports: " + IntToString(unusedImports) + ", Heavy deps: " + IntToString(heavyDeps)
  }

  /** The "Efficiency" component for a bloat report's fields. */
  function BloatEntry(score: int, unusedImports: int, heavyDeps: seq<string>,
                      issues: seq<Bloat.BloatIssue>): ScoreComponent
  {
    ScoreComponent(EfficiencyName, Clamp(score), 0.20, BloatDetails(unusedImports, |heavyDeps|),
                   ConsiderLines(Take(issues, 3)))
  }

  function BloatComponent(b: Bloat.BloatReport): ScoreComponent
    reads b
  {
    BloatEntry(b.score, b.unusedImports, b.heavyDeps, b.issues)
  }

  /** `[f"Check: {p.name} - {p.suggestion}" for p in projects]`. */
  function CheckLines(ps: seq<Duplicate.SimilarProject>): seq<string> {
    seq(|ps|, k requires 0 <= k < |ps| =>
      "Check: " + ps[k].signature.projectName() + " - " + ps[k].signature.suggestion())
  }

  /** The "Uniqueness" component for a duplicate report's fields. */
  function UniquenessEntry(score: int, similarProjects: seq<Duplicate.SimilarProject>): ScoreComponent {
    ScoreComponent(UniquenessName, Clamp(score), 0.15,
                   "Similar projects: " + IntToString(|similarProjects|),
                   CheckLines(Take(similarProjects, 2)))
  }

  function UniquenessComponent(d: Duplicate.DuplicateReport): ScoreComponent
    reads d
  {
    UniquenessEntry(d.score, d.similarProjects)
  }

  /** 50, plus 25 with a `pyproject.toml`, plus 25 when the code mentions TIBET. */
  function ProvenanceScore(hasPyproject: bool, tibet: bool): int {
    50 + (if hasPyproject then 25 else 0) + (if tibet then 25 else 0)
  }

  function ProvenanceComponent(p: int): ScoreComponent {
    ScoreComponent(ProvenanceName, Clamp(p), 0.15, ProvenanceDetails,
                   if p < 75 then [ProvenanceAdvice] else [])
  }

  function QualityPart(q: Quality.QualityReport?): seq<ScoreComponent>
    reads q
  {
    if q != null then [QualityComponent(q)] else []
  }

  function SecurityPart(s: Security.SecurityReport?): seq<ScoreComponent>
    reads s
  {
    if s != null then [SecurityComponent(s)] else []
  }

  function BloatPart(b: Bloat.BloatReport?): seq<ScoreComponent>
    reads b
  {
    if b != null then [BloatComponent(b)] else []
  }

  function UniquenessPart(d: Duplicate.DuplicateReport?): seq<ScoreComponent>
    reads d
  {
    if d != null then [UniquenessComponent(d)] else []
  }

  /** The scan found a `pyproject.toml`. */
  predicate HasPyproject(q: Quality.QualityReport?)
    reads q
  {
    q != null && q.hasPyproject
  }

  function ProvenanceOf(q: Quality.QualityReport?, tibet: bool): ScoreComponent
    reads q
  {
    ProvenanceComponent(ProvenanceScore(HasPyproject(q), tibet))
  }

  /** The components `_calculate_trust_score` adds for the reports a scan
      produced, in order: one per report present, then provenance. */
  function ReportComponents(q: Quality.QualityReport?, s: Security.SecurityReport?, b: Bloat.BloatReport?,
                            d: Duplicate.DuplicateReport?, tibet: bool): seq<ScoreComponent>
    reads q, s, b, d
  {
    QualityPart(q) + SecurityPart(s) + BloatPart(b) + UniquenessPart(d) + [ProvenanceOf(q, tibet)]
  }

  /** `ReportComponents` for the reports of a result. */
  function Components(r: ForgeResult, tibet: bool): seq<ScoreComponent>
    reads r`qualityReport, r`securityReport, r`bloatReport, r`duplicateReport
    reads r.qualityReport, r.securityReport, r.bloatReport, r.duplicateReport
  {
    ReportComponents(r.qualityReport, r.securityReport, r.bloatReport, r.duplicateReport, tibet)
  }

  // A step that leaves a report alone leaves the component read from it alone.

  twostate lemma QualityPartUnchanged(q: Quality.QualityReport?)
    requires q != null ==> unchanged(q)
    ensures QualityPart(q) == old(QualityPart(q))
  {
  }

  twostate lemma PyprojectUnchanged(q: Quality.QualityReport?)
    requires q != null ==> unchanged(q)
    ensures HasPyproject(q) == old(HasPyproject(q))
  {
  }

  twostate lemma SecurityPartUnchanged(s: Security.SecurityReport?)
    requires s != null ==> unchanged(s)
    ensures SecurityPart(s) == old(SecurityPart(s))
  {
  }

  twostate lemma BloatPartUnchanged(b: Bloat.BloatReport?)
    requires b != null ==> unchanged(b)
    ensures BloatPart(b) == old(BloatPart(b))
  {
  }

  twostate lemma UniquenessPartUnchanged(d: Duplicate.DuplicateReport?)
    requires d != null ==> unchanged(d)
    ensures UniquenessPart(d) == old(UniquenessPart(d))
  {
  }

  /** `_has_tibet_integration` for one file. */
  predicate MentionsTibet(f: SourceFile) {
    !Contains(f.path, "__pycache__") && (Contains(Lower(f.content), "tibet") || Contains(f.content, "TIBETProvider"))
  }

  /** Some file mentions TIBET, as a fold over the files. */
  predicate TibetIntegrated(files: seq<SourceFile>)
    decreases |files|
  {
    files != [] && (TibetIntegrated(files[..|files| - 1]) || MentionsTibet(files[|files| - 1]))
  }

  /** `TibetIntegrated` holds exactly when some file mentions TIBET. */
  lemma {:induction false} TibetIntegratedIff(files: seq<SourceFile>)
    ensures TibetIntegrated(files) <==> exists i :: 0 <= i < |files| && MentionsTibet(files[i])
    decreases |files|
  {
    if files != [] {
      var init := files[..|files| - 1];
      TibetIntegratedIff(init);
      if TibetIntegrated(init) {
        var i :| 0 <= i < |init| && MentionsTibet(init[i]);
        assert files[i] == init[i];
      }
      forall i | 0 <= i < |init| ensures files[i] == init[i] {}
    }
  }

  // ----- Properties -----

  /** Provenance is 50, 75 or 100, and carries its suggestion exactly when
      neither a `pyproject.toml` nor TIBET is there. */
  lemma ProvenanceValues(hasPyproject: bool, tibet: bool)
    ensures ProvenanceScore(hasPyproject, tibet) in {50, 75, 100}
    ensures ProvenanceComponent(ProvenanceScore(hasPyproject, tibet)).suggestions != []
            <==> !hasPyproject && !tibet
    ensures ProvenanceComponent(ProvenanceScore(hasPyproject, tibet)).score == ProvenanceScore(hasPyproject, tibet)
  {
  }

  /** Each advice line appears exactly when its condition holds; the
      docstring line needs functions and a documented share below one half. */
  lemma QualityAdviceIff(hasReadme: bool, hasLicense: bool, hasTests: bool, total: nat, documented: nat)
    ensures var a := QualityAdvice(hasReadme, hasLicense, hasTests, total, documented);
            ("Add a README.md" in a <==> !hasReadme)
            && ("Add a LICENSE file" in a <==> !hasLicense)
            && ("Add tests" in a <==> !hasTests)
            && ("Add docstrings to functions" in a
                <==> total > 0 && (documented as real / total as real) < 0.5)
            && |a| <= 4
  {
    var r := if hasReadme then [] else ["Add a README.md"];
    var l := if hasLicense then [] else ["Add a LICENSE file"];
    var t := if hasTests then [] else ["Add tests"];
    var d := if total > 0 && UnderHalf(documented, total) then ["Add docstrings to functions"] else [];
    var a := r + l + t + d;
    assert a == QualityAdvice(hasReadme, hasLicense, hasTests, total, documented);
    assert |"Add a README.md"| == 15 && |"Add a LICENSE file"| == 18;
    assert |"Add tests"| == 9 && |"Add docstrings to functions"| == 27;
    assert forall x :: x in a <==> x in r || x in l || x in t || x in d;
    if total > 0 {
      UnderHalfRatio(documented, total);
    }
  }

  /** The suggestion lists hold at most three security fixes, three bloat
      hints and two similar projects, taken from the front of each report. */
  lemma SuggestionCaps(s: Security.SecurityReport, b: Bloat.BloatReport, d: Duplicate.DuplicateReport)
    ensures |SecurityComponent(s).suggestions| == if |s.issues| < 3 then |s.issues| else 3
    ensures |BloatComponent(b).suggestions| == if |b.issues| < 3 then |b.issues| else 3
    ensures |UniquenessComponent(d).suggestions| == if |d.similarProjects| < 2 then |d.similarProjects| else 2
    ensures forall k :: 0 <= k < |SecurityComponent(s).suggestions| ==>
              SecurityComponent(s).suggestions[k] == "Fix: " + s.issues[k].description()
    ensures forall k :: 0 <= k < |BloatComponent(b).suggestions| ==>
              BloatComponent(b).suggestions[k] == "Consider: " + b.issues[k].suggestion
  {
  }

  function Present(b: bool): nat {
    if b then 1 else 0
  }

  function WeightIf(b: bool, w: real): real {
    if b then w else 0.0
  }

  lemma {:induction false} WeightSumConcat(a: seq<ScoreComponent>, b: seq<ScoreComponent>)
    ensures WeightSum(a + b) == WeightSum(a) + WeightSum(b)
    decreases |a|
  {
    if a == [] {
      assert a + b == b;
    } else {
      assert (a + b)[0] == a[0];
      assert (a + b)[1..] == a[1..] + b;
      WeightSumConcat(a[1..], b);
    }
  }

  lemma WeightSumSingle(c: ScoreComponent)
    ensures WeightSum([c]) == c.weight
  {
    assert [c][1..] == [];
  }

  /** One component per report present plus provenance, which is last. */
  lemma ComponentsLength(r: ForgeResult, tibet: bool)
    ensures var cs := Components(r, tibet);
            |cs| == 1 + Present(r.qualityReport != null) + Present(r.securityReport != null)
                      + Present(r.bloatReport != null) + Present(r.duplicateReport != null)
            && cs[|cs| - 1] == ProvenanceOf(r.qualityReport, tibet)
            && cs[|cs| - 1].name == ProvenanceName && cs[|cs| - 1].weight == 0.15
  {
  }

  /** The weights of the components present add up: to exactly 1 when all
      four reports are there. */
  lemma ComponentsWeight(r: ForgeResult, tibet: bool)
    ensures WeightSum(Components(r, tibet))
            == 0.15 + WeightIf(r.qualityReport != null, 0.25) + WeightIf(r.securityReport != null, 0.25)
               + WeightIf(r.bloatReport != null, 0.20) + WeightIf(r.duplicateReport != null, 0.15)
    ensures (r.qualityReport != null && r.securityReport != null && r.bloatReport != null
             && r.duplicateReport != null) ==> WeightSum(Components(r, tibet)) == 1.0
  {
    var q, s, b, d := QualityPart(r.qualityReport), SecurityPart(r.securityReport), BloatPart(r.bloatReport),
                      UniquenessPart(r.duplicateReport);
    var p := ProvenanceOf(r.qualityReport, tibet);
    WeightSumConcat(q + s + b + d, [p]);
    WeightSumConcat(q + s + b, d);
    WeightSumConcat(q + s, b);
    WeightSumConcat(q, s);
    WeightSumSingle(p);
    if q != [] { WeightSumSingle(q[0]); }
    if s != [] { WeightSumSingle(s[0]); }
    if b != [] { WeightSumSingle(b[0]); }
    if d != [] { WeightSumSingle(d[0]); }
  }

  /** Every component holds a clamped score and a positive weight. */
  lemma ComponentsClamped(r: ForgeResult, tibet: bool)
    ensures forall c :: c in Components(r, tibet) ==> 0 <= c.score <= 100 && c.weight > 0.0
  {
    var q, s, b, d := QualityPart(r.qualityReport), SecurityPart(r.securityReport), BloatPart(r.bloatReport),
                      UniquenessPart(r.duplicateReport);
    var p := ProvenanceOf(r.qualityReport, tibet);
    assert Components(r, tibet) == q + s + b + d + [p];
    forall c | c in q + s + b + d + [p] ensures 0 <= c.score <= 100 && c.weight > 0.0 {
      assert c in q || c in s || c in b || c in d || c == p;
    }
  }

  /** After the pipeline the total is a score between 0 and 100. */
  lemma PipelineTotalInRange(r: ForgeResult, tibet: bool)
    ensures 0 <= TotalOf(Components(r, tibet)) <= 100
  {
    ComponentsClamped(r, tibet);
    TotalInRange(Components(r, tibet));
  }

  // ----- The pipeline -----

  /** `_has_tibet_integration` over the `*.py` files. */
  method HasTibetIntegration(files: seq<SourceFile>) returns (found: bool)
    ensures found == TibetIntegrated(files)
  {
    var i := 0;
    while i < |files|
      invariant 0 <= i <= |files|
      invariant !TibetIntegrated(files[..i])
    {
      assert files[..i + 1][..i] == files[..i];
      if !Contains(files[i].path, "__pycache__") {
        var content := files[i].content;
        if Contains(Lower(content), "tibet") || Contains(content, "TIBETProvider") {
          TibetPrefix(files, i + 1);
          return true;
        }
      }
      i := i + 1;
    }
    assert files[..|files|] == files;
    return false;
  }

  /** A mention in a prefix is a mention in the whole list. */
  lemma {:induction false} TibetPrefix(files: seq<SourceFile>, n: nat)
    requires n <= |files| && TibetIntegrated(files[..n])
    ensures TibetIntegrated(files)
  {
    TibetIntegratedIff(files[..n]);
    TibetIntegratedIff(files);
    var i :| 0 <= i < n && MentionsTibet(files[..n][i]);
    assert files[i] == files[..n][i];
  }

  /** `_quality_suggestions`. */
  method QualitySuggestions(report: Quality.QualityReport) returns (suggestions: seq<string>)
    ensures suggestions
            == QualityAdvice(report.hasReadme, report.hasLicense, report.hasTests,
                             report.totalFunctions, report.documentedFunctions)
  {
    suggestions := [];
    if !report.hasReadme {
      suggestions := suggestions + ["Add a README.md"];
    }
    if !report.hasLicense {
      suggestions := suggestions + ["Add a LICENSE file"];
    }
    if !report.hasTests {
      suggestions := suggestions + ["Add tests"];
    }
    if report.totalFunctions > 0 {
      UnderHalfRatio(report.documentedFunctions, report.totalFunctions);
      if report.documentedFunctions as real / report.totalFunctions as real < 0.5 {
        suggestions := suggestions + ["Add docstrings to functions"];
      }
    }
  }

  /** `_wrap_project`: automatic wrapping is not implemented. */
  method WrapProject(projectPath: string) returns (wrapped: bool)
    ensures !wrapped
  {
    return false;
  }

  /** One `add_component` call of `_calculate_trust_score`, made only when
      its report is `present`. */
  method AddIf(score: TrustScore, present: bool, c: ScoreComponent)
    requires score.Valid()
    modifies score
    ensures score.Valid()
    ensures score.components
            == old(score.components) + (if present then [c.(score := Clamp(c.score))] else [])
  {
    if present {
      score.AddComponent(c.name, c.score, c.weight, c.details, c.suggestions);
    } else {
      assert score.components == old(score.components) + [];
    }
  }

  /** The first four `add_component` calls of `_calculate_trust_score`, one
      per report that is there. Adding components does not change the
      reports, so everything is read from them first. */
  method AddReportParts(score: TrustScore, q: Quality.QualityReport?, s: Security.SecurityReport?,
                        b: Bloat.BloatReport?, d: Duplicate.DuplicateReport?)
    requires score.Valid()
    modifies score
    ensures score.Valid()
    ensures score.components
            == old(score.components + QualityPart(q) + SecurityPart(s) + BloatPart(b) + UniquenessPart(d))
  {
    var quality := ProvenanceComponent(0);
    if q != null {
      var suggestions := QualitySuggestions(q);
      quality := QualityComponent(q).(suggestions := suggestions);
    }
    var security := if s != null then SecurityComponent(s) else quality;
    var bloat := if b != null then BloatComponent(b) else quality;
    var uniqueness := if d != null then UniquenessComponent(d) else quality;
    AddIf(score, q != null, quality);
    AddIf(score, s != null, security);
    AddIf(score, b != null, bloat);
    AddIf(score, d != null, uniqueness);
  }

  /** `_calculate_trust_score`: the components of the reports that are there,
      then provenance. */
  method CalculateTrustScore(result: ForgeResult, files: seq<SourceFile>)
    requires result.trustScore.Valid()
    modifies result.trustScore
    ensures result.trustScore.Valid()
    ensures result.trustScore.components
            == old(result.trustScore.components + QualityPart(result.qualityReport)
                   + SecurityPart(result.securityReport) + BloatPart(result.bloatReport)
                   + UniquenessPart(result.duplicateReport)
                   + [ProvenanceOf(result.qualityReport, TibetIntegrated(files))])
  {
    var tibet := HasTibetIntegration(files);
    var provenance := ProvenanceOf(result.qualityReport, tibet);
    AddReportParts(result.trustScore, result.qualityReport, result.securityReport, result.bloatReport,
                   result.duplicateReport);
    AddIf(result.trustScore, true, provenance);
  }

  // ----- The scanners a configuration enables -----

  /** The bloat scan when it is enabled, and no report otherwise. */
  method RunBloat(enabled: bool, files: seq<SourceFile>, root: map<string, string>)
    returns (r: Bloat.BloatReport?, order: seq<string>)
    ensures (r != null) == enabled
    ensures r != null ==> fresh(r) && r.Valid() && Bloat.ManifestOrder(order, root)
    ensures r != null ==> r.State() == Bloat.ManifestStep(Bloat.FilesStep(Bloat.EmptyTally, files), order)
  {
    r, order := null, [];
    if enabled {
      r, order := Bloat.Scan(files, root);
    }
  }

  /** The duplicate scan when it is enabled, and no report otherwise. */
  method RunDuplicates(scanner: Duplicate.DuplicateScanner, enabled: bool, files: seq<SourceFile>,
                       checkOnline: bool, hash: string -> string)
    returns (r: Duplicate.DuplicateReport?)
    modifies scanner
    ensures (r != null) == enabled
    ensures r != null ==> fresh(r) && r.similarProjects == Duplicate.Matches(Duplicate.Intent(files))
    ensures r != null ==> r.score == Duplicate.UniquenessScore(Duplicate.Matches(Duplicate.Intent(files)))
    ensures r != null ==> r.intentHash == hash(Duplicate.HashInput(Duplicate.Intent(files)))
    ensures r != null ==> r.uniqueFeatures == []
  {
    r := null;
    if enabled {
      r := scanner.Scan(files, checkOnline, hash);
    }
  }

  /** The security scan when it is enabled, and no report otherwise. */
  method RunSecurity(enabled: bool, files: seq<SourceFile>, matches: (Security.RuleId, string) -> bool)
    returns (r: Security.SecurityReport?)
    ensures (r != null) == enabled
    ensures r != null ==> fresh(r) && r.Valid() && r.issues == Security.FilesIssues(files, matches, Security.Skipped)
    ensures r != null ==> r.score == Security.ScoreAfter(r.issues)
  {
    r := null;
    if enabled {
      r := Security.Scan(files, matches);
    }
  }

  /** The quality scan, which always runs. */
  method RunQuality(files: seq<SourceFile>, root: map<string, string>) returns (r: Quality.QualityReport)
    ensures fresh(r) && r.Valid() && r.State() == Quality.FilesStep(Quality.EmptyTally, files)
    ensures r.hasReadme == Quality.AnyPresent(root, Quality.ReadmeFiles)
    ensures r.hasLicense == Quality.AnyPresent(root, Quality.LicenseFiles)
    ensures r.hasTests == Quality.AnyPresent(root, Quality.TestEntries)
    ensures r.hasPyproject == ("pyproject.toml" in root)
    ensures r.score == Quality.QualityScore(r.hasReadme, r.hasLicense, r.hasTests, r.hasPyproject, r.State())
  {
    r := Quality.Scan(files, root);
  }

  class Forge {
    const config: Config
    const duplicate: Duplicate.DuplicateScanner

    /** `Forge(config)`: the given configuration or the default one. */
    constructor (config: Option<Config>)
      ensures this.config == (if config.Some? then config.value else DefaultConfig)
      ensures fresh(duplicate) && duplicate.registryUrl == Some(this.config.registryUrl)
    {
      this.config := if config.Some? then config.value else DefaultConfig;
      duplicate := new Duplicate.DuplicateScanner(Some(if config.Some? then config.value.registryUrl
                                                       else DefaultConfig.registryUrl));
    }

    /** `scan`: the enabled scanners, quality always, then the trust score.
        `now` stands for the clock, `root` for the project's top-level
        entries, `matches` for the regular-expression engine and `hash` for
        SHA-256. */
    method Scan(projectPath: string, files: seq<SourceFile>, root: map<string, string>,
                matches: (Security.RuleId, string) -> bool, hash: string -> string, now: string)
      returns (result: ForgeResult)
      modifies duplicate
      ensures fresh(result) && fresh(result.trustScore) && result.projectPath == projectPath
      ensures (result.bloatReport != null) == config.scanBloat
      ensures (result.duplicateReport != null) == config.scanDuplicates
      ensures (result.securityReport != null) == config.scanSecurity
      ensures result.qualityReport != null
      ensures result.trustScore.Valid()
      ensures result.trustScore.components == Components(result, TibetIntegrated(files))
      ensures result.securityReport != null
              ==> result.securityReport.issues == Security.FilesIssues(files, matches, Security.Skipped)
      ensures result.duplicateReport != null
              ==> result.duplicateReport.similarProjects == Duplicate.Matches(Duplicate.Intent(files))
      ensures result.bloatReport != null
              ==> result.bloatReport.Valid() && Bloat.ScanState(result.bloatReport.State(), files, root)
      ensures result.securityReport != null
              ==> result.securityReport.Valid()
                  && result.securityReport.score == Security.ScoreAfter(result.securityReport.issues)
      ensures result.duplicateReport != null
              ==> result.duplicateReport.score == Duplicate.UniquenessScore(Duplicate.Matches(Duplicate.Intent(files)))
      ensures result.duplicateReport != null
              ==> result.duplicateReport.intentHash == hash(Duplicate.HashInput(Duplicate.Intent(files)))
                  && result.duplicateReport.uniqueFeatures == []
      ensures result.qualityReport.Valid()
      ensures result.qualityReport.State() == Quality.FilesStep(Quality.EmptyTally, files)
      ensures result.qualityReport.hasReadme == Quality.AnyPresent(root, Quality.ReadmeFiles)
      ensures result.qualityReport.hasLicense == Quality.AnyPresent(root, Quality.LicenseFiles)
      ensures result.qualityReport.hasTests == Quality.AnyPresent(root, Quality.TestEntries)
      ensures result.qualityReport.hasPyproject == ("pyproject.toml" in root)
      ensures result.qualityReport.score
              == Quality.QualityScore(result.qualityReport.hasReadme, result.qualityReport.hasLicense,
                                      result.qualityReport.hasTests, result.qualityReport.hasPyproject,
                                      result.qualityReport.State())
      ensures !result.wrapped && !result.certified && result.badgeMarkdown == []
    {
      var bloat, order := RunBloat(config.scanBloat, files, root);
      var duplicates := RunDuplicates(duplicate, config.scanDuplicates, files, config.checkDuplicatesOnline, hash);
      var security := RunSecurity(config.scanSecurity, files, matches);
      var quality := RunQuality(files, root);
      result := new ForgeResult.WithReports(projectPath, now, bloat, duplicates, security, quality);
      ghost var qp := QualityPart(quality);
      CalculateTrustScore(result, files);
      assert [] + qp == qp;
    }

    /** `certify`: scan, wrap when enabled (which does nothing), then the
        badge when the total reaches the configured minimum. */
    method Certify(projectPath: string, files: seq<SourceFile>, root: map<string, string>,
                   matches: (Security.RuleId, string) -> bool, hash: string -> string, now: string)
      returns (result: ForgeResult)
      modifies duplicate
      ensures fresh(result)
      ensures result.trustScore.components == Components(result, TibetIntegrated(files))
      ensures result.certified <==> result.trustScore.total >= config.minScoreForBadge
      ensures result.badgeMarkdown
              == if result.certified then BadgeMarkdown(result.trustScore.total, config.badgeStyle) else []
      ensures !result.wrapped
    {
      result := Scan(projectPath, files, root, matches, hash, now);
      result.Finish(projectPath, config.autoWrap, config.minScoreForBadge, config.badgeStyle, TibetIntegrated(files));
    }
  }
}
