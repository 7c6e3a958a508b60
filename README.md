# tibet-forge scoring engine in Dafny

This project models the analysis-and-scoring engine of tibet-forge. The tool
reads a Python project and runs four scanners over it: bloat, quality,
security and duplicates. Each scanner produces a report with a score. The
forge turns the reports into the weighted components of a Humotica Trust
Score, whose total, grade and certification are recomputed on every
insertion. A certified result gets a shields.io badge. The Hall of Shame
keeps submitted projects in ascending score order, crowns the tool's three
award categories, and derives a shame category, a roast and highlights from
a scan result.

Modules follow the source files:

- `Score` (score.dfy) is `score.py`: the `TrustScore` class with its
  `components` list and derived `total`/`grade`/`certified` fields, the
  grade and colour tables, and the badge.
- `Bloat` (bloat.dfy) is `scanners/bloat.py`: the `BloatReport` class, the
  import map and usage set built while walking a tree, and the heavy-dependency
  passes over code and manifests.
- `Quality` (quality.dfy) is `scanners/quality.py`: the `QualityReport`
  class, its counters and smells, `calculate_score`, and `_max_nesting_depth`.
- `Security` (security.dfy) is `scanners/security.py`: the `SecurityReport`
  class, the 16-rule `DANGEROUS_PATTERNS` table, the line-skip filter and
  the rule-by-line loop.
- `Duplicate` (duplicate.dfy) is `scanners/duplicate.py`: intent features,
  the `KNOWN_PROJECTS` signatures, similarity, the uniqueness score and the
  hash input string.
- `Forge` (forge.dfy) is `forge.py`: the `ForgeResult` and `Forge` classes,
  `scan`, `certify` and `_calculate_trust_score`.
- `Shame` (shame.dfy) is the in-memory part of `shame.py`: `HallOfShame`
  with `add_entry` and `_update_awards`, `determine_shame_category`,
  `generate_custom_roast` and `generate_highlights`.
- `Common` (common.dfy) holds Python string operations: `in`, `lower()`,
  `upper()`, `strip()`, `split`, `join`, `str(int)`, slicing, `sorted` on
  a set of strings, and `int()` on a float.
- `PyAst` (pyast.dfy) holds the syntax-tree datatype that stands for
  `ast.parse`, with `ast.iter_child_nodes` (`Children`) and the
  breadth-first `ast.walk` (`Walk`).

The environment becomes inputs:
- A project is a sequence of `SourceFile(path, content, tree)`. A `tree`
  of `None` is a file that does not parse.
- The project's top-level entries are a map from name to content.
- The regular-expression engine of the security rules is a parameter
  `matches(rule, line)`. `Security.RegexMatch` is a reference matcher that
  is written out for the table's patterns.
- SHA-256 is a parameter `hash`, and the clock is a parameter `now`.
- `random.choice` is replaced by the chosen roast `base`, which must be one
  of the category's roasts.

Weights and similarities are exact rationals (`real`). Python's `int()`
on the weighted mean is modelled as truncation toward zero (`Common.Trunc`).

A dependency that is both imported and listed in a manifest is reported
twice: the manifest pass (`scanners/bloat.py:199-215`) does not consult the
import-derived `heavy_deps` list, so such a dependency gets two `heavy_dep`
issues and two `heavy_deps` entries. `Bloat.ImportedAndListedTwice` proves
this.

## Model

| member | source | states |
|---|---|---|
| Common.Trunc | src/tibet_forge/score.py:55 | `int()` of a real truncates toward zero: for x ≥ 0 the result r satisfies r ≤ x < r+1, and for x < 0 it satisfies r−1 < x ≤ r |
| Common.Lower | src/tibet_forge/scanners/bloat.py:202 | `lower()` keeps the length, leaves no 'A'..'Z', keeps every other character, and turns each capital into the lowercase letter whose capital it is (ASCII) |
| Common.LowerIdempotent | src/tibet_forge/scanners/bloat.py:202 | lowering a lowered string changes nothing |
| Common.Upper | src/tibet_forge/scanners/security.py:245 | `upper()` keeps the length, leaves no 'a'..'z', keeps every other character, and turns each lowercase letter into the capital whose lowercase it is (ASCII) |
| Common.UpperIdempotent | src/tibet_forge/scanners/security.py:245 | raising a raised string changes nothing |
| Common.LStrip | src/tibet_forge/scanners/security.py:239 | `lstrip()` is a suffix of the input, every removed character is whitespace, and the result does not start with whitespace |
| Common.RStrip | src/tibet_forge/scanners/quality.py:165 | `rstrip()` is a prefix of the input, every removed character is whitespace, and the result does not end with whitespace |
| Common.Split | src/tibet_forge/scanners/quality.py:145 | `split(sep)` yields at least one part, and no part contains the separator |
| Common.JoinSplit | src/tibet_forge/scanners/security.py:230 | joining the parts of a split with the separator gives back the string |
| Common.SplitJoin | src/tibet_forge/scanners/duplicate.py:167-172 | splitting a join whose parts avoid the separator gives back the parts |
| Common.Take | src/tibet_forge/forge.py:145 | a slice `[:n]` has min(n, length) elements and agrees with the input on them |
| Common.NatToString | src/tibet_forge/forge.py:143 | `str(n)` of a natural is a non-empty string of decimal digits whose value is n, with a leading '0' only for n = 0 (the string "0") |
| Common.SortedElements | src/tibet_forge/scanners/duplicate.py:168 | `sorted(set)` has the set's elements, one each, in strictly ascending order |
| PyAst.QueueVisited | src/tibet_forge/scanners/bloat.py:162 | `ast.walk` visits every node already in its queue |
| PyAst.WalkClosed | src/tibet_forge/scanners/bloat.py:162 | the nodes `ast.walk` visits are closed under taking children, so the walk of a tree reaches all of it |
| PyAst.PathParts | src/tibet_forge/scanners/bloat.py:114 | `path.parts`: a string is a part iff it is a non-empty piece of the path split on "/", and no part contains "/" |
| PyAst.PathPartsExample | src/tibet_forge/scanners/bloat.py:114 | a path a/b/c of three non-empty, slash-free components has exactly the parts [a, b, c] |
| PyAst.PartsNotIn | src/tibet_forge/scanners/bloat.py:114 | such a path matches no skip pattern that equals none of its three components |
| Score.Clamp | src/tibet_forge/score.py:97 | the result is in [0,100]; an in-range score is kept, a negative one becomes 0 and one above 100 becomes 100 |
| Score.TrustScore.constructor | src/tibet_forge/score.py:35-39 | a fresh score has no components, total 0, grade F and is not certified; the derived fields are valid |
| Score.TrustScore.Calculate | src/tibet_forge/score.py:45-57 | total is the truncated weighted mean of the components (0 with no positive weight); grade follows total; with no components total is 0, grade F and `certified` is left alone; otherwise certified iff total ≥ 70 |
| Score.TrustScore.AddComponent | src/tibet_forge/score.py:86-102 | exactly one component is appended, with its score clamped; the derived fields stay in step with the components (total, grade, certified iff total ≥ 70) |
| Score.WeightedSumBounds | src/tibet_forge/score.py:52-53 | with clamped scores and non-negative weights, 0 ≤ Σ score·weight ≤ 100·Σ weight |
| Score.ContributionBounds | src/tibet_forge/score.py:52 | one clamped component contributes between 0 and 100·weight |
| Score.TotalInRange | src/tibet_forge/score.py:52-55 | with clamped scores and non-negative weights the total lies in [0,100] |
| Score.WeightSumAppend | src/tibet_forge/score.py:52-53 | appending a component adds its weight and its contribution to the two sums |
| Score.SumsWithout | src/tibet_forge/score.py:52-53 | removing component i removes exactly its terms from both sums |
| Score.SumsPermutation | src/tibet_forge/score.py:52-53 | two component lists that are permutations of each other have the same sums |
| Score.TotalOrderIndependent | src/tibet_forge/score.py:52-55 | the total does not depend on the order in which the components were added |
| Score.UniformWeightedSum | src/tibet_forge/score.py:52 | when every component scores s, the weighted sum is s·Σ weight |
| Score.TotalOfUniform | src/tibet_forge/score.py:52-55 | the total is a mean: components that all score s with positive total weight give total s |
| Score.GradeAndColorExamples | src/tibet_forge/score.py:59-132 | grade 70→B, 69→C, 50→C, 49→D, 25→D, 24→F; colour 95/85/72/65/55/10 → brightgreen/green/yellowgreen/yellow/orange/red |
| Score.GradeMonotone | src/tibet_forge/score.py:59-71 | a higher total never gets a worse grade |
| Score.CertifiedAgreesWithGradeAndColor | src/tibet_forge/score.py:57-132 | total ≥ 70 iff the grade is B or better, iff the badge colour is yellowgreen or better |
| Score.GradeMessageMatchesGrade | src/tibet_forge/score.py:73-84 | `grade_message` opens with the bracketed letter of the grade `calculate` assigns to the same total |
| Score.CertifiedIffGradeB | src/tibet_forge/score.py:56-57 | a valid score with components is certified exactly when its grade is A or B |
| Bloat.HeavyInfo | src/tibet_forge/scanners/bloat.py:15-41 | `HEAVY_DEPS.get` finds an entry exactly for the five registry names, and the entry carries that name |
| Bloat.HeavyNamesHaveNoSpace | src/tibet_forge/scanners/bloat.py:15-41 | no registry name contains a space |
| Bloat.ScoreAfter | src/tibet_forge/scanners/bloat.py:70-80 | the score after any sequence of issues lies in [0,100] |
| Bloat.ScoreIsFlooredDeduction | src/tibet_forge/scanners/bloat.py:72-80 | flooring at each step gives the same as flooring 100 − Σ deductions once |
| Bloat.ScoreNonIncreasing | src/tibet_forge/scanners/bloat.py:72-80 | more issues never raise the score |
| Bloat.BloatReport.constructor | src/tibet_forge/scanners/bloat.py:63-70 | a fresh report has no issues, zero counters, no heavy deps and score 100 |
| Bloat.BloatReport.AddIssue | src/tibet_forge/scanners/bloat.py:72-80 | the issue is appended once; the score drops by its severity's deduction, floored at 0, so it never rises |
| Bloat.Put | src/tibet_forge/scanners/bloat.py:166 | `imports[k] = line` sets k's line, leaves every other key's line alone, keeps the keys duplicate-free, and only ever appends: the old key list is a prefix of the new one, which adds at most k |
| Bloat.PutAll | src/tibet_forge/scanners/bloat.py:164-171 | after writing names at a line, the keys are the old keys plus the names, the old key list is a prefix of the new one, the names map to that line and the other keys keep their lines |
| Bloat.ImportsOfKeysGrow | src/tibet_forge/scanners/bloat.py:158-173 | the key list after a prefix of the walk is a prefix of the final key list |
| Bloat.KeysInFirstBindingOrder | src/tibet_forge/scanners/bloat.py:158-173 | keys are listed in the order of their first binding: a key bound among the first i nodes precedes any key none of them binds |
| Bloat.ImportsOf | src/tibet_forge/scanners/bloat.py:158-173 | the import map built over a walk is well formed (keys unique, each with a line) |
| Bloat.ImportedIff | src/tibet_forge/scanners/bloat.py:158-173 | a name is a key exactly when some visited Import or ImportFrom node binds it |
| Bloat.ImportLineIsLast | src/tibet_forge/scanners/bloat.py:166-171 | a name bound several times keeps the line of the last node that binds it |
| Bloat.BindingExamples | src/tibet_forge/scanners/bloat.py:163-171 | `import a.b` binds "a", `import a.b as c` binds "c", `from m import x as y` binds "y", `from . import x` binds nothing |
| Bloat.PutAliases | src/tibet_forge/scanners/bloat.py:164-171 | the alias loop writes each alias's key at the node's line, in order |
| Bloat.CollectNode | src/tibet_forge/scanners/bloat.py:162-171 | one node of the walk writes exactly its bindings at its line |
| Bloat.CollectImports | src/tibet_forge/scanners/bloat.py:158-173 | `_collect_imports` produces the import map of the whole walk of the tree |
| Bloat.UsagesMembers | src/tibet_forge/scanners/bloat.py:175-186 | a name is used exactly when some visited node contributes it |
| Bloat.UsagesAreNameIds | src/tibet_forge/scanners/bloat.py:179-184 | over a whole walk the usage set is exactly the ids of the Name nodes, since an attribute's base Name is itself visited |
| Bloat.CollectUsages | src/tibet_forge/scanners/bloat.py:175-186 | `_collect_usages` produces the usage set of the whole walk |
| Bloat.UnusedIssues | src/tibet_forge/scanners/bloat.py:131-141 | at most one issue per key, each an `unused_import` warning |
| Bloat.UnusedReportedOnce | src/tibet_forge/scanners/bloat.py:131-141 | each key that is neither used nor "*" gets exactly one `unused_import` issue, at its recorded line; any other name gets none |
| Bloat.UnusedStep | src/tibet_forge/scanners/bloat.py:131-141 | one more key adds its unused issue exactly when the key is unused |
| Bloat.CheckUnused | src/tibet_forge/scanners/bloat.py:132-141 | an unused name appends its issue and bumps `unused_imports` by one; a used name changes nothing |
| Bloat.ReportUnused | src/tibet_forge/scanners/bloat.py:131-141 | the first loop appends the unused issues of all keys and counts them in `unused_imports` |
| Bloat.HeavyPass | src/tibet_forge/scanners/bloat.py:144-156 | after the pass, `heavy_deps` holds the names it held before plus every heavy key |
| Bloat.HeavyPassStep | src/tibet_forge/scanners/bloat.py:144-156 | a heavy key not yet in `heavy_deps` is recorded with one info issue; any other key changes nothing |
| Bloat.CheckHeavy | src/tibet_forge/scanners/bloat.py:145-156 | a heavy name not yet recorded is appended to `heavy_deps` with its issue; otherwise nothing changes |
| Bloat.ReportHeavy | src/tibet_forge/scanners/bloat.py:144-156 | the second loop leaves `heavy_deps` and the issues as the heavy pass over the keys says |
| Bloat.ScanFile | src/tibet_forge/scanners/bloat.py:116-156 | one file moves the report's counters and lists one `FileStep`: nothing for a file that does not parse, otherwise `total_imports` grows by the number of distinct keys, then the unused pass, then the heavy pass |
| Bloat.ManifestDescriptionShape | src/tibet_forge/scanners/bloat.py:212 | the manifest issue reads "Heavy dependency: name (size)" |
| Bloat.DescriptionsDiffer | src/tibet_forge/scanners/bloat.py:153 | an import-derived heavy description is never a manifest description |
| Bloat.ManifestDescriptionsDiffer | src/tibet_forge/scanners/bloat.py:212 | two registry names have the same manifest description iff they are the same name |
| Bloat.UnusedDescriptionsDiffer | src/tibet_forge/scanners/bloat.py:138 | an unused-import description is never a heavy-dependency description |
| Bloat.UnusedIssuesDescriptions | src/tibet_forge/scanners/bloat.py:138 | every unused issue has an "Unused import: name" description |
| Bloat.HeavyOnceAppend | src/tibet_forge/scanners/bloat.py:147-156 | recording a new heavy name with its issue keeps every heavy name listed once with one import-derived issue |
| Bloat.HeavyPassKeepsOnce | src/tibet_forge/scanners/bloat.py:144-156 | the heavy pass keeps that deduplication invariant |
| Bloat.FileStepKeepsOnce | src/tibet_forge/scanners/bloat.py:116-156 | one file keeps that deduplication invariant |
| Bloat.FilesStepKeepsOnce | src/tibet_forge/scanners/bloat.py:101-104 | across all files, `heavy_deps` stays duplicate-free and each name in it has exactly one import-derived issue, any other name none |
| Bloat.FileStepHeavyDeps | src/tibet_forge/scanners/bloat.py:144-156 | one file adds to `heavy_deps` exactly its heavy import keys |
| Bloat.FilesStepHeavyDeps | src/tibet_forge/scanners/bloat.py:101-104 | after the files, a name is in `heavy_deps` iff it was there before or is heavy and imported by a scanned file that parses |
| Bloat.HeavyReportedOnce | src/tibet_forge/scanners/bloat.py:101-156 | from a fresh report, a name has one import-derived issue iff it is heavy and some scanned, parsed file imports it, and none otherwise |
| Bloat.ManifestIssues | src/tibet_forge/scanners/bloat.py:205-215 | the manifest pass makes one issue per found name |
| Bloat.ManifestStepAppend | src/tibet_forge/scanners/bloat.py:205-215 | one more found name appends its manifest issue and its name |
| Bloat.FindManifestDeps | src/tibet_forge/scanners/bloat.py:188-203 | `deps_found` is the set of registry names occurring in some lowercased manifest that is present |
| Bloat.FoundDepsAppend | src/tibet_forge/scanners/bloat.py:198-203 | one more manifest adds exactly the registry names in its lowercased content |
| Bloat.ReportManifestDep | src/tibet_forge/scanners/bloat.py:206-215 | one found name appends itself to `heavy_deps` and its manifest issue, with no check against `heavy_deps` |
| Bloat.ReportManifestDeps | src/tibet_forge/scanners/bloat.py:205-215 | each found name is reported exactly once, in some order |
| Bloat.ScanDependencies | src/tibet_forge/scanners/bloat.py:188-215 | `_scan_dependencies` reports each registry name found in a manifest exactly once |
| Bloat.ManifestSeverity | src/tibet_forge/scanners/bloat.py:214 | the manifest issue is "info" for the two "large" entries and "warning" for the "huge" ones |
| Bloat.Scan | src/tibet_forge/scanners/bloat.py:96-109 | a fresh report, every file not skipped by `_should_skip`, then the manifest pass; the score stays what the issues give |
| Bloat.ImportedAndListedTwice | src/tibet_forge/scanners/bloat.py:144-215 | a heavy dependency that is imported and listed in a manifest gets one import-derived issue, one manifest issue, and two `heavy_deps` entries |
| Bloat.ImportedAndListedImportIssue | src/tibet_forge/scanners/bloat.py:144-156 | the manifest pass adds no import-derived issue, so an imported heavy name keeps exactly one |
| Bloat.ImportedAndListedManifestIssue | src/tibet_forge/scanners/bloat.py:205-215 | an imported heavy name that is also found in a manifest gets exactly one manifest issue |
| Bloat.ImportedAndListedDeps | src/tibet_forge/scanners/bloat.py:205-207 | an imported heavy name that is also found in a manifest occurs twice in `heavy_deps` |
| Bloat.ManifestCounts | src/tibet_forge/scanners/bloat.py:205-215 | the manifest issues of distinct names hold one manifest issue for each listed name and no import-derived issue |
| Quality.RatioPoints | src/tibet_forge/scanners/quality.py:68-79 | `int(num/den·w)` is the r with r·den ≤ num·w < (r+1)·den, and is at most w when num ≤ den |
| Quality.RatioBounds | src/tibet_forge/scanners/quality.py:68-79 | a ratio of at most 1 earns at most its weight |
| Quality.StructurePoints | src/tibet_forge/scanners/quality.py:57-65 | the README, license, tests and pyproject points add up to at most 40 |
| Quality.QualityScore | src/tibet_forge/scanners/quality.py:53-81 | the score is min(raw sum, 100): at most 100 and at most the raw sum, equal to the raw sum when that is at most 100, and otherwise 100 |
| Quality.CapInactive | src/tibet_forge/scanners/quality.py:68-81 | with the counters bounded by their totals the raw sum never exceeds 100, so the cap never applies |
| Quality.ScoreExtremes | src/tibet_forge/scanners/quality.py:55-81 | nothing present and nothing counted scores 0; everything present with all definitions documented and typed scores 100 |
| Quality.NestingDepth | src/tibet_forge/scanners/quality.py:229-239 | the depth is at least the starting depth |
| Quality.ChildDepth | src/tibet_forge/scanners/quality.py:233-238 | a child's depth is at least the starting depth |
| Quality.ChildrenDepth | src/tibet_forge/scanners/quality.py:232-239 | the maximum over the children is at least the starting depth |
| Quality.MaxNestingDepth | src/tibet_forge/scanners/quality.py:229-239 | the loop over the children with its recursive calls computes the nesting depth |
| Quality.DepthIsOffsetHeight | src/tibet_forge/scanners/quality.py:229-239 | `_max_nesting_depth(n, c)` is c plus the tree's height counted only along For/While/If/With edges |
| Quality.ChildrenDepthIsOffsetHeight | src/tibet_forge/scanners/quality.py:232-239 | the same holds for the maximum over a list of children |
| Quality.NestedIfsHeight | src/tibet_forge/scanners/quality.py:233-235 | k nested `if` statements have height k |
| Quality.NestedIfsDepth | src/tibet_forge/scanners/quality.py:229-239 | a function whose body is k nested `if` statements has depth k |
| Quality.ArrowThreshold | src/tibet_forge/scanners/quality.py:182-188 | four nested ifs give one `arrow_pattern` smell, three give none |
| Quality.LlmSmells | src/tibet_forge/scanners/quality.py:157-167 | there are no more LLM smells than lines |
| Quality.LineSmells | src/tibet_forge/scanners/quality.py:160-167 | the `break` gives at most one smell per line |
| Quality.LineSmellsFacts | src/tibet_forge/scanners/quality.py:159-167 | a line's smell sits at its number, and there is one exactly when a pattern occurs together with `"""`, `'''` or `#` |
| Quality.LlmSmellLines | src/tibet_forge/scanners/quality.py:159 | LLM smells carry line numbers between 1 and the line count |
| Quality.LlmAtMostOncePerLine | src/tibet_forge/scanners/quality.py:157-167 | line i has exactly one `llm_artifact` smell if it qualifies and none otherwise |
| Quality.FunctionSmellCounts | src/tibet_forge/scanners/quality.py:173-188 | a function gets one `long_name` smell iff its name is longer than 35, and one `arrow_pattern` smell iff its depth is above 3 |
| Quality.NodeSmellCounts | src/tibet_forge/scanners/quality.py:169-227 | per node: `arrow_pattern` iff a function of depth > 3, `long_name` iff a function or class name longer than 35, `except_pass` iff a handler whose body is one `pass`, and no god-file or LLM smell |
| Quality.NodeSmellCount | src/tibet_forge/scanners/quality.py:169-227 | the same counts as one formula per smell type |
| Quality.WalkStep | src/tibet_forge/scanners/quality.py:169-227 | the walk keeps documented and typed counts at most their totals |
| Quality.FileStep | src/tibet_forge/scanners/quality.py:137-227 | one file keeps the counter bounds |
| Quality.FilesStep | src/tibet_forge/scanners/quality.py:107-110 | all files keep the counter bounds |
| Quality.QualityReport.constructor | src/tibet_forge/scanners/quality.py:33-51 | a fresh report has every flag false, every counter 0, no smells and score 0 |
| Quality.QualityReport.CalculateScore | src/tibet_forge/scanners/quality.py:53-81 | the score becomes the capped quality score of the report's flags and counters |
| Quality.CheckProjectFiles | src/tibet_forge/scanners/quality.py:120-135 | each flag is set iff one of its file names is among the project's entries |
| Quality.ScanLlm | src/tibet_forge/scanners/quality.py:157-167 | the line loop appends the LLM smells of all lines, in order |
| Quality.CheckLlmLine | src/tibet_forge/scanners/quality.py:160-167 | the pattern loop appends that line's smell, if any |
| Quality.CountFunction | src/tibet_forge/scanners/quality.py:171-200 | `total_functions` grows by one; documented and typed grow iff the body starts with a string constant, and iff there is a return or argument annotation |
| Quality.ReportFunctionSmells | src/tibet_forge/scanners/quality.py:173-188 | a function appends its long-name and arrow smells |
| Quality.VisitFunction | src/tibet_forge/scanners/quality.py:170-200 | a function moves the report one node step |
| Quality.VisitClass | src/tibet_forge/scanners/quality.py:202-217 | a class bumps `total_classes`, counts its docstring and appends its long-name smell |
| Quality.VisitNode | src/tibet_forge/scanners/quality.py:169-227 | one node of the walk moves the report one node step |
| Quality.WalkFile | src/tibet_forge/scanners/quality.py:169-227 | the walk loop moves the report over all nodes in walk order |
| Quality.ReportGodFile | src/tibet_forge/scanners/quality.py:148-154 | a file of more than 1000 lines gets one `god_file` smell at line 1 |
| Quality.ScanFile | src/tibet_forge/scanners/quality.py:137-227 | one file: nothing if it does not parse, else the god-file check, the LLM lines, then the walk |
| Quality.ScanFiles | src/tibet_forge/scanners/quality.py:107-110 | the file loop skips paths with a skipped directory and scans the rest in order |
| Quality.Scan | src/tibet_forge/scanners/quality.py:99-113 | a fresh report, the project-file flags, every file, then the score of the result |
| Quality.ScanScoreIsRaw | src/tibet_forge/scanners/quality.py:112 | after a scan, the cap at 100 in `calculate_score` never takes effect |
| Security.ScoreAfter | src/tibet_forge/scanners/security.py:32-47 | the score after any sequence of issues lies in [0,100] |
| Security.CountSeverity | src/tibet_forge/scanners/security.py:28-31 | a severity counter never exceeds the number of issues |
| Security.AppendFacts | src/tibet_forge/scanners/security.py:34-47 | one more issue bumps exactly its severity's counter and takes its deduction off the score, floored at 0 |
| Security.CountersSumToLength | src/tibet_forge/scanners/security.py:34-47 | the four counters always add up to the number of issues |
| Security.ScoreFromCounts | src/tibet_forge/scanners/security.py:34-47 | the score is max(0, 100 − 25·critical − 15·high − 10·medium − 5·low): flooring after each issue equals flooring once |
| Security.OneCritical | src/tibet_forge/scanners/security.py:36-38 | a single critical issue on a fresh report leaves 75 |
| Security.SecurityReport.constructor | src/tibet_forge/scanners/security.py:24-32 | a fresh report has no issues and score 100 |
| Security.SecurityReport.AddIssue | src/tibet_forge/scanners/security.py:34-47 | the issue is appended; the score drops by 25/15/10/5 for critical/high/medium/low, floored at 0; the counters still sum to the issue count |
| Security.NoNewlineNoMatch | src/tibet_forge/scanners/security.py:160 | a pattern that needs a newline cannot match text without one |
| Security.BroadExceptNeedsNewline | src/tibet_forge/scanners/security.py:160 | the broad-except pattern never matches a single line |
| Security.RegexMatchNeedsNewline | src/tibet_forge/scanners/security.py:160 | the reference matcher never fires the broad-except rule on a line without a newline |
| Security.RegexExamples | src/tibet_forge/scanners/security.py:53-184 | the reference matcher accepts "eval(x)" for the eval rule and "assert x" for the assert rule |
| Security.LineHits | src/tibet_forge/scanners/security.py:234-257 | hits of one rule name that rule and a line between 1 and the line count |
| Security.RulesHits | src/tibet_forge/scanners/security.py:232-257 | hits of the first n rules name one of those rules and a valid line |
| Security.IssuesOf | src/tibet_forge/scanners/security.py:249-257 | one issue per hit, copying the rule's fields |
| Security.FileHits | src/tibet_forge/scanners/security.py:219-257 | a file's hits name rules of the table |
| Security.TestPartSkipped | src/tibet_forge/scanners/security.py:214-217 | a path with a `test` component, such as a/test/x.py, is skipped |
| Security.TestsPartNotSkipped | src/tibet_forge/scanners/security.py:214-217 | a/tests/x.py is not skipped: the match is on whole components, not substrings |
| Security.LineHitsSorted | src/tibet_forge/scanners/security.py:234 | one rule's hits come in ascending line order |
| Security.RulesHitsSorted | src/tibet_forge/scanners/security.py:232-234 | a file's hits are ordered rule-major, then by line |
| Security.LineHitsIff | src/tibet_forge/scanners/security.py:234-257 | rule k hits line i iff i is a line number and that line is not skipped and matches the rule |
| Security.RulesHitsIff | src/tibet_forge/scanners/security.py:232-257 | the same over the first n rules, so one line can be hit by several rules |
| Security.BroadExceptNeverFires | src/tibet_forge/scanners/security.py:160-230 | with any matcher faithful to the newline in the broad-except pattern, no file ever gets that rule's issue |
| Security.LineHitsStep | src/tibet_forge/scanners/security.py:234-257 | one more line adds its issue exactly when it is flagged |
| Security.CheckLine | src/tibet_forge/scanners/security.py:235-257 | a flagged line appends one issue at its number; any other line changes nothing |
| Security.ScanRule | src/tibet_forge/scanners/security.py:233-257 | the line loop appends the issues of one rule's hits in line order |
| Security.RulesIssuesStep | src/tibet_forge/scanners/security.py:232 | one more rule appends that rule's issues |
| Security.ScanRules | src/tibet_forge/scanners/security.py:232-257 | the rule loop appends the issues of all rules, rule-major |
| Security.ScanFile | src/tibet_forge/scanners/security.py:219-257 | `_scan_file` appends the file's issues, and none for the scanner's own file |
| Security.FilesIssuesStep | src/tibet_forge/scanners/security.py:207-210 | one more file adds its issues unless a path component is skipped (including "test") |
| Security.ScanFiles | src/tibet_forge/scanners/security.py:207-210 | the file loop appends the issues of every file not skipped |
| Security.Scan | src/tibet_forge/scanners/security.py:203-212 | a fresh report holds the issues of all files, and its score is what those issues give |
| Duplicate.KeywordsIn | src/tibet_forge/scanners/duplicate.py:152 | keywords are lowercase words of at least four letters |
| Duplicate.KeywordExamples | src/tibet_forge/scanners/duplicate.py:152 | "a vector search" yields "vector"; "search_x" and "llm" yield none |
| Duplicate.CountIn | src/tibet_forge/scanners/duplicate.py:181 | the number of matched signature words is at most the number of words |
| Duplicate.Similarity | src/tibet_forge/scanners/duplicate.py:181-182 | similarity lies in [0,1] |
| Duplicate.ThresholdIsTwo | src/tibet_forge/scanners/duplicate.py:184 | for the five-word signatures, similarity ≥ 0.4 iff at least two words match |
| Duplicate.Index | src/tibet_forge/scanners/duplicate.py:36-81 | each signature has its position in the `KNOWN_PROJECTS` order |
| Duplicate.MatchesUpToElements | src/tibet_forge/scanners/duplicate.py:179-187 | each reported project carries the similarity of its signature, at least 0.4 |
| Duplicate.MatchesUpToOrdered | src/tibet_forge/scanners/duplicate.py:179-187 | reported projects come in registry order |
| Duplicate.MatchesUpToIff | src/tibet_forge/scanners/duplicate.py:179-187 | a signature among the first n is reported iff at least two of its words match |
| Duplicate.MatchedIff | src/tibet_forge/scanners/duplicate.py:175-187 | a signature is reported iff two of its words are among imports ∪ functions ∪ keywords; no signature twice; similarities as computed |
| Duplicate.MaxSimilarity | src/tibet_forge/scanners/duplicate.py:201 | the maximum is at least every similarity and is one of them |
| Duplicate.ScoreBounds | src/tibet_forge/scanners/duplicate.py:194-202 | the score is 100 iff nothing matches, and otherwise between 0 and 60 |
| Duplicate.ScoreAntitone | src/tibet_forge/scanners/duplicate.py:200-202 | a higher maximum similarity never gives a higher score |
| Duplicate.MatchExample | src/tibet_forge/scanners/duplicate.py:175-202 | chromadb, vector, embedding and search match only the RAG signature (class names do not count), at 0.4, for a score of 60 |
| Duplicate.AddNodeUnion | src/tibet_forge/scanners/duplicate.py:139-149 | a node adds its features independently of what was collected before |
| Duplicate.AddNodesUnion | src/tibet_forge/scanners/duplicate.py:139-149 | a walk adds the union of its nodes' features |
| Duplicate.AddFileUnion | src/tibet_forge/scanners/duplicate.py:128-153 | a file adds the union of its own features |
| Duplicate.FilePatternsEmpty | src/tibet_forge/scanners/duplicate.py:128-153 | the file loop never adds patterns |
| Duplicate.AddNodesPatterns | src/tibet_forge/scanners/duplicate.py:139-149 | the node loop leaves the patterns alone |
| Duplicate.GatheredMembers | src/tibet_forge/scanners/duplicate.py:128-153 | each gathered feature set is exactly the union of the files' own sets |
| Duplicate.IntentOrderIndependent | src/tibet_forge/scanners/duplicate.py:118-172 | the features, the hash input and the matches do not depend on the order of the files |
| Duplicate.TaggedUpToIff | src/tibet_forge/scanners/duplicate.py:157-160 | a signature among the first n is tagged iff at least two of its words match |
| Duplicate.TaggedIff | src/tibet_forge/scanners/duplicate.py:155-160 | a pattern is tagged iff two of its words are among imports ∪ functions ∪ classes ∪ keywords |
| Duplicate.JoinEmptyIff | src/tibet_forge/scanners/duplicate.py:168 | a join of non-empty parts is empty iff there are no parts |
| Duplicate.SortedClean | src/tibet_forge/scanners/duplicate.py:168-171 | sorted identifiers are non-empty and contain neither "," nor "\|" |
| Duplicate.SortedJoinInjective | src/tibet_forge/scanners/duplicate.py:168-171 | two sets of identifiers with the same sorted join are equal |
| Duplicate.PatternNamesClean | src/tibet_forge/scanners/duplicate.py:171 | the pattern names are clean identifiers |
| Duplicate.PatternNamesInjective | src/tibet_forge/scanners/duplicate.py:171 | different pattern sets give different name sets |
| Duplicate.HashInputSplits | src/tibet_forge/scanners/duplicate.py:167-172 | splitting the hash input at "\|" gives back its four sorted joins |
| Duplicate.HashInputIdentifies | src/tibet_forge/scanners/duplicate.py:164-172 | equal hash inputs mean equal imports, functions, classes and patterns; keywords are not part of it |
| Duplicate.DuplicateReport.constructor | src/tibet_forge/scanners/duplicate.py:26-32 | a fresh report has an empty hash, no similar projects or features, and score 100 |
| Duplicate.AddImportRoots | src/tibet_forge/scanners/duplicate.py:141-142 | `import a.b` adds the first dotted component of each alias's name |
| Duplicate.CollectNodes | src/tibet_forge/scanners/duplicate.py:139-149 | the node loop collects import roots, module roots and lowercased function and class names |
| Duplicate.CollectFile | src/tibet_forge/scanners/duplicate.py:128-153 | one file adds its node features and its keywords, or nothing when skipped or unparsable |
| Duplicate.TagPatterns | src/tibet_forge/scanners/duplicate.py:155-160 | the tagging loop adds exactly the signatures with two matched words |
| Duplicate.ExtractIntent | src/tibet_forge/scanners/duplicate.py:118-162 | `_extract_intent` produces the intent features of the files |
| Duplicate.DuplicateScanner.constructor | src/tibet_forge/scanners/duplicate.py:94-96 | the scanner keeps the registry URL and starts with a fresh report |
| Duplicate.DuplicateScanner.MatchKnownProjects | src/tibet_forge/scanners/duplicate.py:175-187 | the reported projects of the features are appended |
| Duplicate.DuplicateScanner.CalculateScore | src/tibet_forge/scanners/duplicate.py:194-202 | the score becomes 100 with no similar project, else int((1 − max similarity)·100) |
| Duplicate.DuplicateScanner.Scan | src/tibet_forge/scanners/duplicate.py:98-116 | a fresh report with the hash of the intent's hash input, the matches and their score, the same with or without the online check |
| Forge.ForgeResult.constructor | src/tibet_forge/forge.py:16-28 | a fresh result has a fresh empty trust score, no reports, and is not wrapped or certified with an empty badge |
| Forge.ForgeResult.WithReports | src/tibet_forge/forge.py:65-85 | a fresh result holding the given reports, with an empty trust score |
| Forge.ForgeResult.Finish | src/tibet_forge/forge.py:109-118 | certified iff total ≥ the configured minimum; the badge is filled exactly then; `wrapped` stays false; the components are untouched |
| Forge.UnderHalfRatio | src/tibet_forge/forge.py:195 | documented/total < 0.5 iff 2·documented < total |
| Forge.QualitySuggestions | src/tibet_forge/forge.py:186-197 | the appending method gives the suggestion list of the report |
| Forge.QualityAdviceIff | src/tibet_forge/forge.py:186-197 | one suggestion each iff README, license or tests is missing, and the docstring one iff functions exist and under half are documented |
| Forge.HasTibetIntegration | src/tibet_forge/forge.py:199-210 | the early-returning loop finds TIBET exactly when the fold over the files does |
| Forge.TibetPrefix | src/tibet_forge/forge.py:206-207 | a mention in a prefix of the files is a mention in all of them, so returning early is sound |
| Forge.TibetIntegratedIff | src/tibet_forge/forge.py:199-210 | TIBET is integrated iff some file outside `__pycache__` mentions "tibet" in any case or "TIBETProvider" |
| Forge.ProvenanceValues | src/tibet_forge/forge.py:172-183 | provenance is 50, 75 or 100, and carries its suggestion iff neither a pyproject nor TIBET is there |
| Forge.SuggestionCaps | src/tibet_forge/forge.py:145-167 | suggestions are capped at 3 security, 3 bloat and 2 similar projects, each formatted from its item |
| Forge.WrapProject | src/tibet_forge/forge.py:212-223 | wrapping never reports that it wrapped anything |
| Forge.AddIf | src/tibet_forge/forge.py:127-168 | a component is appended, clamped, only when its report is present |
| Forge.AddReportParts | src/tibet_forge/forge.py:126-168 | the report components are appended in the order quality, security, efficiency, uniqueness, each only if its report is present |
| Forge.CalculateTrustScore | src/tibet_forge/forge.py:122-184 | the report components, then provenance, are appended to the trust score |
| Forge.ComponentsLength | src/tibet_forge/forge.py:126-184 | one component per present report plus provenance, which always comes last with weight 0.15 |
| Forge.ComponentsWeight | src/tibet_forge/forge.py:126-184 | the weights add up to 0.15 plus 0.25/0.25/0.20/0.15 for each present report, so to 1 when all are present |
| Forge.ComponentsClamped | src/tibet_forge/forge.py:126-184 | every component score is in [0,100] with a positive weight |
| Forge.PipelineTotalInRange | src/tibet_forge/forge.py:122-184 | the pipeline's trust total lies in [0,100] |
| Forge.RunBloat | src/tibet_forge/forge.py:72-73 | a bloat report exists iff its toggle is on; it is Valid and its counters are the files' pass followed by the manifest pass in the returned order of the found set |
| Forge.RunDuplicates | src/tibet_forge/forge.py:75-79 | a duplicate report exists iff its toggle is on; it holds the matches of the files' intent, the uniqueness score of those matches, the hash of the intent and no unique features |
| Forge.RunSecurity | src/tibet_forge/forge.py:81-82 | a security report exists iff its toggle is on; it is Valid, holds the issues of the files, and its score is the floored deduction over them |
| Forge.RunQuality | src/tibet_forge/forge.py:85 | the quality scan always runs; its counters are the files' tally, its four flags come from the top-level entries, and its score is QualityScore of them |
| Forge.Forge.constructor | src/tibet_forge/forge.py:42-50 | the forge takes the given configuration or the default, and its duplicate scanner the configured registry URL |
| Forge.Forge.Scan | src/tibet_forge/forge.py:52-90 | the enabled reports are present, quality always; each report's counters, flags and score are its scanner's result on the files; the trust score holds their components in order then provenance; nothing is certified yet |
| Forge.Forge.Certify | src/tibet_forge/forge.py:92-120 | the scan's components; certified iff total ≥ `min_score_for_badge`; the badge exactly then; never wrapped |
| Shame.NewEntryDefaults | src/tibet_forge/shame.py:56-74 | all given fields are kept; an empty time becomes now; an empty id becomes the first 12 characters of the hash of URL and time (exactly 12 when the digest is that long) |
| Shame.InsertionPoint | src/tibet_forge/shame.py:92 | a stable sort puts a new entry behind all entries whose score is not above its own |
| Shame.InsertSorted | src/tibet_forge/shame.py:92 | inserting into a sorted list keeps it sorted |
| Shame.InsertPermutes | src/tibet_forge/shame.py:92 | inserting adds exactly the new entry |
| Shame.InsertStable | src/tibet_forge/shame.py:92 | inserting keeps the relative order of entries with equal scores, as appending would |
| Shame.SortByScoreSpec | src/tibet_forge/shame.py:92 | the sort is sorted by score, a permutation, and stable for every score value |
| Shame.SortByScorePermutes | src/tibet_forge/shame.py:92 | the sort is a permutation |
| Shame.SortByScoreSorted | src/tibet_forge/shame.py:92 | a sorted list is left as it is |
| Shame.ChampionSpec | src/tibet_forge/shame.py:105-117 | an award is empty iff it was empty and the category has no entry; it changes only to a strictly lower entry of its category; it ends with a lowest score of the category |
| Shame.ChampionOtherCategory | src/tibet_forge/shame.py:105-117 | an entry of another category never changes an award |
| Shame.AwardKept | src/tibet_forge/shame.py:105-117 | an award that was a lowest entry of its category before an insertion is one after re-running the loop |
| Shame.HallOfShame.constructor | src/tibet_forge/shame.py:77-87 | a fresh hall has no entries, no time and no awards |
| Shame.HallOfShame.UpdateAwards | src/tibet_forge/shame.py:96-117 | with no entries nothing changes; otherwise the month's award is the first entry and each category award is the loop's champion |
| Shame.HallOfShame.AddEntry | src/tibet_forge/shame.py:89-94 | the entries become the stable sort of the old entries plus the new one, the time is now, and the awards are recomputed |
| Shame.AddEntryOrder | src/tibet_forge/shame.py:89-94 | after `add_entry` there is one more entry, sorted, a permutation, stable, with a lowest score first |
| Shame.AddEntryInserts | src/tibet_forge/shame.py:91-92 | on sorted entries, append-then-sort is insertion at the stable point |
| Shame.Buckets | src/tibet_forge/shame.py:155-180 | there are four buckets |
| Shame.BucketsAtMost100 | src/tibet_forge/shame.py:155-180 | deductions only lower a bucket from 100 |
| Shame.FirstMin | src/tibet_forge/shame.py:183 | the first index of a smallest value |
| Shame.ShameCategory | src/tibet_forge/shame.py:153-183 | the category is the first of bloat_king, security_nightmare, spaghetti_master, over_engineer whose bucket is minimal |
| Shame.NoDeductionsIsBloatKing | src/tibet_forge/shame.py:155-183 | a result without deductions is categorised bloat_king |
| Shame.RoastsForAnyCategory | src/tibet_forge/shame.py:190 | every category has three roasts, and an unknown one gets the over_engineer roasts |
| Shame.ExtrasAtMostThree | src/tibet_forge/shame.py:193-204 | there are at most three extras |
| Shame.RoastTextStartsWithBase | src/tibet_forge/shame.py:206-209 | the roast starts with its base |
| Shame.RoastTextBonusIff | src/tibet_forge/shame.py:206-209 | the roast differs from its base iff there are extras |
| Shame.RoastStartsWithBase | src/tibet_forge/shame.py:186-209 | the custom roast starts with the chosen base roast |
| Shame.BonusIff | src/tibet_forge/shame.py:193-209 | a bonus suffix appears iff more than 5 unused imports, a critical issue or an `llm_artifact` smell |
| Shame.SecurityHighlightsCount | src/tibet_forge/shame.py:217-219 | up to 3 security highlights |
| Shame.BloatHighlightsCount | src/tibet_forge/shame.py:222-224 | up to 2 bloat highlights |
| Shame.SmellHighlightsCount | src/tibet_forge/shame.py:227-229 | up to 2 smell highlights |
| Shame.SecurityHighlightsShape | src/tibet_forge/shame.py:217-219 | security highlights are "[SEVERITY] description" of the first issues |
| Shame.BloatHighlightsShape | src/tibet_forge/shame.py:222-224 | bloat highlights are the descriptions of the first issues |
| Shame.SmellHighlightsShape | src/tibet_forge/shame.py:227-229 | smell highlights are "type: context[:30]..." of the first smells |
| Shame.HighlightsLength | src/tibet_forge/shame.py:212-231 | at most five highlights, fewer only when the reports offer fewer |
| Shame.HighlightsSecurityFirst | src/tibet_forge/shame.py:217-219 | the security highlights come first |
| Shame.HighlightsBloatNext | src/tibet_forge/shame.py:222-224 | the bloat highlights come next |
| Shame.HighlightsSmellsLast | src/tibet_forge/shame.py:227-231 | any highlight after those is a smell highlight, in smell order |

## Left out

- File-system work (`rglob`, `read_text`, `exists`) is left out: files, root entries and their contents are inputs. Reading errors other than a file that does not parse are not modelled.
- `ast.parse` and the exact node set of Python's AST are not modelled: the tree datatype has only the node kinds the scanners look at, plus a generic node.
- `re.search`, `re.IGNORECASE` and `re.findall` are not modelled in general. Security rules go through the `matches` parameter. The keyword regex is written out as maximal runs of ASCII word characters.
- `lower()` and `upper()` are ASCII only. There is no Unicode case mapping.
- Floating point is left out. Weights and similarities are exact rationals, so `int()` can differ from Python by one. For example, a similarity of 4/5 gives 20 here, while Python computes `int((1-0.8)*100)` = 19.
- SHA-256 (the intent hash and `shame_id`), the clock and `random.choice` are parameters, not models.
- Python set iteration order (`deps_found` in the manifest pass) is not modelled: `Bloat.ReportManifestDeps` holds for any order and returns the one it used.
- The online registry check is not modelled beyond being a no-op.
- `_wrap_project` is a stub that returns False, and is modelled that way.
- Aliasing of the module-level `SimilarProject` objects that `_match_known_projects` mutates is not modelled. A match is a value holding its signature and similarity.
- `Security.SecurityReport.AddIssue`: the source's fallback branch counts any unknown severity as low. Every rule of the table has one of the four severities, so the model's severity type has only those four.
- `Score.TrustScore.summary` (text layout) is not modelled.
- `HallOfShame.to_dict`, `save`, `load` and `format_shame_display` are not modelled. They are JSON and text I/O.
- cli.py, config.py (`ForgeConfig` loading and saving) and wrappers/ are not part of this model. The configuration fields the pipeline reads are the `Forge.Config` value, and `DefaultConfig` holds the defaults.
- `Forge.Forge.Scan` loads the project's own `ForgeConfig` into the result, but never reads it. That field is not modelled; the toggles and badge settings come from the forge's configuration, as in the source.
- `Forge.ForgeResult.WithReports`: the scanners run before the result is built, and the result is then built holding their reports. The source builds the result first and assigns the reports to it. Nothing reads the reports in between, so the final state is the same.
- `Forge.Forge.Certify` states the trust-score components, certification, badge and `wrapped`. It does not restate every report field that `Forge.Forge.Scan` states.
- `Shame.HallOfShame.AddEntry` computes the sorted list with a functional stable insertion sort (`SortByScore`) and then assigns it. It does not sort the list in place.
- `Shame.HighlightsSmellsLast`: this is stated per position (for a given index k), not as one quantified statement.
- `Duplicate.DuplicateScanner.MatchKnownProjects`: this states only `similar_projects`. Its frame allows no other change.
