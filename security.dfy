/** The security scanner: an ordered table of dangerous-pattern rules
    applied to every line of every Python file, and a report whose score
    drops with each issue by its severity. The regular-expression engine is
    a parameter `matches(rule, line)`; `RegexMatch` is a reference matcher
    for the table's patterns. */
module Security {
  import opened Common
  import opened PyAst

  datatype Severity = Critical | High | Medium | Low

  function SeverityName(s: Severity): string {
    match s
    case Critical => "critical"
    case High => "high"
    case Medium => "medium"
    case Low => "low"
  }

  /** A finding of a rule of the table at a line; every other field of the
      issue is copied from the rule. */
  datatype SecurityIssue = SecurityIssue(file: string, line: int, rule: RuleId)
  {
    function issueType(): string { RuleType(rule) }
    function severity(): Severity { RuleSeverity(rule) }
    function description(): string { RuleDescription(rule) }
    function suggestion(): string { RuleSuggestion(rule) }
    function cwe(): string { RuleCwe(rule) }
  }

  // ----- The report -----

  /** What `add_issue` takes off the score. */
  function Deduction(s: Severity): nat {
    match s
    case Critical => 25
    case High => 15
    case Medium => 10
    case Low => 5
  }

  /** The score after a fresh report received `issues` in order. */
  function ScoreAfter(issues: seq<SecurityIssue>): (r: int)
    ensures 0 <= r <= 100
    decreases |issues|
  {
    if issues == [] then 100
    else
      var prev := ScoreAfter(issues[..|issues| - 1]);
      var next := prev - Deduction(issues[|issues| - 1].severity());
      if next < 0 then 0 else next
  }

  /** The number of issues of a severity. */
  function CountSeverity(issues: seq<SecurityIssue>, s: Severity): (r: nat)
    ensures r <= |issues|
    decreases |issues|
  {
    if issues == [] then 0
    else CountSeverity(issues[..|issues| - 1], s) + (if issues[|issues| - 1].severity() == s then 1 else 0)
  }

  /** What one more issue does to the counters and the score. */
  lemma AppendFacts(issues: seq<SecurityIssue>, x: SecurityIssue)
    ensures forall s :: CountSeverity(issues + [x], s) == CountSeverity(issues, s) + (if x.severity() == s then 1 else 0)
    ensures ScoreAfter(issues + [x])
            == if ScoreAfter(issues) - Deduction(x.severity()) < 0 then 0 else ScoreAfter(issues) - Deduction(x.severity())
  {
    assert (issues + [x])[..|issues|] == issues;
  }

  /** The four counters always add up to the number of issues. */
  lemma {:induction false} CountersSumToLength(issues: seq<SecurityIssue>)
    ensures CountSeverity(issues, Critical) + CountSeverity(issues, High) + CountSeverity(issues, Medium)
            + CountSeverity(issues, Low) == |issues|
    decreases |issues|
  {
    if issues != [] {
      CountersSumToLength(issues[..|issues| - 1]);
    }
  }

  /** The score depends only on the four counters: flooring after every
      issue is the same as flooring once, so the score is
      `max(0, 100 - 25 critical - 15 high - 10 medium - 5 low)` (and more
      issues never raise it). */
  lemma {:induction false} ScoreFromCounts(issues: seq<SecurityIssue>)
    ensures var d := 25 * CountSeverity(issues, Critical) + 15 * CountSeverity(issues, High)
                     + 10 * CountSeverity(issues, Medium) + 5 * CountSeverity(issues, Low);
            ScoreAfter(issues) == if d >= 100 then 0 else 100 - d
    decreases |issues|
  {
    if issues != [] {
      ScoreFromCounts(issues[..|issues| - 1]);
    }
  }

  /** One critical finding on a fresh report leaves 75. */
  lemma OneCritical(x: SecurityIssue)
    requires x.severity() == Critical
    ensures ScoreAfter([x]) == 75
  {
    assert [x][..0] == [];
  }

  class SecurityReport {
    var issues: seq<SecurityIssue>
    var criticalCount: nat
    var highCount: nat
    var mediumCount: nat
    var lowCount: nat
    var score: int

    /** The counters and the score are those of the issues so far. */
    ghost predicate Valid()
      reads this
    {
      criticalCount == CountSeverity(issues, Critical) && highCount == CountSeverity(issues, High)
      && mediumCount == CountSeverity(issues, Medium) && lowCount == CountSeverity(issues, Low)
      && score == ScoreAfter(issues)
    }

    constructor ()
      ensures Valid() && issues == [] && score == 100
    {
      issues := [];
      criticalCount, highCount, mediumCount, lowCount := 0, 0, 0, 0;
      score := 100;
    }

    /** `add_issue`: append, bump the severity's counter, deduct floored at 0. */
    method AddIssue(issue: SecurityIssue)
      requires Valid()
      modifies this
      ensures Valid()
      ensures issues == old(issues) + [issue]
      ensures score == if old(score) < Deduction(issue.severity()) then 0 else old(score) - Deduction(issue.severity())
      ensures criticalCount + highCount + mediumCount + lowCount == |issues|
    {
      AppendFacts(issues, issue);
      issues := issues + [issue];
      var sev := issue.severity();
      match sev {
        case Critical =>
          criticalCount := criticalCount + 1;
          score := if score - 25 < 0 then 0 else score - 25;
        case High =>
          highCount := highCount + 1;
          score := if score - 15 < 0 then 0 else score - 15;
        case Medium =>
          mediumCount := mediumCount + 1;
          score := if score - 10 < 0 then 0 else score - 10;
        case Low =>
          lowCount := lowCount + 1;
          score := if score - 5 < 0 then 0 else score - 5;
      }
      CountersSumToLength(issues);
    }
  }

  // ----- The rule table (`DANGEROUS_PATTERNS`) -----

  datatype RuleId =
    | Eval | Exec | ShellTrue | OsSystem | Pickle | YamlLoad | Password | ApiKey
    | SqlFormat | VerifyFalse | SecretAssign | Md5 | Sha1 | BroadExcept | FStringSql | AssertStmt

  /** The number of rules in the table. */
  const RuleCount: nat := 16

  /** The rule at position `k` of the table. */
  function RuleAt(k: nat): RuleId
    requires k < RuleCount
  {
    if k == 0 then Eval else if k == 1 then Exec else if k == 2 then ShellTrue
    else if k == 3 then OsSystem else if k == 4 then Pickle else if k == 5 then YamlLoad
    else if k == 6 then Password else if k == 7 then ApiKey else if k == 8 then SqlFormat
    else if k == 9 then VerifyFalse else if k == 10 then SecretAssign else if k == 11 then Md5
    else if k == 12 then Sha1 else if k == 13 then BroadExcept else if k == 14 then FStringSql
    else AssertStmt
  }

  function RuleType(r: RuleId): string {
    match r
    case Eval => "code_injection"
    case Exec => "code_injection"
    case ShellTrue => "command_injection"
    case OsSystem => "command_injection"
    case Pickle => "deserialization"
    case YamlLoad => "deserialization"
    case Password => "hardcoded_secret"
    case ApiKey => "hardcoded_secret"
    case SqlFormat => "sql_injection"
    case VerifyFalse => "insecure_ssl"
    case SecretAssign => "hardcoded_secret"
    case Md5 => "weak_crypto"
    case Sha1 => "weak_crypto"
    case BroadExcept => "error_handling"
    case FStringSql => "sql_injection"
    case AssertStmt => "debug_code"
  }

  function RuleSeverity(r: RuleId): Severity {
    match r
    case Eval => Critical
    case Exec => Critical
    case ShellTrue => High
    case OsSystem => High
    case Pickle => High
    case YamlLoad => Medium
    case Password => High
    case ApiKey => High
    case SqlFormat => Critical
    case VerifyFalse => Medium
    case SecretAssign => High
    case Md5 => Medium
    case Sha1 => Low
    case BroadExcept => Medium
    case FStringSql => Critical
    case AssertStmt => Low
  }

  function RuleDescription(r: RuleId): string {
    match r
    case Eval => "Use of eval() - allows arbitrary code execution"
    case Exec => "Use of exec() - allows arbitrary code execution"
    case ShellTrue => "Shell=True in subprocess - risk of command injection"
    case OsSystem => "os.system() - risk of command injection"
    case Pickle => "Pickle deserialization - risk of arbitrary code execution"
    case YamlLoad => "Unsafe YAML load - use safe_load()"
    case Password => "Hardcoded password detected"
    case ApiKey => "Hardcoded API key detected"
    case SqlFormat => "SQL query with string formatting - potential injection"
    case VerifyFalse => "SSL verification disabled"
    case SecretAssign => "Hardcoded secret/key detected"
    case Md5 => "MD5 is cryptographically weak"
    case Sha1 => "SHA1 is deprecated for security use"
    case BroadExcept => "Broad exception silently ignored"
    case FStringSql => "F-string in SQL query - potential injection"
    case AssertStmt => "Assert can be disabled with python -O"
  }

  function RuleSuggestion(r: RuleId): string {
    match r
    case Eval => "Use ast.literal_eval() for safe evaluation"
    case Exec => "Avoid exec(), use safer alternatives"
    case ShellTrue => "Use shell=False and pass args as list"
    case OsSystem => "Use subprocess with shell=False"
    case Pickle => "Use JSON or other safe serialization"
    case YamlLoad => "Use yaml.safe_load() instead"
    case Password => "Use environment variables or secrets manager"
    case ApiKey => "Use environment variables"
    case SqlFormat => "Use parameterized queries"
    case VerifyFalse => "Enable SSL verification"
    case SecretAssign => "Use environment variables or secrets manager"
    case Md5 => "Use SHA-256 or stronger: hashlib.sha256()"
    case Sha1 => "Use SHA-256 or stronger"
    case BroadExcept => "Handle specific exceptions or log the error"
    case FStringSql => "Use parameterized queries"
    case AssertStmt => "Use explicit validation instead of assert"
  }

  function RuleCwe(r: RuleId): string {
    match r
    case Eval => "CWE-95"
    case Exec => "CWE-95"
    case ShellTrue => "CWE-78"
    case OsSystem => "CWE-78"
    case Pickle => "CWE-502"
    case YamlLoad => "CWE-502"
    case Password => "CWE-798"
    case ApiKey => "CWE-798"
    case SqlFormat => "CWE-89"
    case VerifyFalse => "CWE-295"
    case SecretAssign => "CWE-798"
    case Md5 => "CWE-328"
    case Sha1 => "CWE-328"
    case BroadExcept => "CWE-390"
    case FStringSql => "CWE-89"
    case AssertStmt => "CWE-617"
  }


  // ----- A reference matcher for the table's patterns -----

  /** The character classes the patterns use: `\s`, and a negated set
      (`.` is the negated set of the newline). */
  datatype CharClass = Space | NotIn(chars: seq<char>)

  /** A literal, a choice between literals (`(a|b)`, `x?` as `(x|)`), or at
      least `min` characters of a class (`*` is 0, `+` is 1, `{8,}` is 8). */
  datatype Tok = Lit(text: string) | Alt(options: seq<string>) | Run(cls: CharClass, min: nat)

  /** A pattern; `anchored` is a leading `^`. Literals are lower case: the
      scanner searches with `re.IGNORECASE`. */
  datatype Pattern = Pattern(anchored: bool, toks: seq<Tok>)

  predicate InClass(c: CharClass, ch: char) {
    match c
    case Space => IsSpace(ch)
    case NotIn(chars) => ch !in chars
  }

  /** Some way of matching `toks` against a prefix of `s`. */
  predicate MatchPrefix(toks: seq<Tok>, s: string)
    decreases |toks|, |s|
  {
    if toks == [] then true
    else
      match toks[0]
      case Lit(t) => StartsWith(s, t) && MatchPrefix(toks[1..], s[|t|..])
      case Alt(opts) =>
        exists k :: 0 <= k < |opts| && StartsWith(s, opts[k]) && MatchPrefix(toks[1..], s[|opts[k]|..])
      case Run(c, min) =>
        if min > 0 then
          |s| > 0 && InClass(c, s[0]) && MatchPrefix([Run(c, min - 1)] + toks[1..], s[1..])
        else
          MatchPrefix(toks[1..], s) || (|s| > 0 && InClass(c, s[0]) && MatchPrefix(toks, s[1..]))
  }

  /** `re.search(pattern, line, re.IGNORECASE)` succeeds. */
  predicate Search(p: Pattern, line: string) {
    var l := Lower(line);
    if p.anchored then MatchPrefix(p.toks, l)
    else exists i :: 0 <= i <= |l| && MatchPrefix(p.toks, l[i..])
  }

  const S0 := Run(Space, 0)
  const AnyRun := Run(NotIn("\n"), 0)
  const Quote := Alt(["'", "\""])
  const SqlWords := Alt(["select", "insert", "update", "delete", "from", "where"])

  /** Each rule's regular expression, token by token. */
  function RulePattern(r: RuleId): Pattern {
    match r
    case Eval => Pattern(false, [Lit("eval"), S0, Lit("(")])
    case Exec => Pattern(false, [Lit("exec"), S0, Lit("(")])
    case ShellTrue => Pattern(false, [Lit("subprocess."), AnyRun, Lit("shell"), S0, Lit("="), S0, Lit("true")])
    case OsSystem => Pattern(false, [Lit("os.system"), S0, Lit("(")])
    case Pickle => Pattern(false, [Lit("pickle.load"), Alt(["s", ""]), S0, Lit("(")])
    case YamlLoad => Pattern(false, [Lit("yaml.load"), S0, Lit("("), Run(NotIn(")"), 0), Lit(")")])
    case Password => Pattern(false, [Lit("password"), S0, Lit("="), S0, Quote, Run(NotIn("'\""), 1), Quote])
    case ApiKey => Pattern(false, [Lit("api_key"), S0, Lit("="), S0, Quote, Run(NotIn("'\""), 1), Quote])
    case SqlFormat => Pattern(false, [SqlWords, AnyRun, Lit(".format"), S0, Lit("(")])
    case VerifyFalse => Pattern(false, [Lit("verify"), S0, Lit("="), S0, Lit("false")])
    case SecretAssign =>
      Pattern(false, [Alt(["secret", "key", "token", "credential", "auth"]), S0, Lit("="), S0,
                      Quote, Run(NotIn("'\""), 8), Quote])
    case Md5 => Pattern(false, [Lit("hashlib.md5"), S0, Lit("(")])
    case Sha1 => Pattern(false, [Lit("hashlib.sha1"), S0, Lit("(")])
    case BroadExcept =>
      Pattern(false, [Lit("except"), S0, Alt(["exception", ""]), Lit(":"), S0, Lit("\n"), S0, Alt(["pass", "..."])])
    case FStringSql => Pattern(false, [Lit("f"), Quote, AnyRun, SqlWords, AnyRun, Lit("{")])
    case AssertStmt => Pattern(true, [Lit("assert"), Run(Space, 1)])
  }

  /** The reference matcher. */
  predicate RegexMatch(r: RuleId, line: string) {
    Search(RulePattern(r), line)
  }

  /** Some literal of the pattern holds a newline. */
  predicate NeedsNewline(toks: seq<Tok>) {
    exists k :: 0 <= k < |toks| && toks[k].Lit? && '\n' in toks[k].text
  }

  /** A pattern with a newline literal cannot match a text without one. */
  lemma {:induction false} NoNewlineNoMatch(toks: seq<Tok>, s: string)
    requires NeedsNewline(toks) && '\n' !in s
    ensures !MatchPrefix(toks, s)
    decreases |toks|, |s|
  {
    var k :| 0 <= k < |toks| && toks[k].Lit? && '\n' in toks[k].text;
    assert forall j :: 0 <= j <= |s| ==> '\n' !in s[j..];
    match toks[0]
    case Lit(t) =>
      if k != 0 {
        assert toks[1..][k - 1] == toks[k];
        if StartsWith(s, t) {
          NoNewlineNoMatch(toks[1..], s[|t|..]);
        }
      }
    case Alt(opts) =>
      assert toks[1..][k - 1] == toks[k];
      forall j | 0 <= j < |opts| && StartsWith(s, opts[j])
        ensures !MatchPrefix(toks[1..], s[|opts[j]|..])
      {
        NoNewlineNoMatch(toks[1..], s[|opts[j]|..]);
      }
    case Run(c, min) =>
      if min > 0 {
        var next := [Run(c, min - 1)] + toks[1..];
        assert next[k] == toks[k];
        if |s| > 0 {
          NoNewlineNoMatch(next, s[1..]);
        }
      } else {
        assert toks[1..][k - 1] == toks[k];
        NoNewlineNoMatch(toks[1..], s);
        if |s| > 0 {
          NoNewlineNoMatch(toks, s[1..]);
        }
      }
  }

  lemma LowerKeepsNoNewline(s: string)
    requires '\n' !in s
    ensures '\n' !in Lower(s)
  {
    var l := Lower(s);
    forall i | 0 <= i < |l|
      ensures l[i] != '\n'
    {
      assert s[i] in s;
    }
  }

  /** The broad-except pattern needs a newline, and no line of
      `split("\n")` has one. */
  lemma BroadExceptNeedsNewline(line: string)
    requires '\n' !in line
    ensures !RegexMatch(BroadExcept, line)
  {
    var toks := RulePattern(BroadExcept).toks;
    assert toks[5] == Lit("\n");
    var l := Lower(line);
    LowerKeepsNoNewline(line);
    forall i | 0 <= i <= |l|
      ensures !MatchPrefix(toks, l[i..])
    {
      assert '\n' !in l[i..];
      NoNewlineNoMatch(toks, l[i..]);
    }
  }

  /** `eval(` is found after a space and inside an expression, and so is
      `assert` at the start of a line. */
  lemma RegexExamples()
    ensures RegexMatch(Eval, "eval(x)")
    ensures RegexMatch(AssertStmt, "assert x")
  {
    var toks := RulePattern(Eval).toks;
    var l := Lower("eval(x)");
    assert l == "eval(x)";
    assert l[0..] == l;
    assert StartsWith(l, "eval");
    assert l[4..] == "(x)";
    assert MatchPrefix([Lit("(")], "(x)") by {
      assert StartsWith("(x)", "(");
      assert MatchPrefix([], "(x)"[1..]);
    }
    assert MatchPrefix([S0, Lit("(")], "(x)") by {
      assert [S0, Lit("(")][1..] == [Lit("(")];
    }
    assert toks[1..] == [S0, Lit("(")];
    assert MatchPrefix(toks, l[0..]);
    var a := RulePattern(AssertStmt).toks;
    var la := Lower("assert x");
    assert la == "assert x";
    assert StartsWith(la, "assert");
    assert la[6..] == " x";
    assert a[1..] == [Run(Space, 1)];
    assert MatchPrefix([Run(Space, 1)], " x") by {
      assert IsSpace(' ');
      assert " x"[1..] == "x";
      assert [Run(Space, 0)] + [Run(Space, 1)][1..] == [Run(Space, 0)];
      assert MatchPrefix([Run(Space, 0)], "x") by {
        assert [Run(Space, 0)][1..] == [];
      }
    }
  }

  // ----- Scanning -----

  /** The line filter applied before any rule. */
  predicate Skipped(line: string) {
    Contains(line, "\"pattern\"") || Contains(line, "'pattern'")
    || StartsWith(Strip(line), "#")
    || Contains(line, "r\"") || Contains(line, "r'")
    || Contains(Upper(line), "PATTERN") || Contains(Upper(line), "REGEX")
  }

  /** Rule `k` of the table reports `line`. */
  predicate Flagged(k: nat, line: string, matches: (RuleId, string) -> bool, skip: string -> bool)
    requires k < RuleCount
  {
    !skip(line) && matches(RuleAt(k), line)
  }

  /** One report: rule `k` of the table at line number `line`. */
  datatype Hit = Hit(rule: nat, line: nat)

  /** Rule-major, then by line. */
  predicate HitLess(a: Hit, b: Hit) {
    a.rule < b.rule || (a.rule == b.rule && a.line < b.line)
  }

  predicate SortedHits(hs: seq<Hit>) {
    forall i, j :: 0 <= i < j < |hs| ==> HitLess(hs[i], hs[j])
  }

  /** The hits of rule `k` over the lines (numbered from 1). */
  function LineHits(k: nat, lines: seq<string>, matches: (RuleId, string) -> bool, skip: string -> bool): (r: seq<Hit>)
    requires k < RuleCount
    ensures forall h :: h in r ==> h.rule == k && 1 <= h.line <= |lines|
    decreases |lines|
  {
    if lines == [] then []
    else
      var n := |lines|;
      LineHits(k, lines[..n - 1], matches, skip) + (if Flagged(k, lines[n - 1], matches, skip) then [Hit(k, n)] else [])
  }

  /** The hits of the first `n` rules, in the scanner's order: rule by
      rule, each over all lines. */
  function RulesHits(n: nat, lines: seq<string>, matches: (RuleId, string) -> bool, skip: string -> bool): (r: seq<Hit>)
    requires n <= RuleCount
    ensures forall h :: h in r ==> h.rule < n && 1 <= h.line <= |lines|
    decreases n
  {
    if n == 0 then [] else RulesHits(n - 1, lines, matches, skip) + LineHits(n - 1, lines, matches, skip)
  }

  function IssuesOf(path: string, hs: seq<Hit>): (r: seq<SecurityIssue>)
    requires forall h :: h in hs ==> h.rule < RuleCount
    ensures |r| == |hs|
    decreases |hs|
  {
    if hs == [] then []
    else
      var h := hs[|hs| - 1];
      IssuesOf(path, hs[..|hs| - 1]) + [SecurityIssue(path, h.line, RuleAt(h.rule))]
  }

  lemma {:induction false} IssuesOfAppend(path: string, a: seq<Hit>, b: seq<Hit>)
    requires forall h :: h in a ==> h.rule < RuleCount
    requires forall h :: h in b ==> h.rule < RuleCount
    ensures IssuesOf(path, a + b) == IssuesOf(path, a) + IssuesOf(path, b)
    decreases |b|
  {
    if b == [] {
      assert a + b == a;
    } else {
      assert (a + b)[..|a + b| - 1] == a + b[..|b| - 1];
      IssuesOfAppend(path, a, b[..|b| - 1]);
    }
  }

  /** The path filter: `__pycache__`, `.git`, `.venv`, `venv`,
      `node_modules` and `test` components. */
  const SecuritySkipParts: seq<string> := SkipParts + ["test"]

  /** A `test` directory anywhere in the path is skipped. */
  lemma TestPartSkipped()
    ensures HasPartIn("a/test/x.py", SecuritySkipParts)
  {
    PathPartsExample("a", "test", "x.py");
    assert "a" + "/" + "test" + "/" + "x.py" == "a/test/x.py";
    assert "test" in SecuritySkipParts && "test" in PathParts("a/test/x.py");
  }

  /** A `tests` directory is not: the match is on whole components. */
  lemma TestsPartNotSkipped()
    ensures !HasPartIn("a/tests/x.py", SecuritySkipParts)
  {
    assert "a" + "/" == "a/";
    assert "a/" + "tests" == "a/tests";
    assert "a/tests" + "/" == "a/tests/";
    assert "a/tests/" + "x.py" == "a/tests/x.py";
    PartsNotIn("a", "tests", "x.py", SecuritySkipParts);
  }

  /** The scanner's own file is never scanned. */
  predicate IsSelf(path: string) {
    Contains(path, "scanners/security.py")
  }

  function FileHits(f: SourceFile, matches: (RuleId, string) -> bool, skip: string -> bool): (r: seq<Hit>)
    ensures forall h :: h in r ==> h.rule < RuleCount
  {
    if IsSelf(f.path) then [] else RulesHits(RuleCount, Split(f.content, '\n'), matches, skip)
  }

  /** The issues of one file. */
  function FileIssues(f: SourceFile, matches: (RuleId, string) -> bool, skip: string -> bool): seq<SecurityIssue> {
    IssuesOf(f.path, FileHits(f, matches, skip))
  }

  /** The issues of a whole scan, file after file. */
  function FilesIssues(files: seq<SourceFile>, matches: (RuleId, string) -> bool, skip: string -> bool): seq<SecurityIssue>
    decreases |files|
  {
    if files == [] then []
    else
      var f := files[|files| - 1];
      FilesIssues(files[..|files| - 1], matches, skip)
      + (if HasPartIn(f.path, SecuritySkipParts) then [] else FileIssues(f, matches, skip))
  }

  // ----- Properties of the hits -----

  lemma {:induction false} LineHitsSorted(k: nat, lines: seq<string>, matches: (RuleId, string) -> bool, skip: string -> bool)
    requires k < RuleCount
    ensures SortedHits(LineHits(k, lines, matches, skip))
    decreases |lines|
  {
    if lines != [] {
      LineHitsSorted(k, lines[..|lines| - 1], matches, skip);
    }
  }

  lemma SortedConcat(a: seq<Hit>, b: seq<Hit>)
    requires SortedHits(a) && SortedHits(b)
    requires forall x, y :: x in a && y in b ==> HitLess(x, y)
    ensures SortedHits(a + b)
  {
    forall i, j | 0 <= i < j < |a + b|
      ensures HitLess((a + b)[i], (a + b)[j])
    {
      if j < |a| {
        assert (a + b)[i] == a[i] && (a + b)[j] == a[j];
      } else if i >= |a| {
        assert (a + b)[i] == b[i - |a|] && (a + b)[j] == b[j - |a|];
      } else {
        assert (a + b)[i] in a && (a + b)[j] in b;
      }
    }
  }

  /** Within a file the issues come rule-major, then by line number, and
      no (rule, line) pair twice. */
  lemma {:induction false} RulesHitsSorted(n: nat, lines: seq<string>, matches: (RuleId, string) -> bool, skip: string -> bool)
    requires n <= RuleCount
    ensures SortedHits(RulesHits(n, lines, matches, skip))
    decreases n
  {
    if n > 0 {
      RulesHitsSorted(n - 1, lines, matches, skip);
      LineHitsSorted(n - 1, lines, matches, skip);
      SortedConcat(RulesHits(n - 1, lines, matches, skip), LineHits(n - 1, lines, matches, skip));
    }
  }

  lemma {:induction false} LineHitsIff(k: nat, lines: seq<string>, matches: (RuleId, string) -> bool, skip: string -> bool, i: nat)
    requires k < RuleCount
    ensures Hit(k, i) in LineHits(k, lines, matches, skip)
            <==> 1 <= i <= |lines| && Flagged(k, lines[i - 1], matches, skip)
    decreases |lines|
  {
    if lines != [] {
      var n := |lines|;
      LineHitsIff(k, lines[..n - 1], matches, skip, i);
      if 1 <= i < n {
        assert lines[..n - 1][i - 1] == lines[i - 1];
      }
    }
  }

  /** Every (rule, line) pair where the line is not filtered and the rule
      matches, skip it is reported, and nothing else is. */
  lemma {:induction false} RulesHitsIff(n: nat, lines: seq<string>, matches: (RuleId, string) -> bool, skip: string -> bool, k: nat, i: nat)
    requires n <= RuleCount
    ensures Hit(k, i) in RulesHits(n, lines, matches, skip)
            <==> k < n && 1 <= i <= |lines| && Flagged(k, lines[i - 1], matches, skip)
    decreases n
  {
    if n > 0 {
      RulesHitsIff(n - 1, lines, matches, skip, k, i);
      LineHitsIff(n - 1, lines, matches, skip, i);
    }
  }

  /** With a matcher that, like the regular expression, needs a newline for
      the broad-except rule, that rule never reports anything. */
  lemma BroadExceptNeverFires(f: SourceFile, matches: (RuleId, string) -> bool, skip: string -> bool, i: nat)
    requires forall line :: '\n' !in line ==> !matches(BroadExcept, line)
    ensures Hit(13, i) !in FileHits(f, matches, skip)
  {
    assert RuleAt(13) == BroadExcept;
    if !IsSelf(f.path) {
      var lines := Split(f.content, '\n');
      RulesHitsIff(RuleCount, lines, matches, skip, 13, i);
      if 1 <= i <= |lines| {
        assert '\n' !in lines[i - 1];
      }
    }
  }

  /** The reference matcher has that property. */
  lemma RegexMatchNeedsNewline()
    ensures forall line :: '\n' !in line ==> !RegexMatch(BroadExcept, line)
  {
    forall line | '\n' !in line
      ensures !RegexMatch(BroadExcept, line)
    {
      BroadExceptNeedsNewline(line);
    }
  }

  // ----- The scanner -----

  /** The hits of one more line. */
  lemma LineHitsStep(path: string, k: nat, lines: seq<string>, i: nat, matches: (RuleId, string) -> bool, skip: string -> bool)
    requires k < RuleCount && i < |lines|
    ensures IssuesOf(path, LineHits(k, lines[..i + 1], matches, skip))
            == IssuesOf(path, LineHits(k, lines[..i], matches, skip))
               + (if Flagged(k, lines[i], matches, skip) then [SecurityIssue(path, i + 1, RuleAt(k))] else [])
  {
    assert lines[..i + 1][..i] == lines[..i];
    var prev := LineHits(k, lines[..i], matches, skip);
    var hs := LineHits(k, lines[..i + 1], matches, skip);
    if Flagged(k, lines[i], matches, skip) {
      assert hs[..|hs| - 1] == prev;
    } else {
      assert hs == prev + [];
      assert hs == prev;
      assert IssuesOf(path, prev) + [] == IssuesOf(path, prev);
    }
  }

  /** The body of the inner loop: the line filter, then the rule. */
  method CheckLine(report: SecurityReport, path: string, k: nat, lineNo: int, line: string,
                   matches: (RuleId, string) -> bool, skip: string -> bool)
    requires k < RuleCount && report.Valid()
    modifies report
    ensures report.Valid()
    ensures report.issues
            == old(report.issues) + (if Flagged(k, line, matches, skip) then [SecurityIssue(path, lineNo, RuleAt(k))] else [])
  {
    if skip(line) {
    } else if matches(RuleAt(k), line) {
      report.AddIssue(SecurityIssue(path, lineNo, RuleAt(k)));
      return;
    }
    assert report.issues + [] == report.issues;
  }

  /** The inner loop of `_scan_file` for rule `k`. */
  method ScanRule(report: SecurityReport, path: string, k: nat, lines: seq<string>,
                  matches: (RuleId, string) -> bool, skip: string -> bool)
    requires k < RuleCount && report.Valid()
    modifies report
    ensures report.Valid()
    ensures report.issues == old(report.issues) + IssuesOf(path, LineHits(k, lines, matches, skip))
  {
    var i := 0;
    while i < |lines|
      invariant 0 <= i <= |lines| && report.Valid()
      invariant report.issues == old(report.issues) + IssuesOf(path, LineHits(k, lines[..i], matches, skip))
    {
      LineHitsStep(path, k, lines, i, matches, skip);
      CheckLine(report, path, k, i + 1, lines[i], matches, skip);
      SeqAssoc(old(report.issues), IssuesOf(path, LineHits(k, lines[..i], matches, skip)),
               if Flagged(k, lines[i], matches, skip) then [SecurityIssue(path, i + 1, RuleAt(k))] else []);
      i := i + 1;
    }
    assert lines[..|lines|] == lines;
  }

  /** `_scan_file`: all rules over the `\n`-split lines, unless the file is
      the scanner itself. */
  method ScanFile(report: SecurityReport, f: SourceFile, matches: (RuleId, string) -> bool, skip: string -> bool)
    requires report.Valid()
    modifies report
    ensures report.Valid()
    ensures report.issues == old(report.issues) + FileIssues(f, matches, skip)
  {
    if Contains(f.path, "scanners/security.py") {
      assert FileHits(f, matches, skip) == [];
      assert report.issues + [] == report.issues;
      return;
    }
    var lines := Split(f.content, '\n');
    ScanRules(report, f.path, lines, matches, skip);
  }

  lemma RulesIssuesStep(path: string, k: nat, lines: seq<string>, matches: (RuleId, string) -> bool, skip: string -> bool)
    requires k < RuleCount
    ensures IssuesOf(path, RulesHits(k + 1, lines, matches, skip))
            == IssuesOf(path, RulesHits(k, lines, matches, skip)) + IssuesOf(path, LineHits(k, lines, matches, skip))
  {
    IssuesOfAppend(path, RulesHits(k, lines, matches, skip), LineHits(k, lines, matches, skip));
  }

  /** The outer loop of `_scan_file`: every rule of the table in order. */
  method ScanRules(report: SecurityReport, path: string, lines: seq<string>,
                   matches: (RuleId, string) -> bool, skip: string -> bool)
    requires report.Valid()
    modifies report
    ensures report.Valid()
    ensures report.issues == old(report.issues) + IssuesOf(path, RulesHits(RuleCount, lines, matches, skip))
  {
    var k := 0;
    while k < RuleCount
      invariant 0 <= k <= RuleCount && report.Valid()
      invariant report.issues == old(report.issues) + IssuesOf(path, RulesHits(k, lines, matches, skip))
    {
      RulesIssuesStep(path, k, lines, matches, skip);
      ghost var before := report.issues;
      ScanRule(report, path, k, lines, matches, skip);
      SeqAssoc(old(report.issues), IssuesOf(path, RulesHits(k, lines, matches, skip)), IssuesOf(path, LineHits(k, lines, matches, skip)));
      k := k + 1;
    }
  }

  lemma FilesIssuesStep(files: seq<SourceFile>, i: nat, matches: (RuleId, string) -> bool, skip: string -> bool)
    requires i < |files|
    ensures FilesIssues(files[..i + 1], matches, skip)
            == FilesIssues(files[..i], matches, skip)
               + (if HasPartIn(files[i].path, SecuritySkipParts) then [] else FileIssues(files[i], matches, skip))
  {
    assert files[..i + 1][..i] == files[..i];
  }

  /** The `rglob` loop over the files outside the skipped directories. */
  method ScanFiles(report: SecurityReport, files: seq<SourceFile>, matches: (RuleId, string) -> bool,
                   skip: string -> bool)
    requires report.Valid()
    modifies report
    ensures report.Valid()
    ensures report.issues == old(report.issues) + FilesIssues(files, matches, skip)
  {
    var i := 0;
    while i < |files|
      invariant 0 <= i <= |files| && report.Valid()
      invariant report.issues == old(report.issues) + FilesIssues(files[..i], matches, skip)
    {
      FilesIssuesStep(files, i, matches, skip);
      if !HasPartIn(files[i].path, SecuritySkipParts) {
        ScanFile(report, files[i], matches, skip);
        SeqAssoc(old(report.issues), FilesIssues(files[..i], matches, skip), FileIssues(files[i], matches, skip));
      } else {
        assert FilesIssues(files[..i], matches, skip) + [] == FilesIssues(files[..i], matches, skip);
      }
      i := i + 1;
    }
    assert files[..|files|] == files;
  }

  /** `scan`: a fresh report, then every file, with the scanner's line
      filter. */
  method Scan(files: seq<SourceFile>, matches: (RuleId, string) -> bool) returns (report: SecurityReport)
    ensures fresh(report) && report.Valid()
    ensures report.issues == FilesIssues(files, matches, Skipped)
    ensures report.score == ScoreAfter(report.issues)
  {
    report := new SecurityReport();
    ScanFiles(report, files, matches, Skipped);
    assert [] + report.issues == report.issues;
  }
}
