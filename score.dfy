/** The Humotica Trust Score: an append-only list of weighted components whose
    total, letter grade and certification are recomputed on every insertion.
    Weights are exact rationals (`real`). */
module Score {
  import opened Common

  datatype ScoreComponent = ScoreComponent(
    name: string, score: int, weight: real, details: string, suggestions: seq<string>)

  datatype Grade = A | B | C | D | F

  datatype BadgeColor = BrightGreen | Green | YellowGreen | Yellow | Orange | Red

  /** `calculate` certifies at this total; it is not taken from the configuration. */
  const CertifyThreshold: int := 70

  /** `min(100, max(0, score))`. */
  function Clamp(score: int): (r: int)
    ensures 0 <= r <= 100
    ensures 0 <= score <= 100 ==> r == score
    ensures score < 0 ==> r == 0
    ensures score > 100 ==> r == 100
  {
    if score > 100 then 100 else if score < 0 then 0 else score
  }

  /** `c.score * c.weight`. */
  function Contribution(c: ScoreComponent): real {
    c.score as real * c.weight
  }

  /** `sum(c.score * c.weight for c in components)`. */
  function WeightedSum(cs: seq<ScoreComponent>): real
    decreases |cs|
  {
    if cs == [] then 0.0 else Contribution(cs[0]) + WeightedSum(cs[1..])
  }

  /** `sum(c.weight for c in components)`. */
  function WeightSum(cs: seq<ScoreComponent>): real
    decreases |cs|
  {
    if cs == [] then 0.0 else cs[0].weight + WeightSum(cs[1..])
  }

  /** The total `calculate` derives from a component list. */
  function TotalOf(cs: seq<ScoreComponent>): int {
    if cs == [] then 0
    else
      var w := WeightSum(cs);
      if w > 0.0 then Trunc(WeightedSum(cs) / w) else 0
  }

  function GradeFromScore(score: int): Grade {
    if score >= 90 then A
    else if score >= 70 then B
    else if score >= 50 then C
    else if score >= 25 then D
    else F
  }

  function GradeLetter(g: Grade): string {
    match g
    case A => "A"
    case B => "B"
    case C => "C"
    case D => "D"
    case F => "F"
  }

  /** Rank of a grade, F lowest. */
  function GradeRank(g: Grade): nat {
    match g
    case F => 0
    case D => 1
    case C => 2
    case B => 3
    case A => 4
  }

  /** `grade_message` for a total. */
  function GradeMessage(total: int): string {
    if total >= 90 then "[A]" + " FUCKING AWESOME! Fully grounded, zero bloat. Push to production."
    else if total >= 70 then "[B]" + " Solid. Foundation stands, but throw a @tibet_audit wrapper on it."
    else if total >= 50 then "[C]" + " Dangerous territory. It 'works', but the CISO gets hives from this."
    else if total >= 25 then "[D]" + " Heavily over-engineered. Stop hallucinating and just use httpx."
    else "[F]" + " SHIT. This is a digital crime. Delete the repo and start over."
  }

  /** `_color_from_score`. */
  function ColorFromScore(score: int): BadgeColor {
    if score >= 90 then BrightGreen
    else if score >= 80 then Green
    else if score >= 70 then YellowGreen
    else if score >= 60 then Yellow
    else if score >= 50 then Orange
    else Red
  }

  function ColorName(c: BadgeColor): string {
    match c
    case BrightGreen => "brightgreen"
    case Green => "green"
    case YellowGreen => "yellowgreen"
    case Yellow => "yellow"
    case Orange => "orange"
    case Red => "red"
  }

  const ShieldsPrefix := "https://img.shields.io/badge/Humotica_Trust_Score-"
  const OutOfHundred := "%2F100-"
  const StyleQuery := "?style="
  const LogoQuery := "&logo=data:image/svg+xml;base64,..."
  const BadgeOpen := "[![Humotica Trust Score]("
  const BadgeClose := ")](https://humotica.com/trust)"

  /** `to_badge_url` for a total. */
  function BadgeUrl(total: int, style: string): string {
    ShieldsPrefix + IntToString(total) + OutOfHundred
    + ColorName(ColorFromScore(total)) + StyleQuery + style + LogoQuery
  }

  /** `to_badge_markdown` for a total. */
  function BadgeMarkdown(total: int, style: string): string {
    BadgeOpen + BadgeUrl(total, style) + BadgeClose
  }

  class TrustScore {
    var total: int
    var grade: Grade
    var components: seq<ScoreComponent>
    var timestamp: string
    var certified: bool

    /** The derived fields agree with the component list; every stored score
        is clamped. */
    ghost predicate Valid()
      reads this
    {
      (forall c :: c in components ==> 0 <= c.score <= 100)
      && total == TotalOf(components)
      && grade == GradeFromScore(total)
      && certified == (components != [] && total >= CertifyThreshold)
    }

    /** A fresh score: no components, total 0, grade F, not certified.
        `now` stands for `datetime.now().isoformat()`. */
    constructor (now: string)
      ensures Valid()
      ensures components == [] && total == 0 && grade == F && !certified
      ensures timestamp == now
    {
      total := 0;
      grade := F;
      components := [];
      timestamp := now;
      certified := false;
    }

    /** `calculate`: recompute total, grade and certification. With no
        components it resets total and grade and leaves `certified` alone. */
    method Calculate()
      modifies this`total, this`grade, this`certified
      ensures total == TotalOf(components)
      ensures grade == GradeFromScore(total)
      ensures components == [] ==> total == 0 && grade == F && certified == old(certified)
      ensures components != [] ==> certified == (total >= CertifyThreshold)
    {
      if components == [] {
        total := 0;
        grade := F;
        return;
      }
      var weightedSum := WeightedSum(components);
      var totalWeight := WeightSum(components);
      total := if totalWeight > 0.0 then Trunc(weightedSum / totalWeight) else 0;
      grade := GradeFromScore(total);
      certified := total >= CertifyThreshold;
    }

    /** `add_component`: append one clamped component, then recompute. */
    method AddComponent(name: string, score: int, weight: real, details: string,
                        suggestions: seq<string>)
      requires Valid()
      modifies this`components, this`total, this`grade, this`certified
      ensures Valid()
      ensures components
        == old(components) + [ScoreComponent(name, Clamp(score), weight, details, suggestions)]
      ensures total == TotalOf(components)
      ensures certified == (total >= CertifyThreshold)
    {
      var c := ScoreComponent(name, Clamp(score), weight, details, suggestions);
      components := components + [c];
      Calculate();
    }
  }

  // ----- properties of the total -----

  lemma {:induction false} WeightedSumBounds(cs: seq<ScoreComponent>)
    requires forall c :: c in cs ==> 0 <= c.score <= 100 && c.weight >= 0.0
    ensures 0.0 <= WeightedSum(cs) <= 100.0 * WeightSum(cs)
    ensures WeightSum(cs) >= 0.0
    decreases |cs|
  {
    if cs != [] {
      assert forall c :: c in cs[1..] ==> c in cs;
      WeightedSumBounds(cs[1..]);
      var c := cs[0];
      assert c in cs;
      ContributionBounds(c);
      assert WeightedSum(cs) == Contribution(c) + WeightedSum(cs[1..]);
    }
  }

  /** A score in [0, 100] times a non-negative weight lies in [0, 100 * weight]. */
  lemma ContributionBounds(c: ScoreComponent)
    requires 0 <= c.score <= 100 && c.weight >= 0.0
    ensures 0.0 <= Contribution(c) <= 100.0 * c.weight
  {
    var s := c.score as real;
    assert (100.0 - s) * c.weight >= 0.0;
  }

  lemma QuotientAtMost(a: real, w: real, bound: real)
    requires w > 0.0 && a <= bound * w
    ensures a / w <= bound
  {
    var q := a / w;
    assert q * w == a;
    assert (q - bound) * w <= 0.0;
  }

  /** With non-negative weights and clamped scores the total is a score. */
  lemma TotalInRange(cs: seq<ScoreComponent>)
    requires forall c :: c in cs ==> 0 <= c.score <= 100 && c.weight >= 0.0
    ensures 0 <= TotalOf(cs) <= 100
  {
    WeightedSumBounds(cs);
    var w := WeightSum(cs);
    if cs != [] && w > 0.0 {
      var q := WeightedSum(cs) / w;
      QuotientAtMost(WeightedSum(cs), w, 100.0);
    }
  }

  /** Adding a component with a non-negative weight never shrinks the
      denominator of the mean. */
  lemma {:induction false} WeightSumAppend(cs: seq<ScoreComponent>, c: ScoreComponent)
    ensures WeightSum(cs + [c]) == WeightSum(cs) + c.weight
    ensures WeightedSum(cs + [c]) == WeightedSum(cs) + Contribution(c)
    decreases |cs|
  {
    if cs == [] {
      assert [] + [c] == [c];
    } else {
      assert (cs + [c])[1..] == cs[1..] + [c];
      WeightSumAppend(cs[1..], c);
    }
  }

  /** Taking component `i` out of the list takes its terms out of both sums. */
  lemma {:induction false} SumsWithout(cs: seq<ScoreComponent>, i: nat)
    requires i < |cs|
    ensures WeightSum(cs) == cs[i].weight + WeightSum(cs[..i] + cs[i + 1..])
    ensures WeightedSum(cs) == Contribution(cs[i]) + WeightedSum(cs[..i] + cs[i + 1..])
    decreases i
  {
    if i == 0 {
      assert cs[..0] + cs[1..] == cs[1..];
    } else {
      SumsWithout(cs[1..], i - 1);
      assert cs[..i] + cs[i + 1..] == [cs[0]] + (cs[1..][..i - 1] + cs[1..][i..]);
    }
  }

  lemma MultisetWithout(s: seq<ScoreComponent>, i: nat)
    requires i < |s|
    ensures multiset(s[..i] + s[i + 1..]) == multiset(s) - multiset{s[i]}
  {
    assert s == s[..i] + [s[i]] + s[i + 1..];
  }

  lemma {:induction false} SumsPermutation(a: seq<ScoreComponent>, b: seq<ScoreComponent>)
    requires multiset(a) == multiset(b)
    ensures WeightSum(a) == WeightSum(b) && WeightedSum(a) == WeightedSum(b)
    decreases |a|
  {
    if a == [] {
      assert |b| == |multiset(b)| == 0;
    } else {
      var x := a[0];
      assert x in multiset(b);
      var i :| 0 <= i < |b| && b[i] == x;
      var rest := b[..i] + b[i + 1..];
      MultisetWithout(b, i);
      assert multiset(a[1..]) == multiset(a) - multiset{x} by {
        assert a == [x] + a[1..];
      }
      SumsPermutation(a[1..], rest);
      SumsWithout(b, i);
      assert WeightSum(a) == x.weight + WeightSum(a[1..]);
      assert WeightedSum(a) == Contribution(x) + WeightedSum(a[1..]);
    }
  }

  /** The total does not depend on the order in which components were added. */
  lemma TotalOrderIndependent(a: seq<ScoreComponent>, b: seq<ScoreComponent>)
    requires multiset(a) == multiset(b)
    ensures TotalOf(a) == TotalOf(b)
  {
    SumsPermutation(a, b);
    if a == [] || b == [] {
      assert |a| == |multiset(a)| == |multiset(b)| == |b|;
    }
  }

  lemma {:induction false} UniformWeightedSum(cs: seq<ScoreComponent>, s: int)
    requires forall c :: c in cs ==> c.score == s
    ensures WeightedSum(cs) == s as real * WeightSum(cs)
    decreases |cs|
  {
    if cs != [] {
      assert cs[0] in cs;
      assert forall c :: c in cs[1..] ==> c in cs;
      UniformWeightedSum(cs[1..], s);
    }
  }

  /** The total is a mean: components that all carry score `s` (with a
      positive total weight) give total `s`. */
  lemma TotalOfUniform(cs: seq<ScoreComponent>, s: int)
    requires 0 <= s
    requires forall c :: c in cs ==> c.score == s
    requires WeightSum(cs) > 0.0
    ensures TotalOf(cs) == s
  {
    UniformWeightedSum(cs, s);
    assert cs != [];
    assert WeightedSum(cs) / WeightSum(cs) == s as real;
  }

  // ----- thresholds -----

  /** The grade and colour tables at their boundaries. */
  lemma GradeAndColorExamples()
    ensures GradeFromScore(70) == B && GradeFromScore(69) == C && GradeFromScore(50) == C
    ensures GradeFromScore(49) == D && GradeFromScore(25) == D && GradeFromScore(24) == F
    ensures ColorFromScore(95) == BrightGreen && ColorFromScore(85) == Green
    ensures ColorFromScore(72) == YellowGreen && ColorFromScore(65) == Yellow
    ensures ColorFromScore(55) == Orange && ColorFromScore(10) == Red
  {
  }

  /** A higher total never gets a worse grade. */
  lemma GradeMonotone(s: int, t: int)
    requires s <= t
    ensures GradeRank(GradeFromScore(s)) <= GradeRank(GradeFromScore(t))
  {
  }

  /** Certification, grade B-or-better and a yellowgreen-or-better badge all
      start at the same total. */
  lemma CertifiedAgreesWithGradeAndColor(total: int)
    ensures total >= CertifyThreshold <==> GradeRank(GradeFromScore(total)) >= GradeRank(B)
    ensures total >= CertifyThreshold <==> ColorFromScore(total) in {BrightGreen, Green, YellowGreen}
  {
  }

  /** `grade_message` opens with the grade that `calculate` assigns. */
  lemma GradeMessageMatchesGrade(total: int)
    ensures StartsWith(GradeMessage(total), "[" + GradeLetter(GradeFromScore(total)) + "]")
  {
    var p := "[" + GradeLetter(GradeFromScore(total)) + "]";
    if total >= 90 {
      assert p == "[A]";
      StartsWithConcat("[A]", " FUCKING AWESOME! Fully grounded, zero bloat. Push to production.");
    } else if total >= 70 {
      assert p == "[B]";
      StartsWithConcat("[B]", " Solid. Foundation stands, but throw a @tibet_audit wrapper on it.");
    } else if total >= 50 {
      assert p == "[C]";
      StartsWithConcat("[C]", " Dangerous territory. It 'works', but the CISO gets hives from this.");
    } else if total >= 25 {
      assert p == "[D]";
      StartsWithConcat("[D]", " Heavily over-engineered. Stop hallucinating and just use httpx.");
    } else {
      assert p == "[F]";
      StartsWithConcat("[F]", " SHIT. This is a digital crime. Delete the repo and start over.");
    }
  }

  /** A valid, non-empty score is certified exactly when its grade is A or B. */
  lemma CertifiedIffGradeB(t: TrustScore)
    requires t.Valid() && t.components != []
    ensures t.certified <==> t.grade in {A, B}
  {
  }
}
