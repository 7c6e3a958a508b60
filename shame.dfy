/** The Hall of Shame: entries kept in ascending score order, the lowest
    scores crowned in three categories, and the category, roast and
    highlights a scan result earns. */
module Shame {
  import opened Common
  import Quality
  import Security
  import Bloat
  import Forge

  // ----- Entries -----

  /** A Hall of Shame entry (`ShameEntry`). */
  datatype ShameEntry = ShameEntry(
    repoUrl: string, repoName: string, score: int, grade: string, category: string,
    roast: string, highlights: seq<string>, submittedAt: string, shameId: string)

  /** `ShameEntry(...)` with `__post_init__`: an empty submission time
      becomes `now`, and an empty id becomes the first 12 hex digits of the
      hash of the URL followed by the submission time. `hash` stands for
      SHA-256 in hexadecimal. */
  function NewEntry(repoUrl: string, repoName: string, score: int, grade: string, category: string,
                    roast: string, highlights: seq<string>, submittedAt: string, shameId: string,
                    now: string, hash: string -> string): ShameEntry
  {
    var at := if submittedAt == "" then now else submittedAt;
    ShameEntry(repoUrl, repoName, score, grade, category, roast, highlights, at,
               if shameId == "" then Take(hash(repoUrl + at), 12) else shameId)
  }

  /** Given values are kept; the defaults fill only empty fields. */
  lemma NewEntryDefaults(repoUrl: string, repoName: string, score: int, grade: string, category: string,
                         roast: string, highlights: seq<string>, submittedAt: string, shameId: string,
                         now: string, hash: string -> string)
    ensures var e := NewEntry(repoUrl, repoName, score, grade, category, roast, highlights,
                              submittedAt, shameId, now, hash);
            && e.repoUrl == repoUrl && e.repoName == repoName && e.score == score && e.grade == grade
            && e.category == category && e.roast == roast && e.highlights == highlights
            && (e.submittedAt == if submittedAt == "" then now else submittedAt)
            && (shameId != "" ==> e.shameId == shameId)
            && (shameId == "" ==> e.shameId == Take(hash(repoUrl + e.submittedAt), 12)
                                  && StartsWith(hash(repoUrl + e.submittedAt), e.shameId)
                                  && (|hash(repoUrl + e.submittedAt)| >= 12 ==> |e.shameId| == 12))
  {
  }

  // ----- Ordering by score -----

  predicate Sorted(s: seq<ShameEntry>) {
    forall i, j :: 0 <= i < j < |s| ==> s[i].score <= s[j].score
  }

  /** Where a stable sort puts `e` after a sorted list: behind every entry
      whose score is not above its own. */
  function InsertionPoint(s: seq<ShameEntry>, e: ShameEntry): (k: nat)
    ensures k <= |s|
    ensures forall i :: 0 <= i < k ==> s[i].score <= e.score
    ensures k < |s| ==> s[k].score > e.score
    decreases |s|
  {
    if s == [] || s[0].score > e.score then 0 else 1 + InsertionPoint(s[1..], e)
  }

  function Insert(s: seq<ShameEntry>, e: ShameEntry): seq<ShameEntry> {
    var k := InsertionPoint(s, e);
    s[..k] + [e] + s[k..]
  }

  /** `sorted(s, key=lambda e: e.score)`: Python's stable sort, as insertion
      of each entry in turn. */
  function SortByScore(s: seq<ShameEntry>): seq<ShameEntry>
    decreases |s|
  {
    if s == [] then [] else Insert(SortByScore(s[..|s| - 1]), s[|s| - 1])
  }

  /** The entries with score `v`, in their order. Stability means a sort
      keeps this subsequence for every score. */
  function WithScore(s: seq<ShameEntry>, v: int): seq<ShameEntry>
    decreases |s|
  {
    if s == [] then []
    else WithScore(s[..|s| - 1], v) + (if s[|s| - 1].score == v then [s[|s| - 1]] else [])
  }

  lemma {:induction false} WithScoreAppend(a: seq<ShameEntry>, b: seq<ShameEntry>, v: int)
    ensures WithScore(a + b, v) == WithScore(a, v) + WithScore(b, v)
    decreases |b|
  {
    if b == [] {
      assert a + b == a;
    } else {
      assert (a + b)[..|a + b| - 1] == a + b[..|b| - 1];
      WithScoreAppend(a, b[..|b| - 1], v);
    }
  }

  lemma WithScoreSingle(e: ShameEntry, v: int)
    ensures WithScore([e], v) == if e.score == v then [e] else []
  {
    assert [e][..|[e]| - 1] == [];
  }

  /** No entry of `s` has score `v`. */
  lemma {:induction false} WithScoreNone(s: seq<ShameEntry>, v: int)
    requires forall i :: 0 <= i < |s| ==> s[i].score != v
    ensures WithScore(s, v) == []
    decreases |s|
  {
    if s != [] {
      WithScoreNone(s[..|s| - 1], v);
    }
  }

  lemma InsertSorted(s: seq<ShameEntry>, e: ShameEntry)
    requires Sorted(s)
    ensures Sorted(Insert(s, e))
  {
    var k := InsertionPoint(s, e);
    var r := Insert(s, e);
    forall i, j | 0 <= i < j < |r|
      ensures r[i].score <= r[j].score
    {
      if j < k {
        assert r[i] == s[i] && r[j] == s[j];
      } else if j == k {
        assert r[j] == e && r[i] == s[i];
      } else if i < k {
        assert r[i] == s[i] && r[j] == s[j - 1];
        assert s[j - 1].score >= s[k].score;
      } else if i == k {
        assert r[i] == e && r[j] == s[j - 1];
        assert s[j - 1].score >= s[k].score;
      } else {
        assert r[i] == s[i - 1] && r[j] == s[j - 1];
      }
    }
  }

  lemma InsertPermutes(s: seq<ShameEntry>, e: ShameEntry)
    ensures multiset(Insert(s, e)) == multiset(s) + multiset{e}
  {
    var k := InsertionPoint(s, e);
    assert s == s[..k] + s[k..];
  }

  /** `Insert` splits the list at the insertion point. */
  lemma InsertWithScore(s: seq<ShameEntry>, e: ShameEntry, v: int)
    ensures var k := InsertionPoint(s, e);
            WithScore(Insert(s, e), v) == WithScore(s[..k], v) + WithScore([e], v) + WithScore(s[k..], v)
  {
    var k := InsertionPoint(s, e);
    WithScoreAppend(s[..k] + [e], s[k..], v);
    WithScoreAppend(s[..k], [e], v);
  }

  lemma AppendWithScore(s: seq<ShameEntry>, e: ShameEntry, v: int)
    ensures var k := InsertionPoint(s, e);
            WithScore(s + [e], v) == WithScore(s[..k], v) + WithScore(s[k..], v) + WithScore([e], v)
  {
    var k := InsertionPoint(s, e);
    assert s == s[..k] + s[k..];
    WithScoreAppend(s, [e], v);
    WithScoreAppend(s[..k], s[k..], v);
  }

  /** In a sorted list nothing behind the insertion point scores the same. */
  lemma SuffixAbove(s: seq<ShameEntry>, e: ShameEntry)
    requires Sorted(s)
    ensures WithScore(s[InsertionPoint(s, e)..], e.score) == []
  {
    var k := InsertionPoint(s, e);
    var b := s[k..];
    forall i | 0 <= i < |b|
      ensures b[i].score != e.score
    {
      assert b[i] == s[k + i];
      assert s[k + i].score >= s[k].score;
    }
    WithScoreNone(b, e.score);
  }

  /** Inserting into a sorted list keeps every score's entries in the order
      of the list followed by `e`. */
  lemma InsertStable(s: seq<ShameEntry>, e: ShameEntry, v: int)
    requires Sorted(s)
    ensures WithScore(Insert(s, e), v) == WithScore(s + [e], v)
  {
    var k := InsertionPoint(s, e);
    var wa, wb, we := WithScore(s[..k], v), WithScore(s[k..], v), WithScore([e], v);
    InsertWithScore(s, e, v);
    AppendWithScore(s, e, v);
    WithScoreSingle(e, v);
    if v == e.score {
      SuffixAbove(s, e);
    }
    SwapEmpty(wa, we, wb);
  }

  /** Two pieces commute when one of them is empty. */
  lemma SwapEmpty<T>(a: seq<T>, b: seq<T>, c: seq<T>)
    requires b == [] || c == []
    ensures a + b + c == a + c + b
  {
    if b == [] {
      assert a + b == a && a + c + b == a + c;
    } else {
      assert a + c == a && a + b + c == a + b;
    }
  }

  /** The permutation part of `SortByScoreSpec` alone. */
  lemma SortByScorePermutes(s: seq<ShameEntry>)
    ensures multiset(SortByScore(s)) == multiset(s)
  {
    SortByScoreSpec(s);
  }

  /** The sort orders by score, is a permutation and is stable. */
  lemma {:induction false} SortByScoreSpec(s: seq<ShameEntry>)
    ensures Sorted(SortByScore(s))
    ensures multiset(SortByScore(s)) == multiset(s)
    ensures forall v :: WithScore(SortByScore(s), v) == WithScore(s, v)
    decreases |s|
  {
    if s != [] {
      var init, last := s[..|s| - 1], s[|s| - 1];
      assert s == init + [last];
      SortByScoreSpec(init);
      InsertSorted(SortByScore(init), last);
      InsertPermutes(SortByScore(init), last);
      forall v
        ensures WithScore(SortByScore(s), v) == WithScore(s, v)
      {
        InsertStable(SortByScore(init), last, v);
        WithScoreAppend(SortByScore(init), [last], v);
        WithScoreAppend(init, [last], v);
      }
    }
  }

  /** Sorting a list that is already in order changes nothing. */
  lemma {:induction false} SortByScoreSorted(s: seq<ShameEntry>)
    requires Sorted(s)
    ensures SortByScore(s) == s
    decreases |s|
  {
    if s != [] {
      var init, last := s[..|s| - 1], s[|s| - 1];
      SortByScoreSorted(init);
      assert forall i :: 0 <= i < |init| ==> init[i].score <= last.score;
      var k := InsertionPoint(init, last);
      assert k == |init|;
      assert init[..k] + [last] + init[k..] == s;
    }
  }

  // ----- Awards -----

  /** One round of the awards loop for one category: an entry of the
      category takes the award when there is none or it scores strictly
      lower. */
  function AwardStep(current: Option<ShameEntry>, category: string, e: ShameEntry): Option<ShameEntry> {
    if e.category == category && (current.None? || e.score < current.value.score) then Some(e) else current
  }

  /** The award of a category after the loop over `s`, starting from
      `current`. */
  function Champion(current: Option<ShameEntry>, category: string, s: seq<ShameEntry>): Option<ShameEntry>
    decreases |s|
  {
    if s == [] then current else AwardStep(Champion(current, category, s[..|s| - 1]), category, s[|s| - 1])
  }

  /** An award of a category is empty when the category has no entry, and is
      otherwise an entry of that category with its lowest score. */
  ghost predicate AwardOk(award: Option<ShameEntry>, category: string, s: seq<ShameEntry>) {
    (award.None? ==> forall i :: 0 <= i < |s| ==> s[i].category != category)
    && (award.Some? ==> award.value.category == category && award.value in s
                        && forall i :: 0 <= i < |s| && s[i].category == category
                                       ==> award.value.score <= s[i].score)
  }

  /** The loop keeps the current award unless an entry of the category
      scores strictly lower, and then ends with a lowest-scoring one. */
  lemma {:induction false} ChampionSpec(current: Option<ShameEntry>, category: string, s: seq<ShameEntry>)
    ensures var w := Champion(current, category, s);
            && (w.None? <==> current.None? && forall i :: 0 <= i < |s| ==> s[i].category != category)
            && (w != current ==> w.Some? && w.value in s && w.value.category == category)
            && (w != current && current.Some? ==> w.value.score < current.value.score)
            && (w.Some? && current.Some? ==> w.value.score <= current.value.score)
            && (w.Some? ==> forall i :: 0 <= i < |s| && s[i].category == category
                                        ==> w.value.score <= s[i].score)
    decreases |s|
  {
    if s != [] {
      var init, last := s[..|s| - 1], s[|s| - 1];
      ChampionSpec(current, category, init);
      var p := Champion(current, category, init);
      forall i | 0 <= i < |init|
        ensures init[i] == s[i]
      {
      }
      if p.Some? && p != current {
        assert p.value in init;
        var i :| 0 <= i < |init| && init[i] == p.value;
        assert s[i] == p.value;
      }
    }
  }

  /** Only entries of its own category ever reach an award. */
  lemma ChampionOtherCategory(current: Option<ShameEntry>, category: string, s: seq<ShameEntry>, e: ShameEntry)
    requires e.category != category
    ensures Champion(current, category, s + [e]) == Champion(current, category, s)
  {
    assert (s + [e])[..|s + [e]| - 1] == s;
  }

  /** An award that was right for the old entries is right, after the loop,
      for the old entries and one more in any order. */
  lemma AwardKept(award: Option<ShameEntry>, category: string, before: seq<ShameEntry>,
                  s: seq<ShameEntry>, e: ShameEntry)
    requires AwardOk(award, category, before)
    requires multiset(s) == multiset(before) + multiset{e}
    ensures AwardOk(Champion(award, category, s), category, s)
  {
    ChampionSpec(award, category, s);
    var w := Champion(award, category, s);
    if w.Some? && w == award {
      assert award.value in multiset(before);
      assert award.value in multiset(s);
    }
  }

  class HallOfShame {
    var entries: seq<ShameEntry>
    var lastUpdated: string
    var shitcoderOfMonth: Option<ShameEntry>
    var bloatKing: Option<ShameEntry>
    var securityNightmare: Option<ShameEntry>
    var spaghettiMaster: Option<ShameEntry>

    /** The three category awards hold lowest-scoring entries of their
        categories, and are empty exactly when a category has no entry. */
    ghost predicate Valid()
      reads this
    {
      AwardOk(bloatKing, "bloat_king", entries)
      && AwardOk(securityNightmare, "security_nightmare", entries)
      && AwardOk(spaghettiMaster, "spaghetti_master", entries)
    }

    /** `HallOfShame()`: no entries and no awards. */
    constructor ()
      ensures Valid() && entries == [] && lastUpdated == ""
      ensures shitcoderOfMonth.None? && bloatKing.None? && securityNightmare.None? && spaghettiMaster.None?
    {
      entries, lastUpdated := [], "";
      shitcoderOfMonth, bloatKing, securityNightmare, spaghettiMaster := None, None, None, None;
    }

    /** `_update_awards`: nothing without entries; otherwise the lowest
        scorer of all, and one pass over the entries for the three
        category awards. */
    method UpdateAwards()
      modifies this
      ensures entries == old(entries) && lastUpdated == old(lastUpdated)
      ensures shitcoderOfMonth == if entries == [] then old(shitcoderOfMonth) else Some(entries[0])
      ensures bloatKing == Champion(old(bloatKing), "bloat_king", entries)
      ensures securityNightmare == Champion(old(securityNightmare), "security_nightmare", entries)
      ensures spaghettiMaster == Champion(old(spaghettiMaster), "spaghetti_master", entries)
    {
      if entries == [] {
        return;
      }
      shitcoderOfMonth := Some(entries[0]);
      var i := 0;
      while i < |entries|
        invariant 0 <= i <= |entries|
        invariant entries == old(entries) && lastUpdated == old(lastUpdated)
        invariant shitcoderOfMonth == Some(entries[0])
        invariant bloatKing == Champion(old(bloatKing), "bloat_king", entries[..i])
        invariant securityNightmare == Champion(old(securityNightmare), "security_nightmare", entries[..i])
        invariant spaghettiMaster == Champion(old(spaghettiMaster), "spaghetti_master", entries[..i])
      {
        var entry := entries[i];
        assert entries[..i + 1][..i] == entries[..i];
        if entry.category == "bloat_king" && (bloatKing.None? || entry.score < bloatKing.value.score) {
          bloatKing := Some(entry);
        } else if entry.category == "security_nightmare"
                  && (securityNightmare.None? || entry.score < securityNightmare.value.score) {
          securityNightmare := Some(entry);
        } else if entry.category == "spaghetti_master"
                  && (spaghettiMaster.None? || entry.score < spaghettiMaster.value.score) {
          spaghettiMaster := Some(entry);
        }
        i := i + 1;
      }
      assert entries[..|entries|] == entries;
    }

    /** `add_entry`: append, sort by score (stably), stamp the time and
        update the awards. `now` stands for the clock. */
    method AddEntry(entry: ShameEntry, now: string)
      requires Valid()
      modifies this
      ensures Valid()
      ensures entries == SortByScore(old(entries) + [entry])
      ensures lastUpdated == now
      ensures shitcoderOfMonth == Some(entries[0])
      ensures bloatKing == Champion(old(bloatKing), "bloat_king", entries)
      ensures securityNightmare == Champion(old(securityNightmare), "security_nightmare", entries)
      ensures spaghettiMaster == Champion(old(spaghettiMaster), "spaghetti_master", entries)
    {
      ghost var before := entries;
      var sorted := SortByScore(entries + [entry]);
      SortByScorePermutes(entries + [entry]);
      assert |multiset(sorted)| == |before| + 1;
      AwardKept(bloatKing, "bloat_king", before, sorted, entry);
      AwardKept(securityNightmare, "security_nightmare", before, sorted, entry);
      AwardKept(spaghettiMaster, "spaghetti_master", before, sorted, entry);
      entries := sorted;
      lastUpdated := now;
      UpdateAwards();
    }
  }

  /** After `add_entry` the entries are a stable sort of the old ones and
      the new one, and the shitcoder of the month has the lowest score. */
  lemma AddEntryOrder(before: seq<ShameEntry>, entry: ShameEntry)
    ensures var s := SortByScore(before + [entry]);
            && |s| == |before| + 1 && Sorted(s)
            && multiset(s) == multiset(before) + multiset{entry}
            && (forall v :: WithScore(s, v) == WithScore(before, v) + WithScore([entry], v))
            && forall i :: 0 <= i < |s| ==> s[0].score <= s[i].score
  {
    SortByScoreSpec(before + [entry]);
    forall v {
      WithScoreAppend(before, [entry], v);
    }
    assert |multiset(SortByScore(before + [entry]))| == |before| + 1;
  }

  /** For a list already in order, `add_entry`'s sort is the insertion of
      the new entry behind every entry that does not score higher. */
  lemma AddEntryInserts(before: seq<ShameEntry>, entry: ShameEntry)
    requires Sorted(before)
    ensures SortByScore(before + [entry]) == Insert(before, entry)
  {
    assert (before + [entry])[..|before|] == before;
    SortByScoreSorted(before);
  }

  // ----- The shame category of a scan -----

  /** The bucket names in the order of the score dictionary. */
  const CategoryNames: seq<string> := ["bloat_king", "security_nightmare", "spaghetti_master", "over_engineer"]

  function BloatBucket(b: Bloat.BloatReport?): int
    reads b
  {
    if b == null then 100
    else 100 - (if b.unusedImports > 10 then 30 else 0) - (if b.heavyDeps != [] then 20 * |b.heavyDeps| else 0)
  }

  function SecurityBucket(s: Security.SecurityReport?): int
    reads s
  {
    if s == null then 100 else 100 - s.criticalCount * 25 - s.highCount * 15
  }

  function SpaghettiBucket(q: Quality.QualityReport?): int
    reads q
  {
    if q == null then 100 else 100 - Quality.CountType(q.smells, Quality.ArrowPattern) * 20
  }

  function OverEngineerBucket(q: Quality.QualityReport?): int
    reads q
  {
    if q == null then 100 else 100 - Quality.CountType(q.smells, Quality.LongName) * 15
  }

  /** The score dictionary of `determine_shame_category`, in key order. */
  function Buckets(r: Forge.ForgeResult): (scores: seq<int>)
    reads r, r.bloatReport, r.securityReport, r.qualityReport
    ensures |scores| == 4
  {
    [BloatBucket(r.bloatReport), SecurityBucket(r.securityReport),
     SpaghettiBucket(r.qualityReport), OverEngineerBucket(r.qualityReport)]
  }

  /** `min(range(len(s)), key=s.__getitem__)`: the first index of a smallest
      value. */
  function FirstMin(s: seq<int>): (i: nat)
    requires s != []
    ensures i < |s|
    ensures forall j :: 0 <= j < |s| ==> s[i] <= s[j]
    ensures forall j :: 0 <= j < i ==> s[j] > s[i]
    decreases |s|
  {
    if |s| == 1 then 0
    else
      var k := FirstMin(s[..|s| - 1]);
      if s[|s| - 1] < s[k] then |s| - 1 else k
  }

  /** `determine_shame_category`: the first bucket with the lowest score. */
  function ShameCategory(r: Forge.ForgeResult): (c: string)
    reads r, r.bloatReport, r.securityReport, r.qualityReport
    ensures exists i :: 0 <= i < 4 && c == CategoryNames[i]
                        && (forall j :: 0 <= j < 4 ==> Buckets(r)[i] <= Buckets(r)[j])
                        && (forall j :: 0 <= j < i ==> Buckets(r)[j] > Buckets(r)[i])
  {
    CategoryNames[FirstMin(Buckets(r))]
  }

  /** Deductions only lower a bucket. */
  lemma BucketsAtMost100(r: Forge.ForgeResult)
    ensures forall j :: 0 <= j < 4 ==> Buckets(r)[j] <= 100
  {
  }

  /** Without deductions every bucket stays at 100 and the first key,
      "bloat_king", wins the tie. */
  lemma NoDeductionsIsBloatKing(r: Forge.ForgeResult)
    requires r.bloatReport != null ==> r.bloatReport.unusedImports <= 10 && r.bloatReport.heavyDeps == []
    requires r.securityReport != null ==> r.securityReport.criticalCount == 0 && r.securityReport.highCount == 0
    requires r.qualityReport != null
             ==> Quality.CountType(r.qualityReport.smells, Quality.ArrowPattern) == 0
                 && Quality.CountType(r.qualityReport.smells, Quality.LongName) == 0
    ensures ShameCategory(r) == "bloat_king"
  {
    assert BloatBucket(r.bloatReport) == 100 && SecurityBucket(r.securityReport) == 100;
    assert SpaghettiBucket(r.qualityReport) == 100 && OverEngineerBucket(r.qualityReport) == 100;
    assert forall j :: 0 <= j < 4 ==> Buckets(r)[j] == 100;
    assert Buckets(r)[0] == 100;
    assert FirstMin(Buckets(r)) == 0;
  }

  // ----- The roast -----

  /** `SHAME_ROASTS`. */
  const ShameRoasts: map<string, seq<string>> := map[
    "bloat_king" := [
      "Congratulations! You imported the entire universe for a Hello World.",
      "Your node_modules called - they want their bloat crown back.",
      "This code is so heavy, it needs its own gravitational field."],
    "security_nightmare" := [
      "This code is so insecure, hackers use it as a tutorial.",
      "eval(), exec(), AND hardcoded passwords? You're speedrunning CVEs.",
      "The CISO just had a heart attack looking at this. Thanks."],
    "spaghetti_master" := [
      "This code has more nesting than a Russian doll factory.",
      "I've seen cleaner code written by a cat walking on a keyboard.",
      "The arrow anti-pattern called - you've achieved final form."],
    "deprecated_dinosaur" := [
      "This code belongs in a museum, not production.",
      "Using Python 2 syntax in 2025? Bold strategy.",
      "Your dependencies are so old, they remember dial-up."],
    "latency_legend" := [
      "This code is slower than a sloth on sedatives.",
      "O(n!) complexity? Did you WANT to boil the ocean?",
      "Your API calls have API calls. It's turtles all the way down."],
    "llm_hallucinator" := [
      "You copy-pasted from ChatGPT and didn't even read it, did you?",
      "The AI wrote this and you just... shipped it? Brave.",
      "'Sure, here is the code' - still in your docstring. Chef's kiss."],
    "over_engineer" := [
      "You built a spaceship to go to the grocery store.",
      "AbstractFactoryBuilderStrategyPatternImpl for a TODO app? Really?",
      "This has more design patterns than actual functionality."]]

  /** `SHAME_ROASTS.get(category, SHAME_ROASTS["over_engineer"])`. */
  function RoastsFor(category: string): seq<string> {
    if category in ShameRoasts then ShameRoasts[category] else ShameRoasts["over_engineer"]
  }

  /** Every category, known or not, has three roasts to choose from. */
  lemma RoastsForAnyCategory(category: string)
    ensures |RoastsFor(category)| == 3
    ensures category !in ShameRoasts ==> RoastsFor(category) == RoastsFor("over_engineer")
  {
  }

  /** The details `generate_custom_roast` adds, in order. */
  function RoastExtras(r: Forge.ForgeResult): seq<string>
    reads r, r.bloatReport, r.securityReport, r.qualityReport
  {
    (if r.bloatReport != null && r.bloatReport.unusedImports > 5
     then [IntToString(r.bloatReport.unusedImports) + " unused imports"] else [])
    + (if r.securityReport != null && r.securityReport.criticalCount > 0
       then [IntToString(r.securityReport.criticalCount) + " critical vulnerabilities"] else [])
    + (if r.qualityReport != null && Quality.CountType(r.qualityReport.smells, Quality.LlmArtifact) > 0
       then ["AI-generated code leftovers"] else [])
  }

  /** `generate_custom_roast`: `base` is the roast `random.choice` picked
      for the category, and the bonus details follow it when there are
      any. */
  function CustomRoast(r: Forge.ForgeResult, category: string, base: string): string
    requires base in RoastsFor(category)
    reads r, r.bloatReport, r.securityReport, r.qualityReport
  {
    RoastText(base, RoastExtras(r))
  }

  /** A roast line followed by its bonus details, if any. */
  function RoastText(base: string, extras: seq<string>): string {
    if extras != [] then base + " Bonus points for: " + Join(extras, ", ") + "." else base
  }

  lemma RoastTextStartsWithBase(base: string, extras: seq<string>)
    ensures StartsWith(RoastText(base, extras), base)
  {
    if extras != [] {
      StartsWithConcat(base, " Bonus points for: " + Join(extras, ", ") + ".");
      assert RoastText(base, extras) == base + (" Bonus points for: " + Join(extras, ", ") + ".");
    }
  }

  lemma RoastTextBonusIff(base: string, extras: seq<string>)
    ensures RoastText(base, extras) != base <==> extras != []
  {
    if extras != [] {
      assert |RoastText(base, extras)| > |base|;
    }
  }

  /** There are at most three bonus details. */
  lemma ExtrasAtMostThree(r: Forge.ForgeResult)
    ensures |RoastExtras(r)| <= 3
  {
  }

  /** The roast always starts with the chosen line. */
  lemma RoastStartsWithBase(r: Forge.ForgeResult, category: string, base: string)
    requires base in RoastsFor(category)
    ensures StartsWith(CustomRoast(r, category, base), base)
  {
    RoastTextStartsWithBase(base, RoastExtras(r));
  }

  /** The roast carries a bonus exactly when there are more than 5 unused
      imports, a critical issue or a leftover of an assistant. */
  lemma BonusIff(r: Forge.ForgeResult, category: string, base: string)
    requires base in RoastsFor(category)
    ensures CustomRoast(r, category, base) != base
            <==> (r.bloatReport != null && r.bloatReport.unusedImports > 5)
                 || (r.securityReport != null && r.securityReport.criticalCount > 0)
                 || (r.qualityReport != null
                     && Quality.CountType(r.qualityReport.smells, Quality.LlmArtifact) > 0)
  {
    RoastTextBonusIff(base, RoastExtras(r));
  }

  // ----- Highlights -----

  /** `f"[{issue.severity.upper()}] {issue.description}"`. */
  function SecurityHighlight(i: Security.SecurityIssue): string {
    "[" + Upper(Security.SeverityName(i.severity())) + "] " + i.description()
  }

  /** `f"{smell.smell_type}: {smell.context[:30]}..."`. */
  function SmellHighlight(s: Quality.CodeSmell): string {
    Quality.SmellTypeName(s.smellType) + ": " + Take(s.context, 30) + "..."
  }

  function SecurityHighlights(s: Security.SecurityReport?): seq<string>
    reads s
  {
    if s == null then []
    else var t := Take(s.issues, 3); seq(|t|, k requires 0 <= k < |t| => SecurityHighlight(t[k]))
  }

  function BloatHighlights(b: Bloat.BloatReport?): seq<string>
    reads b
  {
    if b == null then []
    else var t := Take(b.issues, 2); seq(|t|, k requires 0 <= k < |t| => t[k].description)
  }

  function SmellHighlights(q: Quality.QualityReport?): seq<string>
    reads q
  {
    if q == null then []
    else var t := Take(q.smells, 2); seq(|t|, k requires 0 <= k < |t| => SmellHighlight(t[k]))
  }

  /** `generate_highlights`. */
  function Highlights(r: Forge.ForgeResult): seq<string>
    reads r, r.bloatReport, r.securityReport, r.qualityReport
  {
    Take(SecurityHighlights(r.securityReport) + BloatHighlights(r.bloatReport)
         + SmellHighlights(r.qualityReport), 5)
  }

  function Min(a: int, b: int): int {
    if a < b then a else b
  }

  /** `(a + b + c)[:5]`, piece by piece: its length, ... */
  lemma TakeOfThreeLength(a: seq<string>, b: seq<string>, c: seq<string>)
    ensures |Take(a + b + c, 5)| == Min(5, |a| + |b| + |c|)
  {
  }

  /** ... the part taken from `a`, ... */
  lemma TakeOfThreeFront(a: seq<string>, b: seq<string>, c: seq<string>)
    ensures forall k :: 0 <= k < |a| && k < 5 ==> Take(a + b + c, 5)[k] == a[k]
  {
    var abc := a + b + c;
    forall k | 0 <= k < |a| ensures abc[k] == a[k] { }
  }

  /** ... the part taken from `b`, ... */
  lemma TakeOfThreeMiddle(a: seq<string>, b: seq<string>, c: seq<string>)
    ensures forall k :: |a| <= k < |a| + |b| && k < 5 ==> Take(a + b + c, 5)[k] == b[k - |a|]
  {
    var abc := a + b + c;
    forall k | |a| <= k < |a| + |b| ensures abc[k] == b[k - |a|] { }
  }

  /** ... and the part taken from `c`. */
  lemma TakeOfThreeBack(a: seq<string>, b: seq<string>, c: seq<string>)
    ensures forall k :: |a| + |b| <= k < |Take(a + b + c, 5)| ==> Take(a + b + c, 5)[k] == c[k - |a| - |b|]
  {
    var abc := a + b + c;
    assert |abc| == |a| + |b| + |c|;
    forall k | |a| + |b| <= k < |abc| ensures abc[k] == c[k - |a| - |b|] { }
  }

  lemma SecurityHighlightsCount(s: Security.SecurityReport?)
    ensures |SecurityHighlights(s)| == if s == null then 0 else Min(3, |s.issues|)
  {
  }

  lemma BloatHighlightsCount(b: Bloat.BloatReport?)
    ensures |BloatHighlights(b)| == if b == null then 0 else Min(2, |b.issues|)
  {
  }

  lemma SmellHighlightsCount(q: Quality.QualityReport?)
    ensures |SmellHighlights(q)| == if q == null then 0 else Min(2, |q.smells|)
  {
  }

  lemma SecurityHighlightsShape(s: Security.SecurityReport?)
    ensures var ns := if s == null then 0 else Min(3, |s.issues|);
            && |SecurityHighlights(s)| == ns
            && forall k :: 0 <= k < ns ==> SecurityHighlights(s)[k] == SecurityHighlight(s.issues[k])
  {
  }

  lemma BloatHighlightsShape(b: Bloat.BloatReport?)
    ensures var nb := if b == null then 0 else Min(2, |b.issues|);
            && |BloatHighlights(b)| == nb
            && forall k :: 0 <= k < nb ==> BloatHighlights(b)[k] == b.issues[k].description
  {
  }

  lemma SmellHighlightsShape(q: Quality.QualityReport?)
    ensures var nq := if q == null then 0 else Min(2, |q.smells|);
            && |SmellHighlights(q)| == nq
            && forall k :: 0 <= k < nq ==> SmellHighlights(q)[k] == SmellHighlight(q.smells[k])
  {
  }

  /** How many highlights each report offers before the cap of five. */
  function SecurityOffer(r: Forge.ForgeResult): nat
    reads r, r.securityReport
  {
    if r.securityReport == null then 0 else Min(3, |r.securityReport.issues|)
  }

  function BloatOffer(r: Forge.ForgeResult): nat
    reads r, r.bloatReport
  {
    if r.bloatReport == null then 0 else Min(2, |r.bloatReport.issues|)
  }

  function SmellOffer(r: Forge.ForgeResult): nat
    reads r, r.qualityReport
  {
    if r.qualityReport == null then 0 else Min(2, |r.qualityReport.smells|)
  }

  /** At most five highlights, fewer only when the reports offer fewer. */
  lemma HighlightsLength(r: Forge.ForgeResult)
    ensures |Highlights(r)| == Min(5, SecurityOffer(r) + BloatOffer(r) + SmellOffer(r))
    ensures |Highlights(r)| <= 5
  {
    TakeOfThreeLength(SecurityHighlights(r.securityReport), BloatHighlights(r.bloatReport),
                      SmellHighlights(r.qualityReport));
    SecurityHighlightsCount(r.securityReport);
    BloatHighlightsCount(r.bloatReport);
    SmellHighlightsCount(r.qualityReport);
  }

  /** The first highlights are the first security issues, in order. */
  lemma HighlightsSecurityFirst(r: Forge.ForgeResult)
    ensures forall k :: 0 <= k < SecurityOffer(r)
                        ==> Highlights(r)[k] == SecurityHighlight(r.securityReport.issues[k])
  {
    TakeOfThreeFront(SecurityHighlights(r.securityReport), BloatHighlights(r.bloatReport),
                     SmellHighlights(r.qualityReport));
    SecurityHighlightsShape(r.securityReport);
  }

  /** The bloat issues come next, as long as there is room. */
  lemma HighlightsBloatNext(r: Forge.ForgeResult)
    ensures forall k :: SecurityOffer(r) <= k < Min(5, SecurityOffer(r) + BloatOffer(r))
                        ==> Highlights(r)[k] == r.bloatReport.issues[k - SecurityOffer(r)].description
  {
    TakeOfThreeMiddle(SecurityHighlights(r.securityReport), BloatHighlights(r.bloatReport),
                      SmellHighlights(r.qualityReport));
    SecurityHighlightsCount(r.securityReport);
    BloatHighlightsShape(r.bloatReport);
  }

  /** The smells fill what room is left: every highlight past the security
      and bloat ones is a smell, in order. */
  lemma HighlightsSmellsLast(r: Forge.ForgeResult, k: int)
    requires SecurityOffer(r) + BloatOffer(r) <= k < |Highlights(r)|
    ensures r.qualityReport != null
    ensures Highlights(r)[k] == SmellHighlight(r.qualityReport.smells[k - SecurityOffer(r) - BloatOffer(r)])
  {
    TakeOfThreeBack(SecurityHighlights(r.securityReport), BloatHighlights(r.bloatReport),
                    SmellHighlights(r.qualityReport));
    SecurityHighlightsCount(r.securityReport);
    BloatHighlightsCount(r.bloatReport);
    SmellHighlightsShape(r.qualityReport);
  }
}
