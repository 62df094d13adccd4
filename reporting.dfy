/** What `generate_output` of scripts/repo_analyzer.py shows: the suggestions grouped by
    category in first-seen order, each group sorted stably by priority rank, and the empty
    case. The printed text itself is not modelled; an output is the structure it is
    printed from. */
module Reporting {
  import opened Strings
  import opened Suggestions

  // ---------------------------------------------------------------------------
  // The priority sort of a category's items

  /** `priority_order.get(priority, 4)`. */
  function Rank(priority: string): (r: nat)
    ensures r <= 4
    ensures r < 4 <==> priority in {"critical", "high", "medium", "low"}
  {
    if priority == "critical" then 0
    else if priority == "high" then 1
    else if priority == "medium" then 2
    else if priority == "low" then 3
    else 4
  }

  function RankOf(x: Suggestion): nat { Rank(x.priority) }

  predicate SortedByRank(s: seq<Suggestion>) {
    forall i, j :: 0 <= i < j < |s| ==> RankOf(s[i]) <= RankOf(s[j])
  }

  /** The entries of `xs` that have rank `r`, in their order in `xs`. */
  function WithRank(xs: seq<Suggestion>, r: nat): (b: seq<Suggestion>)
    ensures forall x :: x in b <==> x in xs && RankOf(x) == r
    ensures |b| <= |xs|
  {
    if xs == [] then []
    else (if RankOf(xs[0]) == r then [xs[0]] else []) + WithRank(xs[1..], r)
  }

  /** The entries of rank `r` and worse, rank by rank, each rank in its original order. */
  function RanksFrom(xs: seq<Suggestion>, r: nat): (s: seq<Suggestion>)
    ensures forall x :: x in s ==> RankOf(x) >= r
    ensures SortedByRank(s)
    decreases 5 - r
  {
    if r > 4 then []
    else
      var b, rest := WithRank(xs, r), RanksFrom(xs, r + 1);
      assert forall i :: 0 <= i < |b| ==> b[i] in b;
      assert forall i :: 0 <= i < |rest| ==> rest[i] in rest;
      b + rest
  }

  /** `items.sort(key=lambda x: priority_order.get(x['priority'], 4))`. */
  function SortByPriority(xs: seq<Suggestion>): seq<Suggestion> { RanksFrom(xs, 0) }

  lemma {:induction false} WithRankAppend(a: seq<Suggestion>, b: seq<Suggestion>, r: nat)
    ensures WithRank(a + b, r) == WithRank(a, r) + WithRank(b, r)
  {
    if a == [] {
      assert a + b == b;
    } else {
      assert (a + b)[1..] == a[1..] + b;
      WithRankAppend(a[1..], b, r);
    }
  }

  lemma {:induction false} WithRankTwice(xs: seq<Suggestion>, r: nat, q: nat)
    ensures WithRank(WithRank(xs, q), r) == if r == q then WithRank(xs, r) else []
  {
    if xs != [] {
      WithRankTwice(xs[1..], r, q);
      var h := if RankOf(xs[0]) == q then [xs[0]] else [];
      WithRankAppend(h, WithRank(xs[1..], q), r);
    }
  }

  lemma {:induction false} WithRankOfRanksFrom(xs: seq<Suggestion>, r: nat, from: nat)
    ensures WithRank(RanksFrom(xs, from), r) == if from <= r <= 4 then WithRank(xs, r) else []
    decreases 5 - from
  {
    if from <= 4 {
      WithRankOfRanksFrom(xs, r, from + 1);
      WithRankAppend(WithRank(xs, from), RanksFrom(xs, from + 1), r);
      WithRankTwice(xs, r, from);
    } else if r <= 4 {
      assert RanksFrom(xs, from) == [];
    } else {
      assert RanksFrom(xs, from) == [];
    }
  }

  /** The sort is stable: entries of equal rank keep their relative order. */
  lemma SortIsStable(xs: seq<Suggestion>, r: nat)
    ensures WithRank(SortByPriority(xs), r) == WithRank(xs, r)
  {
    WithRankOfRanksFrom(xs, r, 0);
    var b := WithRank(xs, r);
    assert b != [] ==> b[0] in b;
  }

  lemma {:induction false} RanksFromCons(x: Suggestion, rest: seq<Suggestion>, r: nat)
    ensures multiset(RanksFrom([x] + rest, r)) ==
      multiset(RanksFrom(rest, r)) + (if r <= RankOf(x) then multiset{x} else multiset{})
    decreases 5 - r
  {
    if r <= 4 {
      RanksFromCons(x, rest, r + 1);
      var xs := [x] + rest;
      assert xs[0] == x && xs[1..] == rest;
      var h := if RankOf(x) == r then [x] else [];
      assert WithRank(xs, r) == h + WithRank(rest, r);
      assert RanksFrom(xs, r) == WithRank(xs, r) + RanksFrom(xs, r + 1);
      assert RanksFrom(rest, r) == WithRank(rest, r) + RanksFrom(rest, r + 1);
      assert multiset(RanksFrom(xs, r)) == multiset(h) + multiset(WithRank(rest, r)) + multiset(RanksFrom(xs, r + 1));
    }
  }

  /** The sort is a permutation: it neither drops nor duplicates an entry. */
  lemma {:induction false} SortIsPermutation(xs: seq<Suggestion>)
    ensures multiset(SortByPriority(xs)) == multiset(xs)
  {
    if xs != [] {
      var x, rest := xs[0], xs[1..];
      SortIsPermutation(rest);
      RanksFromCons(x, rest, 0);
      assert [x] + rest == xs;
      assert multiset(xs) == multiset{x} + multiset(rest);
    }
  }

  /** The sort orders by rank: critical, high, medium, low, then any other priority. A
      corollary of the contract of `RanksFrom`, stated for the sort itself. */
  lemma SortIsOrdered(xs: seq<Suggestion>)
    ensures SortedByRank(SortByPriority(xs))
  {
  }

  // ---------------------------------------------------------------------------
  // Grouping by category

  predicate NoDuplicates(cs: seq<string>) {
    forall i, j :: 0 <= i < j < |cs| ==> cs[i] != cs[j]
  }

  /** The keys of `by_category` in insertion order: each category once, where it first occurs. */
  function FirstSeen(xs: seq<Suggestion>): seq<string>
  {
    if xs == [] then []
    else
      var prev, c := FirstSeen(xs[..|xs| - 1]), xs[|xs| - 1].category;
      if c in prev then prev else prev + [c]
  }

  /** The order holds every category of the list, and nothing else, each once. */
  lemma {:induction false} FirstSeenSpec(xs: seq<Suggestion>)
    ensures forall c :: c in FirstSeen(xs) <==> exists x :: x in xs && x.category == c
    ensures NoDuplicates(FirstSeen(xs))
  {
    if xs != [] {
      var init := xs[..|xs| - 1];
      FirstSeenSpec(init);
      assert forall x :: x in xs <==> x in init || x == xs[|xs| - 1];
    }
  }

  /** One more suggestion of the `by_category` loop: its category joins the order if it is new. */
  lemma FirstSeenStep(xs: seq<Suggestion>, i: nat)
    requires i < |xs|
    ensures FirstSeen(xs[..i + 1]) ==
      if xs[i].category in FirstSeen(xs[..i]) then FirstSeen(xs[..i]) else FirstSeen(xs[..i]) + [xs[i].category]
  {
    assert xs[..i + 1][..i] == xs[..i];
  }

  /** One more suggestion joins the end of its own category's list and of no other. */
  lemma FilterStep(xs: seq<Suggestion>, i: nat, c: string)
    requires i < |xs|
    ensures FilterByCategory(xs[..i + 1], c) ==
      FilterByCategory(xs[..i], c) + (if xs[i].category == c then [xs[i]] else [])
  {
    assert xs[..i + 1] == xs[..i] + [xs[i]];
    FilterCategoryAppend(xs[..i], [xs[i]], c);
  }

  /** A category not yet among the keys has no suggestions yet. */
  lemma UnseenIsEmpty(xs: seq<Suggestion>, c: string)
    requires c !in FirstSeen(xs)
    ensures FilterByCategory(xs, c) == []
  {
    FirstSeenSpec(xs);
    NoneOfCategory(xs, c);
  }

  lemma {:induction false} NoneOfCategory(xs: seq<Suggestion>, c: string)
    requires forall x :: x in xs ==> x.category != c
    ensures FilterByCategory(xs, c) == []
  {
    if xs != [] {
      assert xs[0] in xs;
      assert forall x :: x in xs[1..] ==> x in xs;
      NoneOfCategory(xs[1..], c);
    }
  }

  /** The dictionary `by_category` after the suggestions `xs[..i]`: a key per category seen,
      holding that category's suggestions in list order. */
  ghost predicate GroupsOf(m: map<string, seq<Suggestion>>, xs: seq<Suggestion>) {
    (forall c :: c in m <==> c in FirstSeen(xs)) &&
    (forall c :: c in m ==> m[c] == FilterByCategory(xs, c))
  }

  /** `by_category.setdefault(category, []).append(s)`, written as the loop writes it. */
  function AddToGroup(m: map<string, seq<Suggestion>>, x: Suggestion): (r: map<string, seq<Suggestion>>)
    ensures x.category in r && r[x.category] == (if x.category in m then m[x.category] else []) + [x]
    ensures forall c :: c != x.category ==> (c in r <==> c in m) && (c in m ==> r[c] == m[c])
  {
    var m1 := if x.category in m then m else m[x.category := []];
    m1[x.category := m1[x.category] + [x]]
  }

  /** One more iteration of the `by_category` loop keeps the dictionary in step with the list. */
  lemma GroupMapStep(m: map<string, seq<Suggestion>>, xs: seq<Suggestion>, i: nat)
    requires i < |xs| && GroupsOf(m, xs[..i])
    ensures GroupsOf(AddToGroup(m, xs[i]), xs[..i + 1])
  {
    GroupKeysStep(m, xs, i);
    GroupValuesStep(m, xs, i);
  }

  lemma GroupKeysStep(m: map<string, seq<Suggestion>>, xs: seq<Suggestion>, i: nat)
    requires i < |xs| && forall c :: c in m <==> c in FirstSeen(xs[..i])
    ensures forall c :: c in AddToGroup(m, xs[i]) <==> c in FirstSeen(xs[..i + 1])
  {
    FirstSeenStep(xs, i);
  }

  lemma GroupValuesStep(m: map<string, seq<Suggestion>>, xs: seq<Suggestion>, i: nat)
    requires i < |xs| && GroupsOf(m, xs[..i])
    ensures forall c :: c in AddToGroup(m, xs[i]) ==> AddToGroup(m, xs[i])[c] == FilterByCategory(xs[..i + 1], c)
  {
    var r, x := AddToGroup(m, xs[i]), xs[i];
    if x.category !in m {
      UnseenIsEmpty(xs[..i], x.category);
    }
    forall c | c in r ensures r[c] == FilterByCategory(xs[..i + 1], c) {
      FilterStep(xs, i, c);
    }
  }

  /** Categories only ever join the end of the order: the order of a prefix of the list is a
      prefix of the order of the whole list. */
  lemma {:induction false} FirstSeenGrows(xs: seq<Suggestion>, i: nat)
    requires i <= |xs|
    ensures |FirstSeen(xs[..i])| <= |FirstSeen(xs)|
    ensures FirstSeen(xs[..i]) == FirstSeen(xs)[..|FirstSeen(xs[..i])|]
    decreases |xs|
  {
    if i == |xs| {
      assert xs[..i] == xs;
    } else {
      var init := xs[..|xs| - 1];
      assert init[..i] == xs[..i];
      FirstSeenGrows(init, i);
    }
  }

  /** The entries whose category is among `cs`, in list order. */
  function InCategories(xs: seq<Suggestion>, cs: seq<string>): seq<Suggestion>
  {
    if xs == [] then []
    else (if xs[0].category in cs then [xs[0]] else []) + InCategories(xs[1..], cs)
  }

  /** The groups for `cs`, one after the other. */
  function Grouped(xs: seq<Suggestion>, cs: seq<string>): seq<Suggestion>
  {
    if cs == [] then [] else FilterByCategory(xs, cs[0]) + Grouped(xs, cs[1..])
  }

  lemma {:induction false} InCategoriesSplit(xs: seq<Suggestion>, c: string, cs: seq<string>)
    requires c !in cs
    ensures multiset(InCategories(xs, [c] + cs)) ==
      multiset(FilterByCategory(xs, c)) + multiset(InCategories(xs, cs))
  {
    if xs != [] {
      InCategoriesSplit(xs[1..], c, cs);
    }
  }

  lemma {:induction false} GroupedCovers(xs: seq<Suggestion>, cs: seq<string>)
    requires NoDuplicates(cs)
    ensures multiset(Grouped(xs, cs)) == multiset(InCategories(xs, cs))
  {
    if cs == [] {
      InCategoriesNone(xs);
    } else {
      assert NoDuplicates(cs[1..]) by {
        forall i, j | 0 <= i < j < |cs[1..]| ensures cs[1..][i] != cs[1..][j] {
          assert cs[1..][i] == cs[i + 1] && cs[1..][j] == cs[j + 1];
        }
      }
      GroupedCovers(xs, cs[1..]);
      assert cs[0] !in cs[1..] by {
        forall k | 0 <= k < |cs[1..]| ensures cs[1..][k] != cs[0] {
          assert cs[1..][k] == cs[k + 1];
        }
      }
      assert [cs[0]] + cs[1..] == cs;
      InCategoriesSplit(xs, cs[0], cs[1..]);
    }
  }

  lemma {:induction false} InCategoriesNone(xs: seq<Suggestion>)
    ensures InCategories(xs, []) == []
  {
    if xs != [] {
      InCategoriesNone(xs[1..]);
    }
  }

  lemma {:induction false} InCategoriesAll(xs: seq<Suggestion>, cs: seq<string>)
    requires forall x :: x in xs ==> x.category in cs
    ensures InCategories(xs, cs) == xs
  {
    if xs != [] {
      assert forall x :: x in xs[1..] ==> x in xs;
      InCategoriesAll(xs[1..], cs);
      assert [xs[0]] + xs[1..] == xs;
    }
  }

  /** The groups partition the list: every suggestion is in exactly one group, once. */
  lemma GroupsPartition(xs: seq<Suggestion>)
    ensures multiset(Grouped(xs, FirstSeen(xs))) == multiset(xs)
  {
    var cs := FirstSeen(xs);
    FirstSeenSpec(xs);
    GroupedCovers(xs, cs);
    assert forall x :: x in xs ==> x.category in cs;
    InCategoriesAll(xs, cs);
  }

  // ---------------------------------------------------------------------------
  // The rendered output

  /** `CATEGORIES`: the display label of each known category. */
  const Categories: map<string, string> := map[
    "documentation" := "Documentation improvements",
    "best_practices" := "Ansible best practices",
    "role_completeness" := "Role structure completeness",
    "testing" := "Test coverage",
    "security" := "Security enhancements",
    "performance" := "Performance optimizations",
    "maintenance" := "Maintenance and updates"]

  /** `CATEGORIES.get(category, category)`. */
  function CategoryLabel(c: string): (l: string)
    ensures c in Categories ==> l == Categories[c]
    ensures c !in Categories ==> l == c
  {
    if c in Categories then Categories[c] else c
  }

  /** One category heading with its count and its sorted items. */
  datatype Section = Section(category: string, heading: string, items: seq<Suggestion>)

  function SectionFor(xs: seq<Suggestion>, c: string): Section {
    Section(c, CategoryLabel(c), SortByPriority(FilterByCategory(xs, c)))
  }

  /** The sections the console and Markdown renderers print, in first-seen order. */
  function Sections(xs: seq<Suggestion>): (ss: seq<Section>)
    ensures |ss| == |FirstSeen(xs)|
  {
    var cs := FirstSeen(xs);
    seq(|cs|, k requires 0 <= k < |cs| => SectionFor(xs, cs[k]))
  }

  /** A list of sections that agrees with `Sections(xs)` at every position is `Sections(xs)`. */
  lemma SectionsByIndex(xs: seq<Suggestion>, ss: seq<Section>)
    requires |ss| == |FirstSeen(xs)|
    requires forall j :: 0 <= j < |ss| ==> ss[j] == SectionFor(xs, FirstSeen(xs)[j])
    ensures ss == Sections(xs)
  {
  }

  /** One more section of the rendering loop, built from the group of the next key. */
  lemma SectionsSnoc(xs: seq<Suggestion>, order: seq<string>, prev: seq<Section>, section: Section)
    requires |prev| < |order|
    requires forall j :: 0 <= j < |prev| ==> prev[j] == SectionFor(xs, order[j])
    requires section == SectionFor(xs, order[|prev|])
    ensures forall j :: 0 <= j < |prev + [section]| ==> (prev + [section])[j] == SectionFor(xs, order[j])
  {
    var next := prev + [section];
    forall j | 0 <= j < |next|
      ensures next[j] == SectionFor(xs, order[j])
    {
      if j < |prev| {
        assert next[j] == prev[j];
      } else {
        assert next[j] == section;
      }
    }
  }

  datatype Report =
    | NoSuggestions                                                     // "No improvement suggestions found."
    | Console(total: nat, sections: seq<Section>)
    | Json(analysisDate: string, total: nat, suggestions: seq<Suggestion>)
    | Markdown(analysisDate: string, total: nat, sections: seq<Section>)
    | NoReport                                                          // a format none of the renderers handles

  /** What `generate_output` prints, and whether the GitHub note follows it. */
  datatype Output = Output(report: Report, githubNote: bool)

  const NoSuggestionsMessage: string := "No improvement suggestions found."

  /** `generate_output` for a list `xs`, with `now` standing for the timestamp. */
  function Render(format: string, github: bool, xs: seq<Suggestion>, now: string): Output
  {
    if xs == [] then Output(NoSuggestions, false)
    else
      var report :=
        if format == "console" then Console(|xs|, Sections(xs))
        else if format == "json" then Json(now, |xs|, xs)
        else if format == "markdown" then Markdown(now, |xs|, Sections(xs))
        else NoReport;
      Output(report, github)
  }

  /** The empty list prints only the message, whatever the format, and no GitHub note. */
  lemma RenderEmpty(format: string, github: bool, now: string)
    ensures Render(format, github, [], now) == Output(NoSuggestions, false)
  {
  }

  /** A non-empty list never prints the empty message; the totals are the list length, the
      JSON document lists the suggestions in their original order, and the GitHub note
      follows exactly when it is enabled. */
  lemma RenderNonEmpty(format: string, github: bool, xs: seq<Suggestion>, now: string)
    requires xs != []
    ensures var o := Render(format, github, xs, now);
      !o.report.NoSuggestions? && o.githubNote == github &&
      (o.report.Console? || o.report.Json? || o.report.Markdown? ==> o.report.total == |xs|) &&
      (o.report.Json? ==> o.report.suggestions == xs && o.report.analysisDate == now) &&
      (o.report.NoReport? <==> format !in {"console", "json", "markdown"})
  {
  }

  /** Each section is one category, in first-seen order, labelled from `CATEGORIES` or by
      its own name; its items are exactly that category's suggestions, sorted by rank, with
      ties in list order. */
  lemma SectionsSpec(xs: seq<Suggestion>, k: nat)
    requires k < |Sections(xs)|
    ensures var s := Sections(xs)[k];
      s.category == FirstSeen(xs)[k] &&
      s.heading == (if s.category in Categories then Categories[s.category] else s.category) &&
      SortedByRank(s.items) &&
      multiset(s.items) == multiset(FilterByCategory(xs, s.category)) &&
      (forall r: nat :: WithRank(s.items, r) == WithRank(FilterByCategory(xs, s.category), r)) &&
      (forall x :: x in s.items <==> x in xs && x.category == s.category)
  {
    var c := FirstSeen(xs)[k];
    var g := FilterByCategory(xs, c);
    SortIsPermutation(g);
    forall r: nat ensures WithRank(SortByPriority(g), r) == WithRank(g, r) {
      SortIsStable(g, r);
    }
    assert forall x :: x in SortByPriority(g) <==> x in multiset(SortByPriority(g));
  }
}
