/** The suggestion record of scripts/repo_analyzer.py and the two filters of `analyze`
    and `main`. */
module Suggestions {
  import opened Strings

  /** What a rule reports: a suggestion before `add_suggestion` numbers and dates it. */
  datatype Finding = Finding(
    category: string,
    title: string,
    description: string,
    filePaths: seq<string>,
    priority: string)

  /** The dictionary `add_suggestion` appends: `id`, the finding's fields, and `date`. */
  datatype Suggestion = Suggestion(
    id: nat,
    category: string,
    title: string,
    description: string,
    filePaths: seq<string>,
    priority: string,
    date: string)

  function Payload(s: Suggestion): Finding {
    Finding(s.category, s.title, s.description, s.filePaths, s.priority)
  }

  function MakeSuggestion(id: nat, f: Finding, date: string): (s: Suggestion)
    ensures Payload(s) == f && s.id == id && s.date == date
  {
    Suggestion(id, f.category, f.title, f.description, f.filePaths, f.priority, date)
  }

  /** The suggestions that `add_suggestion` makes of `fs`, one call per finding in order,
      on a list that already holds `base` entries. */
  function Stamp(fs: seq<Finding>, base: nat, date: string): (r: seq<Suggestion>)
    ensures |r| == |fs|
  {
    seq(|fs|, k requires 0 <= k < |fs| => MakeSuggestion(base + k + 1, fs[k], date))
  }

  /** Ids are exactly 1..N in list order. */
  predicate IdsDense(s: seq<Suggestion>) {
    forall k :: 0 <= k < |s| ==> s[k].id == k + 1
  }

  /** Numbering two batches one after the other numbers their concatenation. */
  lemma StampAppend(a: seq<Finding>, b: seq<Finding>, base: nat, date: string)
    ensures Stamp(a + b, base, date) == Stamp(a, base, date) + Stamp(b, base + |a|, date)
  {
    var l, r := Stamp(a + b, base, date), Stamp(a, base, date) + Stamp(b, base + |a|, date);
    assert |l| == |r|;
    forall k | 0 <= k < |l| ensures l[k] == r[k] {
      if k < |a| {
        assert (a + b)[k] == a[k];
      } else {
        assert (a + b)[k] == b[k - |a|];
      }
    }
  }

  /** Numbering one more finding after a numbered batch. */
  lemma StampSnoc(s0: seq<Suggestion>, done: seq<Finding>, f: Finding, date: string)
    ensures s0 + Stamp(done, |s0|, date) + [MakeSuggestion(|s0| + |done| + 1, f, date)] ==
      s0 + Stamp(done + [f], |s0|, date)
  {
    StampAppend(done, [f], |s0|, date);
  }

  /** Numbering two batches after a list, the second after the first. */
  lemma StampExtend(s0: seq<Suggestion>, a: seq<Finding>, b: seq<Finding>, date: string)
    ensures s0 + Stamp(a, |s0|, date) + Stamp(b, |s0 + Stamp(a, |s0|, date)|, date) ==
      s0 + Stamp(a + b, |s0|, date)
  {
    StampAppend(a, b, |s0|, date);
  }

  /** Numbering three batches in a row numbers their concatenation. */
  lemma StampThree(s0: seq<Suggestion>, done: seq<Finding>, a: seq<Finding>, b: seq<Finding>, c: seq<Finding>, date: string)
    ensures s0 + Stamp(done + a + b + c, |s0|, date) == s0 + Stamp(done + (a + b + c), |s0|, date)
  {
    assert done + a + b + c == done + (a + b + c);
  }

  /** A loop's record of findings grows by the findings of one more step. */
  lemma AppendStep(base: seq<Finding>, whole: seq<Finding>, prev: seq<Finding>, next: seq<Finding>)
    requires whole == prev + next
    ensures base + whole == (base + prev) + next
  {
  }

  /** Numbering a batch after a dense list keeps the list dense, and each new entry
      carries its finding unchanged. */
  lemma StampKeepsDense(s: seq<Suggestion>, fs: seq<Finding>, date: string)
    requires IdsDense(s)
    ensures IdsDense(s + Stamp(fs, |s|, date))
    ensures (s + Stamp(fs, |s|, date))[..|s|] == s
    ensures forall k :: 0 <= k < |fs| ==>
      Payload((s + Stamp(fs, |s|, date))[|s| + k]) == fs[k]
  {
    var t := s + Stamp(fs, |s|, date);
    forall k | 0 <= k < |t| ensures t[k].id == k + 1 {
      if k >= |s| {
        assert t[k] == Stamp(fs, |s|, date)[k - |s|];
      }
    }
    forall k | 0 <= k < |fs| ensures Payload(t[|s| + k]) == fs[k] {
      assert t[|s| + k] == Stamp(fs, |s|, date)[k];
    }
  }

  /** Numbering the same findings after `n` earlier entries gives the same records with
      every id moved up by `n`. */
  lemma StampShift(fs: seq<Finding>, n: nat, date: string)
    ensures |Stamp(fs, n, date)| == |Stamp(fs, 0, date)|
    ensures forall k :: 0 <= k < |fs| ==>
      Stamp(fs, n, date)[k] == Stamp(fs, 0, date)[k].(id := Stamp(fs, 0, date)[k].id + n)
  {
  }

  /** `any(role in path for path in s['file_paths'])`. */
  predicate MatchesRole(s: Suggestion, role: string) {
    exists p :: p in s.filePaths && Contains(p, role)
  }

  /** `[s for s in xs if any(role in path for path in s['file_paths'])]`. */
  function FilterByRole(xs: seq<Suggestion>, role: string): (r: seq<Suggestion>)
    ensures forall x :: x in r <==> x in xs && MatchesRole(x, role)
    ensures |r| <= |xs|
  {
    if xs == [] then []
    else (if MatchesRole(xs[0], role) then [xs[0]] else []) + FilterByRole(xs[1..], role)
  }

  /** `[s for s in xs if s['category'] == category]`. */
  function FilterByCategory(xs: seq<Suggestion>, category: string): (r: seq<Suggestion>)
    ensures forall x :: x in r <==> x in xs && x.category == category
    ensures |r| <= |xs|
  {
    if xs == [] then []
    else (if xs[0].category == category then [xs[0]] else []) + FilterByCategory(xs[1..], category)
  }

  /** The filters of `analyze`: the role filter first, then the category filter, each
      only when it is set to a non-empty string. */
  function ApplyFilters(xs: seq<Suggestion>, role: Option<string>, category: Option<string>): seq<Suggestion>
  {
    var byRole := if Truthy(role) then FilterByRole(xs, role.value) else xs;
    if Truthy(category) then FilterByCategory(byRole, category.value) else byRole
  }

  /** The role filter tests substrings, not names: filtering by a role also keeps the
      suggestions about every role whose name starts with it (`slurm` keeps `slurm_gpu`). */
  lemma RoleFilterMatchesLongerName(xs: seq<Suggestion>, s: Suggestion, p: string, role: string, longer: string)
    requires s in xs && p in s.filePaths
    requires Contains(p, longer) && StartsWith(longer, role)
    ensures s in FilterByRole(xs, role)
  {
    var k :| 0 <= k <= |p| - |longer| && OccursAt(p, longer, k);
    assert p[k..k + |role|] == p[k..k + |longer|][..|role|];
    assert OccursAt(p, role, k);
  }

  /** The filters of `main`, applied in place in the opposite order: category, then role. */
  function MainFilters(xs: seq<Suggestion>, role: Option<string>, category: Option<string>): seq<Suggestion>
  {
    var byCategory := if Truthy(category) then FilterByCategory(xs, category.value) else xs;
    if Truthy(role) then FilterByRole(byCategory, role.value) else byCategory
  }

  /** The two filters commute. */
  lemma {:induction false} FiltersCommute(xs: seq<Suggestion>, role: string, category: string)
    ensures FilterByCategory(FilterByRole(xs, role), category) == FilterByRole(FilterByCategory(xs, category), role)
  {
    if xs != [] {
      FiltersCommute(xs[1..], role, category);
      var h := xs[0];
      var hr := if MatchesRole(h, role) then [h] else [];
      var hc := if h.category == category then [h] else [];
      FilterCategoryAppend(hr, FilterByRole(xs[1..], role), category);
      FilterRoleAppend(hc, FilterByCategory(xs[1..], category), role);
    }
  }

  lemma {:induction false} FilterCategoryAppend(a: seq<Suggestion>, b: seq<Suggestion>, category: string)
    ensures FilterByCategory(a + b, category) == FilterByCategory(a, category) + FilterByCategory(b, category)
  {
    if a != [] {
      assert (a + b)[1..] == a[1..] + b;
      FilterCategoryAppend(a[1..], b, category);
    } else {
      assert a + b == b;
    }
  }

  lemma {:induction false} FilterRoleAppend(a: seq<Suggestion>, b: seq<Suggestion>, role: string)
    ensures FilterByRole(a + b, role) == FilterByRole(a, role) + FilterByRole(b, role)
  {
    if a != [] {
      assert (a + b)[1..] == a[1..] + b;
      FilterRoleAppend(a[1..], b, role);
    } else {
      assert a + b == b;
    }
  }

  /** `main`'s in-place filtering leaves the same list as `analyze`'s filtered copy. */
  lemma MainFiltersAgree(xs: seq<Suggestion>, role: Option<string>, category: Option<string>)
    ensures MainFilters(xs, role, category) == ApplyFilters(xs, role, category)
  {
    if Truthy(role) && Truthy(category) {
      FiltersCommute(xs, role.value, category.value);
    }
  }
}
