/** The six detection rules of scripts/repo_analyzer.py as functions of the repository
    snapshot. Each pass over the roles (or over a role's files) is written as a function
    recursive on the last element, so that the loops of the analyzer's methods
    (module Analyzer) can be proved against it one iteration at a time. */
module Rules {
  import opened Strings
  import opened RepoTree
  import opened Patterns
  import opened Suggestions
  import opened Messages

  /** The findings a rule added, and whether an exception escaped from it. When one did,
      the findings are those added before it was raised and no later rule runs. */
  datatype RuleResult = RuleResult(findings: seq<Finding>, raised: bool)

  function Completed(fs: seq<Finding>): RuleResult { RuleResult(fs, false) }

  const Raised: RuleResult := RuleResult([], true)

  /** Running `b` after `a`. */
  function Then(a: RuleResult, b: RuleResult): (r: RuleResult)
    ensures r.raised <==> a.raised || b.raised
    ensures r.findings == if a.raised then a.findings else a.findings + b.findings
  {
    if a.raised then a else RuleResult(a.findings + b.findings, b.raised)
  }

  /** A rule's loop over a sequence (the roles, a directory listing, the files of a walk):
      each step runs in turn, and the loop stops at the first step that raises. */
  function Sweep<X>(xs: seq<X>, step: X -> RuleResult): RuleResult
  {
    if xs == [] then Completed([])
    else Then(Sweep(xs[..|xs| - 1], step), step(xs[|xs| - 1]))
  }

  /** The loop raises iff some step raises, and it reports only what its steps report. */
  lemma {:induction false} SweepFacts<X>(xs: seq<X>, step: X -> RuleResult)
    ensures Sweep(xs, step).raised <==> exists k :: 0 <= k < |xs| && step(xs[k]).raised
    ensures forall f :: f in Sweep(xs, step).findings ==> exists k :: 0 <= k < |xs| && f in step(xs[k]).findings
  {
    if xs != [] {
      var init, last := xs[..|xs| - 1], xs[|xs| - 1];
      SweepFacts(init, step);
      var a, b := Sweep(init, step), step(last);
      assert Sweep(xs, step) == Then(a, b);
      assert forall k :: 0 <= k < |init| ==> init[k] == xs[k];
      forall f | f in Sweep(xs, step).findings
        ensures exists k :: 0 <= k < |xs| && f in step(xs[k]).findings
      {
        if f !in a.findings {
          assert f in b.findings;
          assert f in step(xs[|xs| - 1]).findings;
        }
      }
    }
  }

  /** One more iteration of the loop. */
  lemma SweepStep<X>(xs: seq<X>, i: nat, step: X -> RuleResult)
    requires i < |xs|
    ensures Sweep(xs[..i + 1], step) == Then(Sweep(xs[..i], step), step(xs[i]))
  {
    assert xs[..i + 1][..i] == xs[..i];
  }

  /** One more iteration of the loop, seen from what the loop has reported so far. */
  lemma SweepAccumulate<X>(done: seq<Finding>, xs: seq<X>, i: nat, step: X -> RuleResult, b: RuleResult)
    requires i < |xs| && !Sweep(xs[..i], step).raised && b == step(xs[i])
    ensures done + Sweep(xs[..i + 1], step).findings == (done + Sweep(xs[..i], step).findings) + b.findings
    ensures Sweep(xs[..i + 1], step).raised == b.raised
  {
    SweepStep(xs, i, step);
    assert done + (Sweep(xs[..i], step).findings + b.findings) ==
      (done + Sweep(xs[..i], step).findings) + b.findings;
  }

  /** Once a step has raised, the rest of the loop does not run. */
  lemma {:induction false} SweepStops<X>(xs: seq<X>, i: nat, step: X -> RuleResult)
    requires i <= |xs| && Sweep(xs[..i], step).raised
    ensures Sweep(xs, step) == Sweep(xs[..i], step)
    decreases |xs|
  {
    if i == |xs| {
      assert xs[..i] == xs;
    } else {
      var init := xs[..|xs| - 1];
      assert init[..i] == xs[..i];
      SweepStops(init, i, step);
    }
  }

  /** Steps that each add at most `n` findings add at most `n` per element in all. */
  lemma {:induction false} SweepBound<X>(xs: seq<X>, step: X -> RuleResult, n: nat)
    requires forall k :: 0 <= k < |xs| ==> |step(xs[k]).findings| <= n
    ensures |Sweep(xs, step).findings| <= n * |xs|
  {
    if xs != [] {
      var init := xs[..|xs| - 1];
      assert forall k :: 0 <= k < |init| ==> init[k] == xs[k];
      SweepBound(init, step, n);
      assert n * (|xs| - 1) + n == n * |xs|;
    }
  }

  lemma SweepWellFormed<X>(xs: seq<X>, step: X -> RuleResult)
    requires forall k :: 0 <= k < |xs| ==> AllWellFormed(step(xs[k]).findings)
    ensures AllWellFormed(Sweep(xs, step).findings)
  {
    SweepFacts(xs, step);
  }

  /** The categories the rules emit: every key of `CATEGORIES` except `performance`. */
  const RuleCategories: set<string> :=
    {"documentation", "best_practices", "role_completeness", "testing", "security", "maintenance"}

  const Priorities: set<string> := {"critical", "high", "medium", "low"}

  /** What every rule's finding looks like: a known category and priority, and one path. */
  predicate WellFormed(f: Finding) {
    f.category in RuleCategories && f.priority in Priorities && |f.filePaths| == 1
  }

  predicate AllWellFormed(fs: seq<Finding>) {
    forall f :: f in fs ==> WellFormed(f)
  }

  /** A rule reports a well-formed finding or nothing. */
  lemma WellFormedIf(c: bool, f: Finding)
    requires WellFormed(f)
    ensures AllWellFormed(if c then [f] else [])
  {
  }

  // ---------------------------------------------------------------------------
  // analyze_role_structure

  const StandardDirs: seq<string> := ["defaults", "handlers", "meta", "tasks", "templates", "vars"]

  /** `[d for d in dirs if d not in existing_dirs]`, where `existing_dirs` are the
      sub-directories of the role. */
  function MissingDirs(t: Tree, rolePath: string, dirs: seq<string>): (m: seq<string>)
    ensures forall d :: d in m <==> d in dirs && PathJoin(rolePath, d) !in t.dirs
    ensures |m| <= |dirs|
  {
    if dirs == [] then []
    else (if PathJoin(rolePath, dirs[0]) !in t.dirs then [dirs[0]] else []) + MissingDirs(t, rolePath, dirs[1..])
  }

  function MissingDirsFinding(role: string, rolePath: string, missing: seq<string>): (f: Finding)
    ensures WellFormed(f)
  {
    Finding("role_completeness",
      DirsTitle + role + "' role",
      "The '" + role + DirsLead + Join(missing, ", ") +
      DirsAdvice,
      [rolePath], "medium")
  }

  function MissingReadmeFinding(role: string, rolePath: string): (f: Finding)
    ensures WellFormed(f)
  {
    Finding("documentation",
      ReadmeTitle + role + "' role",
      "The '" + role + ReadmeLead +
      ReadmeAdvice,
      [rolePath], "high")
  }

  function MissingMetaFinding(role: string, rolePath: string): (f: Finding)
    ensures WellFormed(f)
  {
    Finding("role_completeness",
      MetaTitle + role + "' role",
      "The '" + role + MetaLead +
      MetaAdvice,
      [rolePath], "medium")
  }

  function MetaMainPath(t: Tree, role: string): string {
    PathJoin(PathJoin(RolePath(t, role), "meta"), "main.yml")
  }

  /** Some standard subdirectory is not a directory of the role. */
  predicate LacksStandardDir(t: Tree, role: string) {
    exists d :: d in StandardDirs && PathJoin(RolePath(t, role), d) !in t.dirs
  }

  function MissingDirsCheck(t: Tree, role: string): (fs: seq<Finding>)
    ensures AllWellFormed(fs)
    ensures |fs| == if LacksStandardDir(t, role) then 1 else 0
    ensures forall f :: f in fs ==>
      f.category == "role_completeness" && f.priority == "medium" && f.filePaths == [RolePath(t, role)]
  {
    var missing := MissingDirs(t, RolePath(t, role), StandardDirs);
    assert missing != [] ==> missing[0] in missing;
    WellFormedIf(missing != [], MissingDirsFinding(role, RolePath(t, role), missing));
    if missing != [] then [MissingDirsFinding(role, RolePath(t, role), missing)] else []
  }

  function MissingReadmeCheck(t: Tree, role: string): (fs: seq<Finding>)
    ensures AllWellFormed(fs)
    ensures |fs| == if !Exists(t, RoleReadmePath(t, role)) then 1 else 0
    ensures forall f :: f in fs ==>
      f.category == "documentation" && f.priority == "high" && f.filePaths == [RolePath(t, role)]
  {
    WellFormedIf(!Exists(t, RoleReadmePath(t, role)), MissingReadmeFinding(role, RolePath(t, role)));
    if !Exists(t, RoleReadmePath(t, role)) then [MissingReadmeFinding(role, RolePath(t, role))] else []
  }

  function MissingMetaCheck(t: Tree, role: string): (fs: seq<Finding>)
    ensures AllWellFormed(fs)
    ensures |fs| == if !Exists(t, MetaMainPath(t, role)) then 1 else 0
    ensures forall f :: f in fs ==>
      f.category == "role_completeness" && f.priority == "medium" && f.filePaths == [RolePath(t, role)]
  {
    WellFormedIf(!Exists(t, MetaMainPath(t, role)), MissingMetaFinding(role, RolePath(t, role)));
    if !Exists(t, MetaMainPath(t, role)) then [MissingMetaFinding(role, RolePath(t, role))] else []
  }

  /** The three independent checks for one role, in the order the source makes them: one
      finding per failed check, never merged, each naming the role directory. */
  function StructureForRole(t: Tree, role: string): (fs: seq<Finding>)
    ensures AllWellFormed(fs)
  {
    MissingDirsCheck(t, role) + MissingReadmeCheck(t, role) + MissingMetaCheck(t, role)
  }

  /** One finding per failed structure check: the three are never merged. */
  lemma StructureFindingCount(t: Tree, role: string)
    ensures |StructureForRole(t, role)| ==
      |MissingDirsCheck(t, role)| + |MissingReadmeCheck(t, role)| + |MissingMetaCheck(t, role)|
    ensures |StructureForRole(t, role)| <= 3
  {
  }

  /** Each structure finding names the role directory; the structure checks are medium
      `role_completeness` findings and the README check a high `documentation` one. */
  lemma StructureFindingKinds(t: Tree, role: string)
    ensures forall f :: f in StructureForRole(t, role) ==>
      f.filePaths == [RolePath(t, role)] &&
      ((f.category == "documentation" && f.priority == "high") ||
       (f.category == "role_completeness" && f.priority == "medium"))
  {
    var a, b, c := MissingDirsCheck(t, role), MissingReadmeCheck(t, role), MissingMetaCheck(t, role);
    assert StructureForRole(t, role) == a + b + c;
    assert forall f :: f in a + b + c ==> f in a || f in b || f in c;
  }

  /** The structure rule reports on documentation exactly when the role has no README.md. */
  lemma StructureDocumentationIff(t: Tree, role: string)
    ensures (exists f :: f in StructureForRole(t, role) && f.category == "documentation") <==>
      !Exists(t, RoleReadmePath(t, role))
  {
    var a, b, c := MissingDirsCheck(t, role), MissingReadmeCheck(t, role), MissingMetaCheck(t, role);
    var fs := StructureForRole(t, role);
    assert fs == a + b + c;
    if Exists(t, RoleReadmePath(t, role)) {
      assert b == [];
      forall f | f in fs ensures f.category != "documentation" {
        assert f in a || f in c;
        assert f.category == "role_completeness";
      }
    } else {
      assert b[0] in fs && b[0].category == "documentation";
    }
  }

  function StructurePass(t: Tree, roles: seq<string>): (fs: seq<Finding>)
    ensures AllWellFormed(fs)
    ensures |fs| <= 3 * |roles|
  {
    if roles == [] then []
    else StructurePass(t, roles[..|roles| - 1]) + StructureForRole(t, roles[|roles| - 1])
  }

  /** One more role of the structure loop. */
  lemma StructurePassStep(t: Tree, roles: seq<string>, i: nat)
    requires i < |roles|
    ensures StructurePass(t, roles[..i + 1]) == StructurePass(t, roles[..i]) + StructureForRole(t, roles[i])
  {
    assert roles[..i + 1][..i] == roles[..i];
  }

  function RoleStructure(t: Tree): seq<Finding> { StructurePass(t, t.roles) }

  // ---------------------------------------------------------------------------
  // analyze_documentation

  const MainReadmeSections: seq<string> := ["Requirements", "Installation", "Usage"]

  const RoleReadmeSections: seq<string> := ["Requirements", "Role Variables", "Dependencies", "Example Playbook"]

  /** The headings among `names` that `content` lacks, in the order of `names`. */
  function MissingSections(content: string, names: seq<string>): (m: seq<string>)
    ensures forall n :: n in m <==> n in names && !HasHeading(content, n)
  {
    if names == [] then []
    else (if !HasHeading(content, names[0]) then [names[0]] else []) + MissingSections(content, names[1..])
  }

  function MainReadmePath(t: Tree): string { PathJoin(t.root, "README.md") }

  function RoleReadmePath(t: Tree, role: string): string { PathJoin(RolePath(t, role), "README.md") }

  function MainReadmeFinding(missing: seq<string>, path: string): (f: Finding)
    ensures WellFormed(f)
  {
    Finding("documentation",
      MainReadmeTitle,
      MainReadmeLead + Join(missing, ", ") + ".",
      [path], "medium")
  }

  /** The check of the top-level README.md; reading it is not guarded, so a decoding
      error (or a directory of that name) raises. */
  function MainReadmeCheck(t: Tree): (r: RuleResult)
    ensures AllWellFormed(r.findings)
    ensures |r.findings| <= 1
    ensures r.raised <==> Exists(t, MainReadmePath(t)) && !ReadFile(t, MainReadmePath(t)).Read?
  {
    var p := MainReadmePath(t);
    if !Exists(t, p) then Completed([])
    else match ReadFile(t, p)
      case Read(c) =>
        var m := MissingSections(c, MainReadmeSections);
        WellFormedIf(m != [], MainReadmeFinding(m, p));
        Completed(if m != [] then [MainReadmeFinding(m, p)] else [])
      case _ => Raised
  }

  function RoleReadmeFinding(role: string, missing: seq<string>, path: string): (f: Finding)
    ensures WellFormed(f)
  {
    Finding("documentation",
      RoleReadmeTitle + role + "' role",
      RoleReadmeLead + role + RoleReadmeMiddle + Join(missing, ", ") + ".",
      [path], "medium")
  }

  function RoleReadmeCheck(t: Tree, role: string): (r: RuleResult)
    ensures AllWellFormed(r.findings)
    ensures |r.findings| <= 1
    ensures r.raised <==> Exists(t, RoleReadmePath(t, role)) && !ReadFile(t, RoleReadmePath(t, role)).Read?
  {
    var p := RoleReadmePath(t, role);
    if !Exists(t, p) then Completed([])
    else match ReadFile(t, p)
      case Read(c) =>
        var m := MissingSections(c, RoleReadmeSections);
        WellFormedIf(m != [], RoleReadmeFinding(role, m, p));
        Completed(if m != [] then [RoleReadmeFinding(role, m, p)] else [])
      case _ => Raised
  }

  /** A section list written out after a lead names every section in it. */
  lemma ListNamesSections(lead: string, missing: seq<string>, s: string)
    requires s in missing
    ensures Contains(lead + Join(missing, ", ") + ".", s)
  {
    JoinContains(missing, ", ", s);
    ContainsInMiddle(lead, Join(missing, ", "), ".", s);
  }

  /** The top-level README.md is reported exactly when it reads as text and lacks one of
      the required headings. */
  lemma MainReadmeCheckIff(t: Tree)
    ensures MainReadmeCheck(t).findings != [] <==>
      Exists(t, MainReadmePath(t)) && ReadFile(t, MainReadmePath(t)).Read? &&
      MissingSections(ReadFile(t, MainReadmePath(t)).text, MainReadmeSections) != []
  {
  }

  /** The finding is a medium documentation finding on README.md whose description lists
      the missing headings, in the order they are required, and names each of them. */
  lemma MainReadmeCheckKind(t: Tree)
    ensures forall f :: f in MainReadmeCheck(t).findings ==>
      f.category == "documentation" && f.priority == "medium" && f.filePaths == [MainReadmePath(t)] &&
      ReadFile(t, MainReadmePath(t)).Read? &&
      f.description == MainReadmeLead + Join(MissingSections(ReadFile(t, MainReadmePath(t)).text, MainReadmeSections), ", ") + "."
    ensures forall f, s ::
      (f in MainReadmeCheck(t).findings && s in MainReadmeSections &&
       ReadFile(t, MainReadmePath(t)).Read? && !HasHeading(ReadFile(t, MainReadmePath(t)).text, s)) ==>
      Contains(f.description, s)
  {
    var p := MainReadmePath(t);
    if MainReadmeCheck(t).findings != [] {
      var m := MissingSections(ReadFile(t, p).text, MainReadmeSections);
      assert MainReadmeCheck(t).findings == [MainReadmeFinding(m, p)];
      forall s | s in MainReadmeSections && !HasHeading(ReadFile(t, p).text, s)
        ensures Contains(MainReadmeFinding(m, p).description, s)
      {
        ListNamesSections(MainReadmeLead, m, s);
      }
    }
  }

  /** A role's README.md is reported exactly when it exists, reads as text and lacks one of
      the required headings. */
  lemma RoleReadmeCheckIff(t: Tree, role: string)
    ensures RoleReadmeCheck(t, role).findings != [] <==>
      Exists(t, RoleReadmePath(t, role)) && ReadFile(t, RoleReadmePath(t, role)).Read? &&
      MissingSections(ReadFile(t, RoleReadmePath(t, role)).text, RoleReadmeSections) != []
  {
  }

  /** The finding is a medium documentation finding on the role's README.md whose
      description lists the missing headings and names each of them. */
  lemma RoleReadmeCheckKind(t: Tree, role: string)
    ensures forall f :: f in RoleReadmeCheck(t, role).findings ==>
      f.category == "documentation" && f.priority == "medium" && f.filePaths == [RoleReadmePath(t, role)] &&
      ReadFile(t, RoleReadmePath(t, role)).Read? &&
      f.description == RoleReadmeLead + role + RoleReadmeMiddle +
        Join(MissingSections(ReadFile(t, RoleReadmePath(t, role)).text, RoleReadmeSections), ", ") + "."
    ensures forall f, s ::
      (f in RoleReadmeCheck(t, role).findings && s in RoleReadmeSections &&
       ReadFile(t, RoleReadmePath(t, role)).Read? && !HasHeading(ReadFile(t, RoleReadmePath(t, role)).text, s)) ==>
      Contains(f.description, s)
  {
    var p := RoleReadmePath(t, role);
    if RoleReadmeCheck(t, role).findings != [] {
      var m := MissingSections(ReadFile(t, p).text, RoleReadmeSections);
      assert RoleReadmeCheck(t, role).findings == [RoleReadmeFinding(role, m, p)];
      forall s | s in RoleReadmeSections && !HasHeading(ReadFile(t, p).text, s)
        ensures Contains(RoleReadmeFinding(role, m, p).description, s)
      {
        ListNamesSections(RoleReadmeLead + role + RoleReadmeMiddle, m, s);
      }
    }
  }

  function RoleReadmeStep(t: Tree): string -> RuleResult { role => RoleReadmeCheck(t, role) }

  function Documentation(t: Tree): (r: RuleResult)
    ensures AllWellFormed(r.findings)
  {
    SweepWellFormed(t.roles, RoleReadmeStep(t));
    Then(MainReadmeCheck(t), Sweep(t.roles, RoleReadmeStep(t)))
  }

  /** The documentation rule raises iff reading the top-level README.md or some role's
      README.md raises; each of its findings is a medium one on one of those files. */
  lemma DocumentationFacts(t: Tree)
    ensures Documentation(t).raised <==>
      MainReadmeCheck(t).raised || exists k :: 0 <= k < |t.roles| && RoleReadmeCheck(t, t.roles[k]).raised
    ensures forall f :: f in Documentation(t).findings ==>
      f.category == "documentation" && f.priority == "medium" &&
      (f.filePaths == [MainReadmePath(t)] || exists k :: 0 <= k < |t.roles| && f.filePaths == [RoleReadmePath(t, t.roles[k])])
  {
    var main, roles := MainReadmeCheck(t), Sweep(t.roles, RoleReadmeStep(t));
    assert Documentation(t) == Then(main, roles);
    SweepFacts(t.roles, RoleReadmeStep(t));
    MainReadmeCheckKind(t);
    forall f | f in Documentation(t).findings
      ensures f.category == "documentation" && f.priority == "medium" &&
        (f.filePaths == [MainReadmePath(t)] || exists k :: 0 <= k < |t.roles| && f.filePaths == [RoleReadmePath(t, t.roles[k])])
    {
      if f !in main.findings {
        var k :| 0 <= k < |t.roles| && f in RoleReadmeStep(t)(t.roles[k]).findings;
        RoleReadmeCheckKind(t, t.roles[k]);
      }
    }
  }

  // ---------------------------------------------------------------------------
  // analyze_best_practices

  function HardcodedIpFinding(role: string, file: string, path: string): (f: Finding)
    ensures WellFormed(f)
  {
    Finding("best_practices",
      IpTitle + role + "/" + file + "'",
      IpLead + role + "/" + file + "'. " +
      VariablesAdvice,
      [path], "high")
  }

  function HardcodedPortFinding(role: string, file: string, path: string): (f: Finding)
    ensures WellFormed(f)
  {
    Finding("best_practices",
      PortTitle + role + "/" + file + "'",
      PortLead + role + "/" + file + "'. " +
      VariablesAdvice,
      [path], "medium")
  }

  /** The two independent tests on one task file's text: a high finding for an IP address,
      and a medium one for a port unless some `:{{ ... }}` appears anywhere in the file. */
  function HardcodedFindings(role: string, file: string, path: string, content: string): (fs: seq<Finding>)
    ensures AllWellFormed(fs)
    ensures |fs| ==
      (if HasIpAddress(content) then 1 else 0) + (if HasPort(content) && !HasTemplatedColon(content) then 1 else 0)
    ensures forall f :: f in fs ==> f.category == "best_practices" && f.filePaths == [path]
    ensures forall f :: f in fs ==> f.priority == "high" || f.priority == "medium"
    ensures (exists f :: f in fs && f.priority == "high") <==> HasIpAddress(content)
    ensures (exists f :: f in fs && f.priority == "medium") <==> HasPort(content) && !HasTemplatedColon(content)
  {
    WellFormedIf(HasIpAddress(content), HardcodedIpFinding(role, file, path));
    WellFormedIf(HasPort(content) && !HasTemplatedColon(content), HardcodedPortFinding(role, file, path));
    (if HasIpAddress(content) then [HardcodedIpFinding(role, file, path)] else []) +
    (if HasPort(content) && !HasTemplatedColon(content) then [HardcodedPortFinding(role, file, path)] else [])
  }

  function TasksDir(t: Tree, role: string): string { PathJoin(RolePath(t, role), "tasks") }

  /** One entry of the tasks directory: only names ending in `.yml` are read, unguarded. */
  function HardcodedInFile(t: Tree, role: string, file: string): (r: RuleResult)
    ensures AllWellFormed(r.findings)
    ensures |r.findings| <= 2
  {
    if !EndsWith(file, ".yml") then Completed([])
    else
      var p := PathJoin(TasksDir(t, role), file);
      match ReadFile(t, p)
      case Read(c) => Completed(HardcodedFindings(role, file, p, c))
      case _ => Raised
  }

  function HardcodedFileStep(t: Tree, role: string): string -> RuleResult {
    file => HardcodedInFile(t, role, file)
  }

  /** `os.listdir` of an existing tasks path that is not a directory raises. */
  function HardcodedInRole(t: Tree, role: string): (r: RuleResult)
    ensures AllWellFormed(r.findings)
  {
    var d := TasksDir(t, role);
    if !Exists(t, d) then Completed([])
    else match ListDir(t, d)
      case None => Raised
      case Some(names) =>
        SweepWellFormed(names, HardcodedFileStep(t, role));
        Sweep(names, HardcodedFileStep(t, role))
  }

  /** The hard-coded value findings of a role are high or medium best-practice findings,
      each on a file of the role's tasks directory. */
  lemma HardcodedInRoleKind(t: Tree, role: string)
    ensures forall f :: f in HardcodedInRole(t, role).findings ==>
      f.category == "best_practices" && (f.priority == "high" || f.priority == "medium") &&
      exists file :: f.filePaths == [PathJoin(TasksDir(t, role), file)]
  {
    var d := TasksDir(t, role);
    if Exists(t, d) && ListDir(t, d).Some? {
      var names := ListDir(t, d).value;
      SweepFacts(names, HardcodedFileStep(t, role));
      forall f | f in HardcodedInRole(t, role).findings
        ensures f.category == "best_practices" && (f.priority == "high" || f.priority == "medium") &&
          exists file :: f.filePaths == [PathJoin(TasksDir(t, role), file)]
      {
        var k :| 0 <= k < |names| && f in HardcodedFileStep(t, role)(names[k]).findings;
        assert f in HardcodedInRole(t, role).findings;
        assert f.filePaths == [PathJoin(d, names[k])];
      }
    }
  }

  function HardcodedStep(t: Tree): string -> RuleResult { role => HardcodedInRole(t, role) }

  function TagsFinding(role: string, mainFile: string): (f: Finding)
    ensures WellFormed(f)
  {
    Finding("best_practices",
      TagsTitle + role + TagsTitleEnd,
      TagsLead + role + TagsMiddle +
      TagsAdvice,
      [mainFile], "low")
  }

  function TasksMainPath(t: Tree, role: string): string { PathJoin(TasksDir(t, role), "main.yml") }

  function TagsInRole(t: Tree, role: string): (r: RuleResult)
    ensures AllWellFormed(r.findings)
    ensures |r.findings| <= 1
    ensures r.raised <==>
      Exists(t, TasksDir(t, role)) && Exists(t, TasksMainPath(t, role)) && !ReadFile(t, TasksMainPath(t, role)).Read?
  {
    var m := TasksMainPath(t, role);
    if !Exists(t, TasksDir(t, role)) || !Exists(t, m) then Completed([])
    else match ReadFile(t, m)
      case Read(c) =>
        WellFormedIf(!Contains(c, "tags:"), TagsFinding(role, m));
        Completed(if !Contains(c, "tags:") then [TagsFinding(role, m)] else [])
      case _ => Raised
  }

  /** A role is reported for tags exactly when its `tasks/main.yml` exists, reads as text
      and has no `tags:` in it. */
  lemma TagsInRoleIff(t: Tree, role: string)
    ensures TagsInRole(t, role).findings != [] <==>
      Exists(t, TasksDir(t, role)) && Exists(t, TasksMainPath(t, role)) &&
      ReadFile(t, TasksMainPath(t, role)).Read? && !Contains(ReadFile(t, TasksMainPath(t, role)).text, "tags:")
  {
  }

  lemma TagsInRoleKind(t: Tree, role: string)
    ensures forall f :: f in TagsInRole(t, role).findings ==>
      f == TagsFinding(role, TasksMainPath(t, role)) &&
      f.category == "best_practices" && f.priority == "low" && f.filePaths == [TasksMainPath(t, role)]
  {
  }

  function TagsStep(t: Tree): string -> RuleResult { role => TagsInRole(t, role) }

  function BestPractices(t: Tree): (r: RuleResult)
    ensures AllWellFormed(r.findings)
  {
    SweepWellFormed(t.roles, HardcodedStep(t));
    SweepWellFormed(t.roles, TagsStep(t));
    Then(Sweep(t.roles, HardcodedStep(t)), Sweep(t.roles, TagsStep(t)))
  }

  /** What the hard-coded value loop over the roles reports. */
  lemma HardcodedSweepKind(t: Tree)
    ensures forall f :: f in Sweep(t.roles, HardcodedStep(t)).findings ==>
      f.category == "best_practices" && (f.priority == "high" || f.priority == "medium") &&
      exists k, file :: 0 <= k < |t.roles| && f.filePaths == [PathJoin(TasksDir(t, t.roles[k]), file)]
  {
    SweepFacts(t.roles, HardcodedStep(t));
    forall f | f in Sweep(t.roles, HardcodedStep(t)).findings
      ensures f.category == "best_practices" && (f.priority == "high" || f.priority == "medium") &&
        exists k, file :: 0 <= k < |t.roles| && f.filePaths == [PathJoin(TasksDir(t, t.roles[k]), file)]
    {
      var k :| 0 <= k < |t.roles| && f in HardcodedStep(t)(t.roles[k]).findings;
      HardcodedInRoleKind(t, t.roles[k]);
      var file :| f.filePaths == [PathJoin(TasksDir(t, t.roles[k]), file)];
    }
  }

  /** What the tags loop over the roles reports. */
  lemma TagsSweepKind(t: Tree)
    ensures forall f :: f in Sweep(t.roles, TagsStep(t)).findings ==>
      f.priority == "low" && exists k :: 0 <= k < |t.roles| && f == TagsFinding(t.roles[k], TasksMainPath(t, t.roles[k]))
  {
    SweepFacts(t.roles, TagsStep(t));
    forall f | f in Sweep(t.roles, TagsStep(t)).findings
      ensures f.priority == "low" && exists k :: 0 <= k < |t.roles| && f == TagsFinding(t.roles[k], TasksMainPath(t, t.roles[k]))
    {
      var k :| 0 <= k < |t.roles| && f in TagsStep(t)(t.roles[k]).findings;
      TagsInRoleKind(t, t.roles[k]);
    }
  }

  /** The best-practices rule raises iff some role's hard-coded value pass or tags check
      raises. Its findings are all best-practice ones: the low ones are exactly the tags
      findings, one on some role's `tasks/main.yml`, and the others are high or medium
      findings on a file of some role's tasks directory. */
  lemma BestPracticesFacts(t: Tree)
    ensures BestPractices(t).raised <==>
      (exists k :: 0 <= k < |t.roles| && HardcodedInRole(t, t.roles[k]).raised) ||
      (exists k :: 0 <= k < |t.roles| && TagsInRole(t, t.roles[k]).raised)
    ensures forall f :: f in BestPractices(t).findings ==> f.category == "best_practices"
    ensures forall f :: f in BestPractices(t).findings && f.priority == "low" ==>
      exists k :: 0 <= k < |t.roles| && f == TagsFinding(t.roles[k], TasksMainPath(t, t.roles[k]))
    ensures forall f :: f in BestPractices(t).findings && f.priority != "low" ==>
      (f.priority == "high" || f.priority == "medium") &&
      exists k, file :: 0 <= k < |t.roles| && f.filePaths == [PathJoin(TasksDir(t, t.roles[k]), file)]
  {
    var hardcoded, tags := Sweep(t.roles, HardcodedStep(t)), Sweep(t.roles, TagsStep(t));
    assert BestPractices(t) == Then(hardcoded, tags);
    SweepFacts(t.roles, HardcodedStep(t));
    SweepFacts(t.roles, TagsStep(t));
    HardcodedSweepKind(t);
    TagsSweepKind(t);
    forall f | f in BestPractices(t).findings
      ensures f in hardcoded.findings || f in tags.findings
    {
    }
  }

  // ---------------------------------------------------------------------------
  // analyze_testing

  function ComponentTestPath(t: Tree, role: string): string {
    PathJoin(PathJoin(TestsDir(t), "component_tests"), role + "_tests.yml")
  }

  function IntegrationTestPath(t: Tree, role: string): string {
    PathJoin(PathJoin(TestsDir(t), "integration_tests"), role + "_integration_tests.yml")
  }

  function DedicatedTestsFinding(role: string, rolePath: string): (f: Finding)
    ensures WellFormed(f)
  {
    Finding("testing",
      TestsTitle + role + "' role",
      "The '" + role + TestsLead +
      TestsAdvice,
      [rolePath], "high")
  }

  function MoleculeFinding(role: string, rolePath: string): (f: Finding)
    ensures WellFormed(f)
  {
    Finding("testing",
      MoleculeTitle + role + "' role",
      "The '" + role + MoleculeLead +
      MoleculeAdvice,
      [rolePath], "medium")
  }

  /** One high finding exactly when neither the component nor the integration test file
      of the role exists. */
  function DedicatedTestsForRole(t: Tree, role: string): (fs: seq<Finding>)
    ensures AllWellFormed(fs)
    ensures |fs| == if !Exists(t, ComponentTestPath(t, role)) && !Exists(t, IntegrationTestPath(t, role)) then 1 else 0
    ensures forall f :: f in fs ==> f.category == "testing" && f.priority == "high" && f.filePaths == [RolePath(t, role)]
  {
    var missing := !(Exists(t, ComponentTestPath(t, role)) || Exists(t, IntegrationTestPath(t, role)));
    WellFormedIf(missing, DedicatedTestsFinding(role, RolePath(t, role)));
    if missing then [DedicatedTestsFinding(role, RolePath(t, role))] else []
  }

  /** One medium finding exactly when the role has no `molecule` entry. */
  function MoleculeForRole(t: Tree, role: string): (fs: seq<Finding>)
    ensures AllWellFormed(fs)
    ensures |fs| == if !Exists(t, PathJoin(RolePath(t, role), "molecule")) then 1 else 0
    ensures forall f :: f in fs ==> f.category == "testing" && f.priority == "medium" && f.filePaths == [RolePath(t, role)]
  {
    var missing := !Exists(t, PathJoin(RolePath(t, role), "molecule"));
    WellFormedIf(missing, MoleculeFinding(role, RolePath(t, role)));
    if missing then [MoleculeFinding(role, RolePath(t, role))] else []
  }

  function DedicatedTestsPass(t: Tree, roles: seq<string>): (fs: seq<Finding>)
    ensures AllWellFormed(fs)
    ensures |fs| <= |roles|
    ensures forall f :: f in fs ==> f.category == "testing" && f.priority == "high"
  {
    if roles == [] then []
    else DedicatedTestsPass(t, roles[..|roles| - 1]) + DedicatedTestsForRole(t, roles[|roles| - 1])
  }

  function MoleculePass(t: Tree, roles: seq<string>): (fs: seq<Finding>)
    ensures AllWellFormed(fs)
    ensures |fs| <= |roles|
    ensures forall f :: f in fs ==> f.category == "testing" && f.priority == "medium"
  {
    if roles == [] then []
    else MoleculePass(t, roles[..|roles| - 1]) + MoleculeForRole(t, roles[|roles| - 1])
  }

  /** One more role of the first testing loop. */
  lemma DedicatedTestsStep(t: Tree, roles: seq<string>, i: nat)
    requires i < |roles|
    ensures DedicatedTestsPass(t, roles[..i + 1]) == DedicatedTestsPass(t, roles[..i]) + DedicatedTestsForRole(t, roles[i])
  {
    assert roles[..i + 1][..i] == roles[..i];
  }

  /** One more role of the second testing loop. */
  lemma MoleculeStep(t: Tree, roles: seq<string>, i: nat)
    requires i < |roles|
    ensures MoleculePass(t, roles[..i + 1]) == MoleculePass(t, roles[..i]) + MoleculeForRole(t, roles[i])
  {
    assert roles[..i + 1][..i] == roles[..i];
  }

  /** Every role without either test file is reported by the first loop. */
  lemma {:induction false} DedicatedTestsReported(t: Tree, roles: seq<string>, k: nat)
    requires k < |roles|
    ensures forall f :: f in DedicatedTestsForRole(t, roles[k]) ==> f in DedicatedTestsPass(t, roles)
  {
    var init := roles[..|roles| - 1];
    if k < |roles| - 1 {
      DedicatedTestsReported(t, init, k);
      assert init[k] == roles[k];
    }
  }

  /** Every role without `molecule` is reported by the second loop. */
  lemma {:induction false} MoleculeReported(t: Tree, roles: seq<string>, k: nat)
    requires k < |roles|
    ensures forall f :: f in MoleculeForRole(t, roles[k]) ==> f in MoleculePass(t, roles)
  {
    var init := roles[..|roles| - 1];
    if k < |roles| - 1 {
      MoleculeReported(t, init, k);
      assert init[k] == roles[k];
    }
  }

  /** The high testing findings (one per role without test files) come before the medium
      ones (one per role without `molecule`). */
  function Testing(t: Tree): (fs: seq<Finding>)
    ensures AllWellFormed(fs)
    ensures forall f :: f in fs ==> f.category == "testing" && (f.priority == "high" || f.priority == "medium")
    ensures forall i, j :: 0 <= i < j < |fs| && fs[j].priority == "high" ==> fs[i].priority == "high"
  {
    DedicatedTestsPass(t, t.roles) + MoleculePass(t, t.roles)
  }

  /** A role of the tree without either test file, or without `molecule`, is reported. */
  lemma TestingReportsRole(t: Tree, k: nat)
    requires k < |t.roles|
    ensures !Exists(t, ComponentTestPath(t, t.roles[k])) && !Exists(t, IntegrationTestPath(t, t.roles[k])) ==>
      DedicatedTestsFinding(t.roles[k], RolePath(t, t.roles[k])) in Testing(t)
    ensures !Exists(t, PathJoin(RolePath(t, t.roles[k]), "molecule")) ==>
      MoleculeFinding(t.roles[k], RolePath(t, t.roles[k])) in Testing(t)
  {
    DedicatedTestsReported(t, t.roles, k);
    MoleculeReported(t, t.roles, k);
  }

  // ---------------------------------------------------------------------------
  // analyze_security

  /** Some sensitive-assignment pattern among the first `n` matches `content`. */
  predicate SensitiveAmong(content: string, n: nat)
    requires n <= |SensitiveKeys|
  {
    exists k :: 0 <= k < n && HasSensitiveAssignment(content, SensitiveKeys[k])
  }

  predicate AnySensitive(content: string) { SensitiveAmong(content, |SensitiveKeys|) }

  function SecretFinding(rel: string, path: string): (f: Finding)
    ensures WellFormed(f)
  {
    Finding("security",
      SecretTitle + rel + "'",
      SecretLead + rel + "'. " +
      SecretAdvice,
      [path], "critical")
  }

  predicate IsConfigFile(name: string) {
    EndsWith(name, ".yml") || EndsWith(name, ".yaml") || EndsWith(name, ".j2")
  }

  /** One walked file: `open` is outside the `try`, so only a decoding error is skipped. */
  function SecretsInFile(t: Tree, e: WalkEntry): (r: RuleResult)
    ensures AllWellFormed(r.findings)
    ensures forall f :: f in r.findings ==> f.category == "security" && f.priority == "critical"
    ensures |r.findings| <= 1
    ensures r.findings != [] <==>
      IsConfigFile(e.name) && ReadFile(t, PathJoin(e.dir, e.name)).Read? &&
      AnySensitive(ReadFile(t, PathJoin(e.dir, e.name)).text)
    ensures r.raised <==> IsConfigFile(e.name) && !IsFile(t, PathJoin(e.dir, e.name))
  {
    if !IsConfigFile(e.name) then Completed([])
    else
      var p := PathJoin(e.dir, e.name);
      match ReadFile(t, p)
      case OpenError => Raised
      case DecodeError(_) => Completed([])
      case Read(c) =>
        WellFormedIf(AnySensitive(c), SecretFinding(RelPath(t.root, p), p));
        Completed(if AnySensitive(c) then [SecretFinding(RelPath(t.root, p), p)] else [])
  }

  function SecretsFileStep(t: Tree): WalkEntry -> RuleResult { e => SecretsInFile(t, e) }

  /** The files of the walk of one role. */
  function SecretsInRole(t: Tree, role: string): (r: RuleResult)
    ensures AllWellFormed(r.findings)
    ensures forall f :: f in r.findings ==> f.category == "security" && f.priority == "critical"
  {
    var es := Walk(t, RolePath(t, role));
    SweepWellFormed(es, SecretsFileStep(t));
    SweepCritical(t, es);
    Sweep(es, SecretsFileStep(t))
  }

  lemma SweepCritical(t: Tree, es: seq<WalkEntry>)
    ensures forall f :: f in Sweep(es, SecretsFileStep(t)).findings ==> f.category == "security" && f.priority == "critical"
  {
    SweepFacts(es, SecretsFileStep(t));
    forall f | f in Sweep(es, SecretsFileStep(t)).findings
      ensures f.category == "security" && f.priority == "critical"
    {
      var k :| 0 <= k < |es| && f in SecretsFileStep(t)(es[k]).findings;
      assert f in SecretsInFile(t, es[k]).findings;
    }
  }

  function SecurityStep(t: Tree): string -> RuleResult { role => SecretsInRole(t, role) }

  function Security(t: Tree): (r: RuleResult)
    ensures AllWellFormed(r.findings)
    ensures forall f :: f in r.findings ==> f.category == "security" && f.priority == "critical"
  {
    SweepWellFormed(t.roles, SecurityStep(t));
    SecurityCritical(t);
    Sweep(t.roles, SecurityStep(t))
  }

  lemma SecurityCritical(t: Tree)
    ensures forall f :: f in Sweep(t.roles, SecurityStep(t)).findings ==> f.category == "security" && f.priority == "critical"
  {
    SweepFacts(t.roles, SecurityStep(t));
    forall f | f in Sweep(t.roles, SecurityStep(t)).findings
      ensures f.category == "security" && f.priority == "critical"
    {
      var k :| 0 <= k < |t.roles| && f in SecurityStep(t)(t.roles[k]).findings;
      assert f in SecretsInRole(t, t.roles[k]).findings;
    }
  }

  // ---------------------------------------------------------------------------
  // analyze_dependencies

  function PinFinding(role: string, metaPath: string): (f: Finding)
    ensures WellFormed(f)
  {
    Finding("maintenance",
      PinTitle + role + "' role",
      "The '" + role + PinLead +
      PinAdvice,
      [metaPath], "medium")
  }

  predicate NeedsPinning(content: string) {
    Contains(content, "dependencies:") && !HasQuotedVersion(content)
  }

  /** A medium pinning finding iff `meta/main.yml` reads as text that names dependencies
      and pins no version. */
  function PinningInRole(t: Tree, role: string): (r: RuleResult)
    ensures AllWellFormed(r.findings)
    ensures |r.findings| <= 1
    ensures r.raised <==> Exists(t, MetaMainPath(t, role)) && !IsFile(t, MetaMainPath(t, role))
  {
    var m := MetaMainPath(t, role);
    if !Exists(t, m) then Completed([])
    else match ReadFile(t, m)
      case OpenError => Raised
      case DecodeError(_) => Completed([])
      case Read(c) =>
        WellFormedIf(NeedsPinning(c), PinFinding(role, m));
        Completed(if NeedsPinning(c) then [PinFinding(role, m)] else [])
  }

  /** There is a pinning finding exactly when `meta/main.yml` reads as text that needs pinning. */
  lemma PinningInRoleIff(t: Tree, role: string)
    ensures PinningInRole(t, role).findings != [] <==>
      Exists(t, MetaMainPath(t, role)) && ReadFile(t, MetaMainPath(t, role)).Read? &&
      NeedsPinning(ReadFile(t, MetaMainPath(t, role)).text)
  {
  }

  /** The pinning finding is a medium maintenance finding on `meta/main.yml`. */
  lemma PinningInRoleKind(t: Tree, role: string)
    ensures forall f :: f in PinningInRole(t, role).findings ==>
      f.category == "maintenance" && f.priority == "medium" && f.filePaths == [MetaMainPath(t, role)]
  {
    var m := MetaMainPath(t, role);
    if Exists(t, m) && ReadFile(t, m).Read? && NeedsPinning(ReadFile(t, m).text) {
      assert PinningInRole(t, role).findings == [PinFinding(role, m)];
    }
  }

  function PinningStep(t: Tree): string -> RuleResult { role => PinningInRole(t, role) }

  predicate IsReleaseUrl(url: string) {
    Contains(url, "github.com") && Contains(url, "/releases/download/")
  }

  /** The URLs among `urls` that point at a release asset, in order. */
  function ReleaseUrls(urls: seq<string>): (r: seq<string>)
    ensures forall u :: u in r <==> u in urls && IsReleaseUrl(u)
    ensures |r| <= |urls|
  {
    if urls == [] then []
    else ReleaseUrls(urls[..|urls| - 1]) + (if IsReleaseUrl(urls[|urls| - 1]) then [urls[|urls| - 1]] else [])
  }

  function ReleaseUrlFinding(rel: string, path: string, url: string): (f: Finding)
    ensures WellFormed(f)
  {
    Finding("maintenance",
      UrlTitle + rel + "'",
      UrlLead + rel + "': " + url + ". " +
      UrlAdvice,
      [path], "low")
  }

  /** The inner loop over the URLs of one file: one finding per release URL, not per file. */
  function ReleaseUrlFindings(rel: string, path: string, urls: seq<string>): (fs: seq<Finding>)
    ensures AllWellFormed(fs)
    ensures |fs| == |ReleaseUrls(urls)|
    ensures forall k :: 0 <= k < |fs| ==> fs[k] == ReleaseUrlFinding(rel, path, ReleaseUrls(urls)[k])
    ensures forall f :: f in fs ==> f.category == "maintenance" && f.priority == "low" && f.filePaths == [path]
  {
    if urls == [] then []
    else
      var last := urls[|urls| - 1];
      WellFormedIf(IsReleaseUrl(last), ReleaseUrlFinding(rel, path, last));
      ReleaseUrlFindings(rel, path, urls[..|urls| - 1]) +
      (if IsReleaseUrl(last) then [ReleaseUrlFinding(rel, path, last)] else [])
  }

  /** One more URL of the inner loop. */
  lemma ReleaseUrlFindingsStep(rel: string, path: string, urls: seq<string>, k: nat)
    requires k < |urls|
    ensures ReleaseUrlFindings(rel, path, urls[..k + 1]) ==
      ReleaseUrlFindings(rel, path, urls[..k]) + (if IsReleaseUrl(urls[k]) then [ReleaseUrlFinding(rel, path, urls[k])] else [])
  {
    assert urls[..k + 1][..k] == urls[..k];
  }

  predicate IsScannedForUrls(name: string) {
    EndsWith(name, ".yml") || EndsWith(name, ".yaml") || EndsWith(name, ".md") || EndsWith(name, ".j2")
  }

  /** One walked file: a scanned name is opened outside the `try`, so a name that is not a
      regular file raises; a decoding error skips the file; a text gives one low maintenance
      finding per release URL in it. */
  function ReleaseUrlsInFile(t: Tree, e: WalkEntry): (r: RuleResult)
    ensures AllWellFormed(r.findings)
    ensures r.raised <==> IsScannedForUrls(e.name) && !IsFile(t, PathJoin(e.dir, e.name))
    ensures r.findings ==
      if IsScannedForUrls(e.name) && ReadFile(t, PathJoin(e.dir, e.name)).Read? then
        ReleaseUrlFindings(RelPath(t.root, PathJoin(e.dir, e.name)), PathJoin(e.dir, e.name),
          Urls(ReadFile(t, PathJoin(e.dir, e.name)).text))
      else []
    ensures forall f :: f in r.findings ==>
      f.category == "maintenance" && f.priority == "low" && f.filePaths == [PathJoin(e.dir, e.name)]
  {
    if !IsScannedForUrls(e.name) then Completed([])
    else
      var p := PathJoin(e.dir, e.name);
      match ReadFile(t, p)
      case OpenError => Raised
      case DecodeError(_) => Completed([])
      case Read(c) => Completed(ReleaseUrlFindings(RelPath(t.root, p), p, Urls(c)))
  }

  function UrlFileStep(t: Tree): WalkEntry -> RuleResult { e => ReleaseUrlsInFile(t, e) }

  function ReleaseUrlsInRole(t: Tree, role: string): (r: RuleResult)
    ensures AllWellFormed(r.findings)
  {
    SweepWellFormed(Walk(t, RolePath(t, role)), UrlFileStep(t));
    Sweep(Walk(t, RolePath(t, role)), UrlFileStep(t))
  }

  /** The URL walk of a role raises iff some walked file raises; its findings are low
      maintenance ones, each on one of the walked files. */
  lemma ReleaseUrlsInRoleFacts(t: Tree, role: string)
    ensures ReleaseUrlsInRole(t, role).raised <==>
      exists k :: 0 <= k < |Walk(t, RolePath(t, role))| &&
        IsScannedForUrls(Walk(t, RolePath(t, role))[k].name) &&
        !IsFile(t, PathJoin(Walk(t, RolePath(t, role))[k].dir, Walk(t, RolePath(t, role))[k].name))
    ensures forall f :: f in ReleaseUrlsInRole(t, role).findings ==>
      f.category == "maintenance" && f.priority == "low" &&
      exists k :: 0 <= k < |Walk(t, RolePath(t, role))| &&
        f.filePaths == [PathJoin(Walk(t, RolePath(t, role))[k].dir, Walk(t, RolePath(t, role))[k].name)]
  {
    var es := Walk(t, RolePath(t, role));
    SweepFacts(es, UrlFileStep(t));
    forall f | f in ReleaseUrlsInRole(t, role).findings
      ensures f.category == "maintenance" && f.priority == "low" &&
        exists k :: 0 <= k < |es| && f.filePaths == [PathJoin(es[k].dir, es[k].name)]
    {
      var k :| 0 <= k < |es| && f in UrlFileStep(t)(es[k]).findings;
      assert f in ReleaseUrlsInFile(t, es[k]).findings;
    }
  }

  function ReleaseUrlStep(t: Tree): string -> RuleResult { role => ReleaseUrlsInRole(t, role) }

  function Dependencies(t: Tree): (r: RuleResult)
    ensures AllWellFormed(r.findings)
  {
    SweepWellFormed(t.roles, PinningStep(t));
    SweepWellFormed(t.roles, ReleaseUrlStep(t));
    Then(Sweep(t.roles, PinningStep(t)), Sweep(t.roles, ReleaseUrlStep(t)))
  }

  /** What the pinning loop over the roles reports. */
  lemma PinningSweepKind(t: Tree)
    ensures forall f :: f in Sweep(t.roles, PinningStep(t)).findings ==>
      f.category == "maintenance" && f.priority == "medium" &&
      exists k :: 0 <= k < |t.roles| && f.filePaths == [MetaMainPath(t, t.roles[k])]
  {
    SweepFacts(t.roles, PinningStep(t));
    forall f | f in Sweep(t.roles, PinningStep(t)).findings
      ensures f.category == "maintenance" && f.priority == "medium" &&
        exists k :: 0 <= k < |t.roles| && f.filePaths == [MetaMainPath(t, t.roles[k])]
    {
      var k :| 0 <= k < |t.roles| && f in PinningStep(t)(t.roles[k]).findings;
      PinningInRoleKind(t, t.roles[k]);
    }
  }

  /** What the URL loop over the roles reports. */
  lemma ReleaseUrlSweepKind(t: Tree)
    ensures forall f :: f in Sweep(t.roles, ReleaseUrlStep(t)).findings ==>
      f.category == "maintenance" && f.priority == "low"
  {
    SweepFacts(t.roles, ReleaseUrlStep(t));
    forall f | f in Sweep(t.roles, ReleaseUrlStep(t)).findings
      ensures f.category == "maintenance" && f.priority == "low"
    {
      var k :| 0 <= k < |t.roles| && f in ReleaseUrlStep(t)(t.roles[k]).findings;
      ReleaseUrlsInRoleFacts(t, t.roles[k]);
    }
  }

  /** The dependency rule raises iff some role's pinning check or URL walk raises. Every
      finding is a maintenance one: the medium ones are pinning findings on some role's
      `meta/main.yml`, and the others are low release-URL findings. */
  lemma DependenciesFacts(t: Tree)
    ensures Dependencies(t).raised <==>
      (exists k :: 0 <= k < |t.roles| && PinningInRole(t, t.roles[k]).raised) ||
      (exists k :: 0 <= k < |t.roles| && ReleaseUrlsInRole(t, t.roles[k]).raised)
    ensures forall f :: f in Dependencies(t).findings ==>
      f.category == "maintenance" && (f.priority == "medium" || f.priority == "low")
    ensures forall f :: f in Dependencies(t).findings && f.priority == "medium" ==>
      exists k :: 0 <= k < |t.roles| && f.filePaths == [MetaMainPath(t, t.roles[k])]
  {
    var pinning, urls := Sweep(t.roles, PinningStep(t)), Sweep(t.roles, ReleaseUrlStep(t));
    assert Dependencies(t) == Then(pinning, urls);
    SweepFacts(t.roles, PinningStep(t));
    SweepFacts(t.roles, ReleaseUrlStep(t));
    PinningSweepKind(t);
    ReleaseUrlSweepKind(t);
    forall f | f in Dependencies(t).findings
      ensures f in pinning.findings || f in urls.findings
    {
    }
  }

  // ---------------------------------------------------------------------------
  // analyze: the rules in their fixed order

  function Analysis(t: Tree): (r: RuleResult)
    ensures AllWellFormed(r.findings)
  {
    Then(Then(Then(Then(Then(
      Completed(RoleStructure(t)),
      Documentation(t)),
      BestPractices(t)),
      Completed(Testing(t))),
      Security(t)),
      Dependencies(t))
  }

  // ---------------------------------------------------------------------------
  // Properties of the rules

  /** The pattern loop of the security rule stops at the first match, so a role yields at
      most one finding per walked file. */
  lemma SecretsAtMostOnePerFile(t: Tree, role: string)
    ensures |SecretsInRole(t, role).findings| <= |Walk(t, RolePath(t, role))|
  {
    SweepBound(Walk(t, RolePath(t, role)), SecretsFileStep(t), 1);
  }

  /** The hardcoded-value scan yields at most two findings per task file. */
  lemma HardcodedAtMostTwoPerFile(t: Tree, role: string, names: seq<string>)
    ensures |Sweep(names, HardcodedFileStep(t, role)).findings| <= 2 * |names|
  {
    SweepBound(names, HardcodedFileStep(t, role), 2);
  }

  /** No rule emits the `performance` category, although `CATEGORIES` lists it. */
  lemma NoPerformanceFindings(t: Tree)
    ensures forall f :: f in Analysis(t).findings ==> f.category != "performance" && |f.filePaths| == 1
  {
    assert "performance" !in RuleCategories;
    var fs := Analysis(t).findings;
    assert AllWellFormed(fs);
  }

  /** Without a `{` there is no template expression to excuse a port. */
  lemma NoTemplateWithoutBrace(content: string)
    requires '{' !in content
    ensures !HasTemplatedColon(content)
  {
    forall i, j | 0 <= i <= j <= |content| && TemplatedColonAt(content, i, j) ensures false {
      SliceAt(content, i, i + 3, 1);
    }
  }

  const ExampleTaskLine: string := "ip: 10.0.0.1:8080\n"

  lemma OneGroup(t: string)
    requires 1 <= |t| <= 3 && AllDigits(t)
    ensures DigitGroups(t, 1)
  {
    assert t[..|t|] == t;
    assert GroupAt(t, |t|);
  }

  lemma MoreGroups(t: string, len: int, n: nat)
    requires 1 <= len <= 3 && GroupAt(t, len) && len < |t| && t[len] == '.'
    requires n >= 1 && DigitGroups(t[len + 1..], n)
    ensures DigitGroups(t, n + 1)
  {
  }

  /** A group of one to three digits, a dot and `n` more groups make `n + 1` groups. */
  lemma JoinGroups(a: string, b: string, n: nat)
    requires 1 <= |a| <= 3 && AllDigits(a)
    requires n >= 1 && DigitGroups(b, n)
    ensures DigitGroups(a + "." + b, n + 1)
  {
    var t := a + "." + b;
    assert t[..|a|] == a && t[|a|] == '.' && t[|a| + 1..] == b;
    MoreGroups(t, |a|, n);
  }

  lemma FourGroupsExample()
    ensures DigitGroups("10" + "." + ("0" + "." + ("0" + "." + "1")), 4)
  {
    OneGroup("1");
    JoinGroups("0", "1", 1);
    JoinGroups("0", "0" + "." + "1", 2);
    JoinGroups("10", "0" + "." + ("0" + "." + "1"), 3);
  }

  lemma IpAt(s: string, i: int, j: int)
    requires DottedQuadAt(s, i, j)
    ensures HasIpAddress(s)
  {
  }

  lemma ExampleHasIp()
    ensures HasIpAddress(ExampleTaskLine)
  {
    ExampleBoundaries();
    var c := ExampleTaskLine;
    var q := c[4..12];
    assert q == "10" + "." + ("0" + "." + ("0" + "." + "1"));
    FourGroupsExample();
    IpAt(c, 4, 12);
  }

  lemma ExampleBoundaries()
    ensures BoundaryBefore(ExampleTaskLine, 4) && BoundaryAt(ExampleTaskLine, 12)
  {
    assert ExampleTaskLine[3] == ' ' && ExampleTaskLine[12] == ':';
  }

  lemma ExampleHasPort()
    ensures HasPort(ExampleTaskLine) && !HasTemplatedColon(ExampleTaskLine)
  {
    var c := ExampleTaskLine;
    assert c[13..17] == "8080";
    assert PortAt(c, 12, 4);
    NoTemplateWithoutBrace(c);
  }

  /** A task line with an IP address and a literal port yields exactly two findings, one
      high and one medium. */
  lemma IpAndPortExample(role: string, file: string, path: string)
    ensures var fs := HardcodedFindings(role, file, path, ExampleTaskLine);
      |fs| == 2 && fs[0].priority == "high" && fs[1].priority == "medium"
  {
    ExampleHasIp();
    ExampleHasPort();
  }
}
