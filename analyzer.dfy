/** The class `RepoAnalyzer` of scripts/repo_analyzer.py: an append-only list of
    suggestions, filled by the six rules through `add_suggestion`. Every loop of the source
    is a loop here, proved against the rule functions of module Rules; an exception that
    escapes a rule is the `raised` result, after which nothing else runs. */
module Analyzer {
  import opened Strings
  import opened RepoTree
  import opened Patterns
  import opened Suggestions
  import opened Rules
  import opened Reporting

  /** What a call returns: its value, or nothing because an exception escaped. */
  datatype Outcome<T> = Escaped | Returned(value: T)

  class RepoAnalyzer {
    /** The repository as the analyzer sees it; `tree.roles` is `self.roles`. */
    const tree: Tree
    const outputFormat: string
    const githubIntegration: bool
    /** Stored and never read. */
    const copilotIntegration: bool
    /** `datetime.now().strftime('%Y-%m-%d')`, one value for the whole run. */
    const today: string
    var suggestions: seq<Suggestion>
    var filterRole: Option<string>
    var filterCategory: Option<string>

    constructor(tree: Tree, outputFormat: string, githubIntegration: bool, copilotIntegration: bool, today: string)
      ensures this.tree == tree && this.outputFormat == outputFormat && this.today == today
      ensures this.githubIntegration == githubIntegration && this.copilotIntegration == copilotIntegration
      ensures suggestions == [] && filterRole == None && filterCategory == None
    {
      this.tree := tree;
      this.outputFormat := outputFormat;
      this.githubIntegration := githubIntegration;
      this.copilotIntegration := copilotIntegration;
      this.today := today;
      suggestions := [];
      filterRole := None;
      filterCategory := None;
    }

    /** `add_suggestion`: the new record gets the next id and is appended; the records
        already there are unchanged, so ids stay 1..N in list order. */
    method AddSuggestion(category: string, title: string, description: string, filePaths: seq<string>, priority: string)
      modifies this`suggestions
      ensures suggestions == old(suggestions) +
        [Suggestion(|old(suggestions)| + 1, category, title, description, filePaths, priority, today)]
      ensures suggestions[..|old(suggestions)|] == old(suggestions)
      ensures IdsDense(old(suggestions)) ==> IdsDense(suggestions)
    {
      var suggestion := Suggestion(|suggestions| + 1, category, title, description, filePaths, priority, today);
      suggestions := suggestions + [suggestion];
    }

    /** A rule's call of `add_suggestion` with the fields of finding `f`. */
    method AddFinding(f: Finding, ghost s0: seq<Suggestion>, ghost done: seq<Finding>)
      requires suggestions == s0 + Stamp(done, |s0|, today)
      modifies this`suggestions
      ensures suggestions == s0 + Stamp(done + [f], |s0|, today)
    {
      AddSuggestion(f.category, f.title, f.description, f.filePaths, f.priority);
      StampSnoc(s0, done, f, today);
    }

    // -------------------------------------------------------------------------
    // analyze_role_structure

    /** The standard subdirectories of one role: one finding listing all that are missing. */
    method CheckStandardDirs(role: string, ghost s0: seq<Suggestion>, ghost done: seq<Finding>)
      requires suggestions == s0 + Stamp(done, |s0|, today)
      modifies this`suggestions
      ensures suggestions == s0 + Stamp(done + MissingDirsCheck(tree, role), |s0|, today)
    {
      var rolePath := PathJoin(RolesDir(tree), role);
      var missing := MissingDirs(tree, rolePath, StandardDirs);
      if missing != [] {
        AddFinding(MissingDirsFinding(role, rolePath, missing), s0, done);
      }
    }

    /** The README.md of one role must exist. */
    method CheckRoleReadmeExists(role: string, ghost s0: seq<Suggestion>, ghost done: seq<Finding>)
      requires suggestions == s0 + Stamp(done, |s0|, today)
      modifies this`suggestions
      ensures suggestions == s0 + Stamp(done + MissingReadmeCheck(tree, role), |s0|, today)
    {
      var rolePath := PathJoin(RolesDir(tree), role);
      if !Exists(tree, PathJoin(rolePath, "README.md")) {
        AddFinding(MissingReadmeFinding(role, rolePath), s0, done);
      }
    }

    /** The `meta/main.yml` of one role must exist. */
    method CheckMetaMain(role: string, ghost s0: seq<Suggestion>, ghost done: seq<Finding>)
      requires suggestions == s0 + Stamp(done, |s0|, today)
      modifies this`suggestions
      ensures suggestions == s0 + Stamp(done + MissingMetaCheck(tree, role), |s0|, today)
    {
      var rolePath := PathJoin(RolesDir(tree), role);
      var metaPath := PathJoin(PathJoin(rolePath, "meta"), "main.yml");
      if !Exists(tree, metaPath) {
        AddFinding(MissingMetaFinding(role, rolePath), s0, done);
      }
    }

    /** The three structure checks of one role, in order. */
    method CheckRoleStructure(role: string, ghost s0: seq<Suggestion>, ghost done: seq<Finding>)
      requires suggestions == s0 + Stamp(done, |s0|, today)
      modifies this`suggestions
      ensures suggestions == s0 + Stamp(done + StructureForRole(tree, role), |s0|, today)
    {
      ghost var a, b, c := MissingDirsCheck(tree, role), MissingReadmeCheck(tree, role), MissingMetaCheck(tree, role);
      CheckStandardDirs(role, s0, done);
      CheckRoleReadmeExists(role, s0, done + a);
      CheckMetaMain(role, s0, done + a + b);
      StampThree(s0, done, a, b, c, today);
    }
    /** `analyze_role_structure`: the three checks, role after role. */
    method AnalyzeRoleStructure()
      modifies this`suggestions
      ensures suggestions == old(suggestions) + Stamp(RoleStructure(tree), |old(suggestions)|, today)
    {
      ghost var s0 := suggestions;
      var roles := tree.roles;
      var i := 0;
      ghost var acc: seq<Finding> := [];
      while i < |roles|
        invariant 0 <= i <= |roles|
        invariant acc == [] + StructurePass(tree, roles[..i])
        invariant suggestions == s0 + Stamp(acc, |s0|, today)
      {
        CheckRoleStructure(roles[i], s0, acc);
        StructurePassStep(tree, roles, i);
        AppendStep([], StructurePass(tree, roles[..i + 1]), StructurePass(tree, roles[..i]), StructureForRole(tree, roles[i]));
        acc := acc + StructureForRole(tree, roles[i]);
        i := i + 1;
      }
      assert roles[..i] == roles;
      assert acc == RoleStructure(tree);
    }

    // -------------------------------------------------------------------------
    // analyze_documentation

    /** The top-level README.md: its headings, read without a `try`. */
    method CheckMainReadme(ghost s0: seq<Suggestion>, ghost done: seq<Finding>) returns (raised: bool)
      requires suggestions == s0 + Stamp(done, |s0|, today)
      modifies this`suggestions
      ensures suggestions == s0 + Stamp(done + MainReadmeCheck(tree).findings, |s0|, today)
      ensures raised == MainReadmeCheck(tree).raised
    {
      var readmePath := PathJoin(tree.root, "README.md");
      if Exists(tree, readmePath) {
        var r := ReadFile(tree, readmePath);
        if !r.Read? {
          return true;
        }
        var missing := MissingSections(r.text, MainReadmeSections);
        if missing != [] {
          AddFinding(MainReadmeFinding(missing, readmePath), s0, done);
        }
      }
      return false;
    }

    /** The README.md of one role. */
    method CheckRoleReadme(role: string, ghost s0: seq<Suggestion>, ghost done: seq<Finding>) returns (raised: bool)
      requires suggestions == s0 + Stamp(done, |s0|, today)
      modifies this`suggestions
      ensures suggestions == s0 + Stamp(done + RoleReadmeCheck(tree, role).findings, |s0|, today)
      ensures raised == RoleReadmeCheck(tree, role).raised
    {
      var readmePath := PathJoin(PathJoin(RolesDir(tree), role), "README.md");
      if Exists(tree, readmePath) {
        var r := ReadFile(tree, readmePath);
        if !r.Read? {
          return true;
        }
        var missing := MissingSections(r.text, RoleReadmeSections);
        if missing != [] {
          AddFinding(RoleReadmeFinding(role, missing, readmePath), s0, done);
        }
      }
      return false;
    }

    /** The loop over the roles' READMEs. */
    method CheckRoleReadmes(ghost s0: seq<Suggestion>, ghost done: seq<Finding>) returns (raised: bool)
      requires suggestions == s0 + Stamp(done, |s0|, today)
      modifies this`suggestions
      ensures suggestions == s0 + Stamp(done + Sweep(tree.roles, RoleReadmeStep(tree)).findings, |s0|, today)
      ensures raised == Sweep(tree.roles, RoleReadmeStep(tree)).raised
    {
      raised := false;
      var i := 0;
      ghost var acc := done;
      while i < |tree.roles|
        invariant 0 <= i <= |tree.roles|
        invariant acc == done + Sweep(tree.roles[..i], RoleReadmeStep(tree)).findings
        invariant suggestions == s0 + Stamp(acc, |s0|, today)
        invariant !Sweep(tree.roles[..i], RoleReadmeStep(tree)).raised
      {
        raised := CheckRoleReadme(tree.roles[i], s0, acc);
        SweepAccumulate(done, tree.roles, i, RoleReadmeStep(tree), RoleReadmeCheck(tree, tree.roles[i]));
        acc := acc + RoleReadmeCheck(tree, tree.roles[i]).findings;
        if raised {
          SweepStops(tree.roles, i + 1, RoleReadmeStep(tree));
          return;
        }
        i := i + 1;
      }
      assert tree.roles[..i] == tree.roles;
    }

    /** `analyze_documentation`. */
    method AnalyzeDocumentation() returns (raised: bool)
      modifies this`suggestions
      ensures suggestions == old(suggestions) + Stamp(Documentation(tree).findings, |old(suggestions)|, today)
      ensures raised == Documentation(tree).raised
    {
      ghost var s0 := suggestions;
      ghost var main, roles := MainReadmeCheck(tree), Sweep(tree.roles, RoleReadmeStep(tree));
      assert Documentation(tree) == Then(main, roles);
      raised := CheckMainReadme(s0, []);
      assert [] + main.findings == main.findings;
      if raised {
        return;
      }
      raised := CheckRoleReadmes(s0, main.findings);
    }

    // -------------------------------------------------------------------------
    // analyze_best_practices

    /** The IP and the port tests on the text of one task file. */
    method AddHardcodedFindings(role: string, file: string, filePath: string, content: string,
                                ghost s0: seq<Suggestion>, ghost done: seq<Finding>)
      requires suggestions == s0 + Stamp(done, |s0|, today)
      modifies this`suggestions
      ensures suggestions == s0 + Stamp(done + HardcodedFindings(role, file, filePath, content), |s0|, today)
    {
      ghost var acc := done;
      if HasIpAddress(content) {
        AddFinding(HardcodedIpFinding(role, file, filePath), s0, acc);
        acc := acc + [HardcodedIpFinding(role, file, filePath)];
      }
      if HasPort(content) {
        if !HasTemplatedColon(content) {
          AddFinding(HardcodedPortFinding(role, file, filePath), s0, acc);
          acc := acc + [HardcodedPortFinding(role, file, filePath)];
        }
      }
      assert acc == done + HardcodedFindings(role, file, filePath, content);
    }

    /** One entry of a role's tasks directory: the IP and the port tests. */
    method CheckTaskFile(role: string, file: string, ghost s0: seq<Suggestion>, ghost done: seq<Finding>) returns (raised: bool)
      requires suggestions == s0 + Stamp(done, |s0|, today)
      modifies this`suggestions
      ensures suggestions == s0 + Stamp(done + HardcodedInFile(tree, role, file).findings, |s0|, today)
      ensures raised == HardcodedInFile(tree, role, file).raised
    {
      if !EndsWith(file, ".yml") {
        return false;
      }
      var filePath := PathJoin(TasksDir(tree, role), file);
      var r := ReadFile(tree, filePath);
      if !r.Read? {
        return true;
      }
      AddHardcodedFindings(role, file, filePath, r.text, s0, done);
      return false;
    }

    /** The loop over the names `os.listdir` gives for a tasks directory. */
    method CheckTaskFiles(role: string, names: seq<string>, ghost s0: seq<Suggestion>, ghost done: seq<Finding>) returns (raised: bool)
      requires suggestions == s0 + Stamp(done, |s0|, today)
      modifies this`suggestions
      ensures suggestions == s0 + Stamp(done + Sweep(names, HardcodedFileStep(tree, role)).findings, |s0|, today)
      ensures raised == Sweep(names, HardcodedFileStep(tree, role)).raised
    {
      raised := false;
      var i := 0;
      ghost var acc := done;
      while i < |names|
        invariant 0 <= i <= |names|
        invariant acc == done + Sweep(names[..i], HardcodedFileStep(tree, role)).findings
        invariant suggestions == s0 + Stamp(acc, |s0|, today)
        invariant !Sweep(names[..i], HardcodedFileStep(tree, role)).raised
      {
        raised := CheckTaskFile(role, names[i], s0, acc);
        SweepAccumulate(done, names, i, HardcodedFileStep(tree, role), HardcodedInFile(tree, role, names[i]));
        acc := acc + HardcodedInFile(tree, role, names[i]).findings;
        if raised {
          SweepStops(names, i + 1, HardcodedFileStep(tree, role));
          return;
        }
        i := i + 1;
      }
      assert names[..i] == names;
    }

    /** The tasks directory of one role, when it exists. */
    method CheckRoleTasks(role: string, ghost s0: seq<Suggestion>, ghost done: seq<Finding>) returns (raised: bool)
      requires suggestions == s0 + Stamp(done, |s0|, today)
      modifies this`suggestions
      ensures suggestions == s0 + Stamp(done + HardcodedInRole(tree, role).findings, |s0|, today)
      ensures raised == HardcodedInRole(tree, role).raised
    {
      var tasksDir := PathJoin(PathJoin(RolesDir(tree), role), "tasks");
      if !Exists(tree, tasksDir) {
        return false;
      }
      var listing := ListDir(tree, tasksDir);
      if listing.None? {
        return true;
      }
      raised := CheckTaskFiles(role, listing.value, s0, done);
    }

    /** The first loop of `analyze_best_practices`, over the roles. */
    method CheckHardcodedValues(ghost s0: seq<Suggestion>, ghost done: seq<Finding>) returns (raised: bool)
      requires suggestions == s0 + Stamp(done, |s0|, today)
      modifies this`suggestions
      ensures suggestions == s0 + Stamp(done + Sweep(tree.roles, HardcodedStep(tree)).findings, |s0|, today)
      ensures raised == Sweep(tree.roles, HardcodedStep(tree)).raised
    {
      raised := false;
      var i := 0;
      ghost var acc := done;
      while i < |tree.roles|
        invariant 0 <= i <= |tree.roles|
        invariant acc == done + Sweep(tree.roles[..i], HardcodedStep(tree)).findings
        invariant suggestions == s0 + Stamp(acc, |s0|, today)
        invariant !Sweep(tree.roles[..i], HardcodedStep(tree)).raised
      {
        raised := CheckRoleTasks(tree.roles[i], s0, acc);
        SweepAccumulate(done, tree.roles, i, HardcodedStep(tree), HardcodedInRole(tree, tree.roles[i]));
        acc := acc + HardcodedInRole(tree, tree.roles[i]).findings;
        if raised {
          SweepStops(tree.roles, i + 1, HardcodedStep(tree));
          return;
        }
        i := i + 1;
      }
      assert tree.roles[..i] == tree.roles;
    }

    /** Whether `tasks/main.yml` of one role uses tags. */
    method CheckTags(role: string, ghost s0: seq<Suggestion>, ghost done: seq<Finding>) returns (raised: bool)
      requires suggestions == s0 + Stamp(done, |s0|, today)
      modifies this`suggestions
      ensures suggestions == s0 + Stamp(done + TagsInRole(tree, role).findings, |s0|, today)
      ensures raised == TagsInRole(tree, role).raised
    {
      var tasksDir := PathJoin(PathJoin(RolesDir(tree), role), "tasks");
      if Exists(tree, tasksDir) {
        var mainFile := PathJoin(tasksDir, "main.yml");
        if Exists(tree, mainFile) {
          var r := ReadFile(tree, mainFile);
          if !r.Read? {
            return true;
          }
          if !Contains(r.text, "tags:") {
            AddFinding(TagsFinding(role, mainFile), s0, done);
          }
        }
      }
      return false;
    }

    /** The second loop of `analyze_best_practices`, over the roles. */
    method CheckRolesTags(ghost s0: seq<Suggestion>, ghost done: seq<Finding>) returns (raised: bool)
      requires suggestions == s0 + Stamp(done, |s0|, today)
      modifies this`suggestions
      ensures suggestions == s0 + Stamp(done + Sweep(tree.roles, TagsStep(tree)).findings, |s0|, today)
      ensures raised == Sweep(tree.roles, TagsStep(tree)).raised
    {
      raised := false;
      var i := 0;
      ghost var acc := done;
      while i < |tree.roles|
        invariant 0 <= i <= |tree.roles|
        invariant acc == done + Sweep(tree.roles[..i], TagsStep(tree)).findings
        invariant suggestions == s0 + Stamp(acc, |s0|, today)
        invariant !Sweep(tree.roles[..i], TagsStep(tree)).raised
      {
        raised := CheckTags(tree.roles[i], s0, acc);
        SweepAccumulate(done, tree.roles, i, TagsStep(tree), TagsInRole(tree, tree.roles[i]));
        acc := acc + TagsInRole(tree, tree.roles[i]).findings;
        if raised {
          SweepStops(tree.roles, i + 1, TagsStep(tree));
          return;
        }
        i := i + 1;
      }
      assert tree.roles[..i] == tree.roles;
    }

    /** `analyze_best_practices`. */
    method AnalyzeBestPractices() returns (raised: bool)
      modifies this`suggestions
      ensures suggestions == old(suggestions) + Stamp(BestPractices(tree).findings, |old(suggestions)|, today)
      ensures raised == BestPractices(tree).raised
    {
      ghost var s0 := suggestions;
      ghost var hardcoded, tags := Sweep(tree.roles, HardcodedStep(tree)), Sweep(tree.roles, TagsStep(tree));
      assert BestPractices(tree) == Then(hardcoded, tags);
      raised := CheckHardcodedValues(s0, []);
      assert [] + hardcoded.findings == hardcoded.findings;
      if raised {
        return;
      }
      raised := CheckRolesTags(s0, hardcoded.findings);
    }

    // -------------------------------------------------------------------------
    // analyze_testing

    /** The test files of one role: a component or an integration test must exist. */
    method CheckDedicatedTests(role: string, ghost s0: seq<Suggestion>, ghost done: seq<Finding>)
      requires suggestions == s0 + Stamp(done, |s0|, today)
      modifies this`suggestions
      ensures suggestions == s0 + Stamp(done + DedicatedTestsForRole(tree, role), |s0|, today)
    {
      var testsDir := PathJoin(tree.root, "tests");
      var componentTest := PathJoin(PathJoin(testsDir, "component_tests"), role + "_tests.yml");
      var integrationTest := PathJoin(PathJoin(testsDir, "integration_tests"), role + "_integration_tests.yml");
      if !(Exists(tree, componentTest) || Exists(tree, integrationTest)) {
        AddFinding(DedicatedTestsFinding(role, PathJoin(RolesDir(tree), role)), s0, done);
      } else {
        assert done + [] == done;
      }
    }

    /** The `molecule` directory of one role must exist. */
    method CheckMolecule(role: string, ghost s0: seq<Suggestion>, ghost done: seq<Finding>)
      requires suggestions == s0 + Stamp(done, |s0|, today)
      modifies this`suggestions
      ensures suggestions == s0 + Stamp(done + MoleculeForRole(tree, role), |s0|, today)
    {
      var moleculeDir := PathJoin(PathJoin(RolesDir(tree), role), "molecule");
      if !Exists(tree, moleculeDir) {
        AddFinding(MoleculeFinding(role, PathJoin(RolesDir(tree), role)), s0, done);
      } else {
        assert done + [] == done;
      }
    }

    /** `analyze_testing`: the test-file loop, then the Molecule loop. */
    method AnalyzeTesting()
      modifies this`suggestions
      ensures suggestions == old(suggestions) + Stamp(Testing(tree), |old(suggestions)|, today)
    {
      ghost var s0 := suggestions;
      var roles := tree.roles;
      var i := 0;
      ghost var acc: seq<Finding> := [];
      while i < |roles|
        invariant 0 <= i <= |roles|
        invariant acc == [] + DedicatedTestsPass(tree, roles[..i])
        invariant suggestions == s0 + Stamp(acc, |s0|, today)
      {
        CheckDedicatedTests(roles[i], s0, acc);
        DedicatedTestsStep(tree, roles, i);
        AppendStep([], DedicatedTestsPass(tree, roles[..i + 1]), DedicatedTestsPass(tree, roles[..i]), DedicatedTestsForRole(tree, roles[i]));
        acc := acc + DedicatedTestsForRole(tree, roles[i]);
        i := i + 1;
      }
      assert roles[..i] == roles;
      ghost var first := acc;
      assert first == DedicatedTestsPass(tree, roles);
      i := 0;
      while i < |roles|
        invariant 0 <= i <= |roles|
        invariant acc == first + MoleculePass(tree, roles[..i])
        invariant suggestions == s0 + Stamp(acc, |s0|, today)
      {
        CheckMolecule(roles[i], s0, acc);
        MoleculeStep(tree, roles, i);
        AppendStep(first, MoleculePass(tree, roles[..i + 1]), MoleculePass(tree, roles[..i]), MoleculeForRole(tree, roles[i]));
        acc := acc + MoleculeForRole(tree, roles[i]);
        i := i + 1;
      }
      assert roles[..i] == roles;
      assert acc == Testing(tree);
    }

    // -------------------------------------------------------------------------
    // analyze_security

    /** The pattern loop of one file: the four patterns in turn, stopping at the first match. */
    method ScanForSecrets(filePath: string, content: string, ghost s0: seq<Suggestion>, ghost done: seq<Finding>)
      requires suggestions == s0 + Stamp(done, |s0|, today)
      modifies this`suggestions
      ensures suggestions == s0 + Stamp(done +
        (if AnySensitive(content) then [SecretFinding(RelPath(tree.root, filePath), filePath)] else []), |s0|, today)
    {
      var k := 0;
      while k < |SensitiveKeys|
        invariant 0 <= k <= |SensitiveKeys|
        invariant !SensitiveAmong(content, k)
      {
        if HasSensitiveAssignment(content, SensitiveKeys[k]) {
          assert AnySensitive(content);
          AddFinding(SecretFinding(RelPath(tree.root, filePath), filePath), s0, done);
          return;  // the `break` out of the pattern loop
        }
        k := k + 1;
      }
      assert done + [] == done;
    }

    /** One walked file: only a decoding error is caught. */
    method CheckFileForSecrets(e: WalkEntry, ghost s0: seq<Suggestion>, ghost done: seq<Finding>) returns (raised: bool)
      requires suggestions == s0 + Stamp(done, |s0|, today)
      modifies this`suggestions
      ensures suggestions == s0 + Stamp(done + SecretsInFile(tree, e).findings, |s0|, today)
      ensures raised == SecretsInFile(tree, e).raised
    {
      if !(EndsWith(e.name, ".yml") || EndsWith(e.name, ".yaml") || EndsWith(e.name, ".j2")) {
        assert done + [] == done;
        return false;
      }
      var filePath := PathJoin(e.dir, e.name);
      var r := ReadFile(tree, filePath);
      if r.OpenError? {
        assert done + [] == done;
        return true;
      }
      if r.DecodeError? {
        assert done + [] == done;
        return false;
      }
      ScanForSecrets(filePath, r.text, s0, done);
      return false;
    }
    /** The files `os.walk` yields under one role. */
    method CheckWalkForSecrets(role: string, ghost s0: seq<Suggestion>, ghost done: seq<Finding>) returns (raised: bool)
      requires suggestions == s0 + Stamp(done, |s0|, today)
      modifies this`suggestions
      ensures suggestions == s0 + Stamp(done + Sweep(Walk(tree, RolePath(tree, role)), SecretsFileStep(tree)).findings, |s0|, today)
      ensures raised == Sweep(Walk(tree, RolePath(tree, role)), SecretsFileStep(tree)).raised
    {
      var entries := Walk(tree, RolePath(tree, role));
      raised := false;
      var i := 0;
      ghost var acc := done;
      while i < |entries|
        invariant 0 <= i <= |entries|
        invariant acc == done + Sweep(entries[..i], SecretsFileStep(tree)).findings
        invariant suggestions == s0 + Stamp(acc, |s0|, today)
        invariant !Sweep(entries[..i], SecretsFileStep(tree)).raised
      {
        raised := CheckFileForSecrets(entries[i], s0, acc);
        SweepAccumulate(done, entries, i, SecretsFileStep(tree), SecretsInFile(tree, entries[i]));
        acc := acc + SecretsInFile(tree, entries[i]).findings;
        if raised {
          SweepStops(entries, i + 1, SecretsFileStep(tree));
          return;
        }
        i := i + 1;
      }
      assert entries[..i] == entries;
    }

    /** `analyze_security`. */
    method AnalyzeSecurity() returns (raised: bool)
      modifies this`suggestions
      ensures suggestions == old(suggestions) + Stamp(Security(tree).findings, |old(suggestions)|, today)
      ensures raised == Security(tree).raised
    {
      ghost var s0 := suggestions;
      raised := CheckRolesForSecrets(s0, []);
    }

    /** The loop of `analyze_security` over the roles. */
    method CheckRolesForSecrets(ghost s0: seq<Suggestion>, ghost done: seq<Finding>) returns (raised: bool)
      requires suggestions == s0 + Stamp(done, |s0|, today)
      modifies this`suggestions
      ensures suggestions == s0 + Stamp(done + Sweep(tree.roles, SecurityStep(tree)).findings, |s0|, today)
      ensures raised == Sweep(tree.roles, SecurityStep(tree)).raised
    {
      raised := false;
      var i := 0;
      ghost var acc := done;
      while i < |tree.roles|
        invariant 0 <= i <= |tree.roles|
        invariant acc == done + Sweep(tree.roles[..i], SecurityStep(tree)).findings
        invariant suggestions == s0 + Stamp(acc, |s0|, today)
        invariant !Sweep(tree.roles[..i], SecurityStep(tree)).raised
      {
        raised := CheckWalkForSecrets(tree.roles[i], s0, acc);
        SweepAccumulate(done, tree.roles, i, SecurityStep(tree), SecretsInRole(tree, tree.roles[i]));
        acc := acc + SecretsInRole(tree, tree.roles[i]).findings;
        if raised {
          SweepStops(tree.roles, i + 1, SecurityStep(tree));
          return;
        }
        i := i + 1;
      }
      assert tree.roles[..i] == tree.roles;
    }

    // -------------------------------------------------------------------------
    // analyze_dependencies

    /** Version pinning in `meta/main.yml` of one role. */
    method CheckPinning(role: string, ghost s0: seq<Suggestion>, ghost done: seq<Finding>) returns (raised: bool)
      requires suggestions == s0 + Stamp(done, |s0|, today)
      modifies this`suggestions
      ensures suggestions == s0 + Stamp(done + PinningInRole(tree, role).findings, |s0|, today)
      ensures raised == PinningInRole(tree, role).raised
    {
      var metaPath := PathJoin(PathJoin(PathJoin(RolesDir(tree), role), "meta"), "main.yml");
      if Exists(tree, metaPath) {
        var r := ReadFile(tree, metaPath);
        if r.OpenError? {
          return true;
        }
        if r.Read? && Contains(r.text, "dependencies:") && !HasQuotedVersion(r.text) {
          AddFinding(PinFinding(role, metaPath), s0, done);
        }
      }
      return false;
    }

    /** The first loop of `analyze_dependencies`, over the roles. */
    method CheckRolesPinning(ghost s0: seq<Suggestion>, ghost done: seq<Finding>) returns (raised: bool)
      requires suggestions == s0 + Stamp(done, |s0|, today)
      modifies this`suggestions
      ensures suggestions == s0 + Stamp(done + Sweep(tree.roles, PinningStep(tree)).findings, |s0|, today)
      ensures raised == Sweep(tree.roles, PinningStep(tree)).raised
    {
      raised := false;
      var i := 0;
      ghost var acc := done;
      while i < |tree.roles|
        invariant 0 <= i <= |tree.roles|
        invariant acc == done + Sweep(tree.roles[..i], PinningStep(tree)).findings
        invariant suggestions == s0 + Stamp(acc, |s0|, today)
        invariant !Sweep(tree.roles[..i], PinningStep(tree)).raised
      {
        raised := CheckPinning(tree.roles[i], s0, acc);
        SweepAccumulate(done, tree.roles, i, PinningStep(tree), PinningInRole(tree, tree.roles[i]));
        acc := acc + PinningInRole(tree, tree.roles[i]).findings;
        if raised {
          SweepStops(tree.roles, i + 1, PinningStep(tree));
          return;
        }
        i := i + 1;
      }
      assert tree.roles[..i] == tree.roles;
    }

    /** One URL: a finding when it is a GitHub release download. */
    method CheckUrl(relPath: string, filePath: string, url: string, ghost s0: seq<Suggestion>, ghost done: seq<Finding>)
      requires suggestions == s0 + Stamp(done, |s0|, today)
      modifies this`suggestions
      ensures suggestions == s0 + Stamp(done +
        (if IsReleaseUrl(url) then [ReleaseUrlFinding(relPath, filePath, url)] else []), |s0|, today)
    {
      if Contains(url, "github.com") && Contains(url, "/releases/download/") {
        AddFinding(ReleaseUrlFinding(relPath, filePath, url), s0, done);
      } else {
        assert done + [] == done;
      }
    }

    /** The loop over the URLs `re.findall` returns for one file. */
    method CheckUrls(relPath: string, filePath: string, urls: seq<string>, ghost s0: seq<Suggestion>, ghost done: seq<Finding>)
      requires suggestions == s0 + Stamp(done, |s0|, today)
      modifies this`suggestions
      ensures suggestions == s0 + Stamp(done + ReleaseUrlFindings(relPath, filePath, urls), |s0|, today)
    {
      var k := 0;
      ghost var acc := done;
      while k < |urls|
        invariant 0 <= k <= |urls|
        invariant acc == done + ReleaseUrlFindings(relPath, filePath, urls[..k])
        invariant suggestions == s0 + Stamp(acc, |s0|, today)
      {
        ghost var next := if IsReleaseUrl(urls[k]) then [ReleaseUrlFinding(relPath, filePath, urls[k])] else [];
        CheckUrl(relPath, filePath, urls[k], s0, acc);
        ReleaseUrlFindingsStep(relPath, filePath, urls, k);
        AppendStep(done, ReleaseUrlFindings(relPath, filePath, urls[..k + 1]), ReleaseUrlFindings(relPath, filePath, urls[..k]), next);
        acc := acc + next;
        k := k + 1;
      }
      assert urls[..k] == urls;
    }

    /** The URLs of one walked file: one finding per release URL. */
    method CheckFileUrls(e: WalkEntry, ghost s0: seq<Suggestion>, ghost done: seq<Finding>) returns (raised: bool)
      requires suggestions == s0 + Stamp(done, |s0|, today)
      modifies this`suggestions
      ensures suggestions == s0 + Stamp(done + ReleaseUrlsInFile(tree, e).findings, |s0|, today)
      ensures raised == ReleaseUrlsInFile(tree, e).raised
    {
      if !(EndsWith(e.name, ".yml") || EndsWith(e.name, ".yaml") || EndsWith(e.name, ".md") || EndsWith(e.name, ".j2")) {
        assert done + [] == done;
        return false;
      }
      var filePath := PathJoin(e.dir, e.name);
      var r := ReadFile(tree, filePath);
      if r.OpenError? {
        assert done + [] == done;
        return true;
      }
      if r.DecodeError? {
        assert done + [] == done;
        return false;
      }
      CheckUrls(RelPath(tree.root, filePath), filePath, Urls(r.text), s0, done);
      return false;
    }
    /** The files `os.walk` yields under one role. */
    method CheckWalkUrls(role: string, ghost s0: seq<Suggestion>, ghost done: seq<Finding>) returns (raised: bool)
      requires suggestions == s0 + Stamp(done, |s0|, today)
      modifies this`suggestions
      ensures suggestions == s0 + Stamp(done + Sweep(Walk(tree, RolePath(tree, role)), UrlFileStep(tree)).findings, |s0|, today)
      ensures raised == Sweep(Walk(tree, RolePath(tree, role)), UrlFileStep(tree)).raised
    {
      var entries := Walk(tree, RolePath(tree, role));
      raised := false;
      var i := 0;
      ghost var acc := done;
      while i < |entries|
        invariant 0 <= i <= |entries|
        invariant acc == done + Sweep(entries[..i], UrlFileStep(tree)).findings
        invariant suggestions == s0 + Stamp(acc, |s0|, today)
        invariant !Sweep(entries[..i], UrlFileStep(tree)).raised
      {
        raised := CheckFileUrls(entries[i], s0, acc);
        SweepAccumulate(done, entries, i, UrlFileStep(tree), ReleaseUrlsInFile(tree, entries[i]));
        acc := acc + ReleaseUrlsInFile(tree, entries[i]).findings;
        if raised {
          SweepStops(entries, i + 1, UrlFileStep(tree));
          return;
        }
        i := i + 1;
      }
      assert entries[..i] == entries;
    }

    /** The second loop of `analyze_dependencies`, over the roles. */
    method CheckRolesUrls(ghost s0: seq<Suggestion>, ghost done: seq<Finding>) returns (raised: bool)
      requires suggestions == s0 + Stamp(done, |s0|, today)
      modifies this`suggestions
      ensures suggestions == s0 + Stamp(done + Sweep(tree.roles, ReleaseUrlStep(tree)).findings, |s0|, today)
      ensures raised == Sweep(tree.roles, ReleaseUrlStep(tree)).raised
    {
      raised := false;
      var i := 0;
      ghost var acc := done;
      while i < |tree.roles|
        invariant 0 <= i <= |tree.roles|
        invariant acc == done + Sweep(tree.roles[..i], ReleaseUrlStep(tree)).findings
        invariant suggestions == s0 + Stamp(acc, |s0|, today)
        invariant !Sweep(tree.roles[..i], ReleaseUrlStep(tree)).raised
      {
        raised := CheckWalkUrls(tree.roles[i], s0, acc);
        SweepAccumulate(done, tree.roles, i, ReleaseUrlStep(tree), ReleaseUrlsInRole(tree, tree.roles[i]));
        acc := acc + ReleaseUrlsInRole(tree, tree.roles[i]).findings;
        if raised {
          SweepStops(tree.roles, i + 1, ReleaseUrlStep(tree));
          return;
        }
        i := i + 1;
      }
      assert tree.roles[..i] == tree.roles;
    }

    /** `analyze_dependencies`. */
    method AnalyzeDependencies() returns (raised: bool)
      modifies this`suggestions
      ensures suggestions == old(suggestions) + Stamp(Dependencies(tree).findings, |old(suggestions)|, today)
      ensures raised == Dependencies(tree).raised
    {
      ghost var s0 := suggestions;
      ghost var pinning, urls := Sweep(tree.roles, PinningStep(tree)), Sweep(tree.roles, ReleaseUrlStep(tree));
      assert Dependencies(tree) == Then(pinning, urls);
      raised := CheckRolesPinning(s0, []);
      assert [] + pinning.findings == pinning.findings;
      if raised {
        return;
      }
      raised := CheckRolesUrls(s0, pinning.findings);
    }

    // -------------------------------------------------------------------------
    // analyze

    /** `analyze`: the six rules in their fixed order, each adding to the list, then the
        role and category filters; with none set, the list itself is returned. The list
        is kept unfiltered. */
    method Analyze() returns (result: Outcome<seq<Suggestion>>)
      modifies this`suggestions
      ensures suggestions == old(suggestions) + Stamp(Analysis(tree).findings, |old(suggestions)|, today)
      ensures result.Escaped? <==> Analysis(tree).raised
      ensures result.Returned? ==> result.value == ApplyFilters(suggestions, filterRole, filterCategory)
    {
      ghost var s0 := suggestions;
      AnalyzeRoleStructure();
      ghost var r := Completed(RoleStructure(tree));
      var raised := AnalyzeDocumentation();
      StampExtend(s0, r.findings, Documentation(tree).findings, today);
      r := Then(r, Documentation(tree));
      if raised {
        return Escaped;
      }
      raised := AnalyzeBestPractices();
      StampExtend(s0, r.findings, BestPractices(tree).findings, today);
      r := Then(r, BestPractices(tree));
      if raised {
        return Escaped;
      }
      AnalyzeTesting();
      StampExtend(s0, r.findings, Testing(tree), today);
      r := Then(r, Completed(Testing(tree)));
      raised := AnalyzeSecurity();
      StampExtend(s0, r.findings, Security(tree).findings, today);
      r := Then(r, Security(tree));
      if raised {
        return Escaped;
      }
      raised := AnalyzeDependencies();
      StampExtend(s0, r.findings, Dependencies(tree).findings, today);
      r := Then(r, Dependencies(tree));
      if raised {
        return Escaped;
      }
      var filtered := suggestions;
      if Truthy(filterRole) {
        filtered := FilterByRole(filtered, filterRole.value);
      }
      if Truthy(filterCategory) {
        filtered := FilterByCategory(filtered, filterCategory.value);
      }
      return Returned(filtered);
    }

    // -------------------------------------------------------------------------
    // generate_output and the renderers

    /** The `by_category` loop of the console and Markdown renderers: the keys in insertion
        order, and for each key the suggestions of that category in list order. */
    method GroupByCategory() returns (order: seq<string>, byCategory: map<string, seq<Suggestion>>)
      ensures order == FirstSeen(suggestions)
      ensures forall c :: c in byCategory <==> c in order
      ensures forall c :: c in byCategory ==> byCategory[c] == FilterByCategory(suggestions, c)
    {
      order, byCategory := [], map[];
      var i := 0;
      while i < |suggestions|
        invariant 0 <= i <= |suggestions|
        invariant order == FirstSeen(suggestions[..i])
        invariant GroupsOf(byCategory, suggestions[..i])
      {
        var suggestion := suggestions[i];
        var category := suggestion.category;
        FirstSeenStep(suggestions, i);
        GroupMapStep(byCategory, suggestions, i);
        ghost var next := AddToGroup(byCategory, suggestion);
        if category !in byCategory {
          byCategory := byCategory[category := []];
          order := order + [category];
        }
        byCategory := byCategory[category := byCategory[category] + [suggestion]];
        assert byCategory == next;
        i := i + 1;
      }
      assert suggestions[..i] == suggestions;
    }

    /** The sections a renderer prints: one per key of `by_category`, its items sorted by
        priority. */
    method BuildSections() returns (sections: seq<Section>)
      ensures sections == Sections(suggestions)
    {
      var order, byCategory := GroupByCategory();
      sections := [];
      var k := 0;
      while k < |order|
        invariant 0 <= k <= |order|
        invariant |sections| == k
        invariant forall j :: 0 <= j < k ==> sections[j] == SectionFor(suggestions, order[j])
      {
        var category := order[k];
        var items := SortByPriority(byCategory[category]);
        var section := Section(category, CategoryLabel(category), items);
        SectionsSnoc(suggestions, order, sections, section);
        sections := sections + [section];
        k := k + 1;
      }
      SectionsByIndex(suggestions, sections);
    }

    /** `generate_output`, with `now` standing for the timestamp of the JSON and Markdown
        renderers. */
    method GenerateOutput(now: string) returns (out: Output)
      ensures out == Render(outputFormat, githubIntegration, suggestions, now)
    {
      if suggestions == [] {
        return Output(NoSuggestions, false);
      }
      var report := NoReport;
      if outputFormat == "console" {
        var sections := BuildSections();
        report := Console(|suggestions|, sections);
      } else if outputFormat == "json" {
        report := Json(now, |suggestions|, suggestions);
      } else if outputFormat == "markdown" {
        var sections := BuildSections();
        report := Markdown(now, |suggestions|, sections);
      }
      out := Output(report, githubIntegration);
    }
  }

  /** What `main` of scripts/repo_analyzer.py ends with: a crash, or the output written to
      the output file (when one is named) or to standard output. */
  datatype AnalyzerRun = AnalyzerCrashed | Printed(outputFile: Option<string>, output: Output)

  /** `main`, from its parsed arguments: `analyze`, then the category and role filters
      applied in place in that order, then `generate_output`. The result is what the
      filters of `analyze` would have given. */
  method RunAnalyzer(t: Tree, format: string, github: bool, category: Option<string>, role: Option<string>,
                     outputFile: Option<string>, today: string, now: string) returns (run: AnalyzerRun)
    ensures Analysis(t).raised ==> run == AnalyzerCrashed
    ensures !Analysis(t).raised ==> run == Printed(
      if Truthy(outputFile) then outputFile else None,
      Render(format, github, ApplyFilters(Stamp(Analysis(t).findings, 0, today), role, category), now))
  {
    var analyzer := new RepoAnalyzer(t, format, github, false, today);
    var result := analyzer.Analyze();
    if result.Escaped? {
      return AnalyzerCrashed;
    }
    assert analyzer.suggestions == Stamp(Analysis(t).findings, 0, today);
    MainFiltersAgree(analyzer.suggestions, role, category);
    if Truthy(category) {
      analyzer.suggestions := FilterByCategory(analyzer.suggestions, category.value);
    }
    if Truthy(role) {
      analyzer.suggestions := FilterByRole(analyzer.suggestions, role.value);
    }
    var output := analyzer.GenerateOutput(now);
    run := Printed(if Truthy(outputFile) then outputFile else None, output);
  }
}
