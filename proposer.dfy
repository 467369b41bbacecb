/** The improvement proposer: a fixed rule table that turns a repository analysis
    into an ordered list of improvement records, documentation first, then
    structure, then best practices. */
module Proposer {
  import opened Common

  /** The documentation section of an analysis. A flag that is absent or falsy in the
      analysis is `false` here; an absent README length is None and counts as 0. */
  datatype Documentation = Documentation(
    hasReadme: bool,
    readmeLength: Option<int>,
    hasLicense: bool,
    hasContributing: bool)

  /** The structure section of an analysis; an absent list is empty */
  datatype Structure = Structure(
    hasTests: bool,
    hasSrc: bool,
    rootFiles: seq<string>,
    rootDirs: seq<string>)

  /** An analysis; an absent section is the one with every entry absent */
  datatype Analysis = Analysis(documentation: Documentation, structure: Structure)

  const NoDocumentation := Documentation(false, None, false, false)
  const NoStructure := Structure(false, false, [], [])

  /** What an improvement asks for; its name is the record's "action" string */
  datatype Action =
    | CreateReadme | ExpandReadme | AddLicense | AddContributing
    | AddTestsDir | OrganizeSrc | AddGitignore | AddCi
  {
    function Name(): string {
      match this
      case CreateReadme => "create_readme"
      case ExpandReadme => "expand_readme"
      case AddLicense => "add_license"
      case AddContributing => "add_contributing"
      case AddTestsDir => "add_tests_dir"
      case OrganizeSrc => "organize_src"
      case AddGitignore => "add_gitignore"
      case AddCi => "add_ci"
    }
  }

  datatype Category = DocumentationCategory | StructureCategory | BestPractices
  {
    function Name(): string {
      match this
      case DocumentationCategory => "documentation"
      case StructureCategory => "structure"
      case BestPractices => "best-practices"
    }
  }

  datatype Priority = High | Medium | Low
  {
    function Name(): string {
      match this
      case High => "high"
      case Medium => "medium"
      case Low => "low"
    }
  }

  datatype Improvement = Improvement(
    category: Category,
    priority: Priority,
    title: string,
    description: string,
    action: Action)

  function CategoryOf(action: Action): Category {
    match action
    case CreateReadme | ExpandReadme | AddLicense | AddContributing => DocumentationCategory
    case AddTestsDir | OrganizeSrc => StructureCategory
    case AddGitignore | AddCi => BestPractices
  }

  function PriorityOf(action: Action): Priority {
    match action
    case CreateReadme | AddTestsDir => High
    case ExpandReadme | AddLicense | OrganizeSrc | AddGitignore => Medium
    case AddContributing | AddCi => Low
  }

  function Title(action: Action): string {
    match action
    case CreateReadme => "Add README.md"
    case ExpandReadme => "Expand README.md"
    case AddLicense => "Add LICENSE file"
    case AddContributing => "Add CONTRIBUTING.md"
    case AddTestsDir => "Add test directory"
    case OrganizeSrc => "Organize code into src directory"
    case AddGitignore => "Add .gitignore"
    case AddCi => "Add CI/CD configuration"
  }

  function Description(action: Action): string {
    match action
    case CreateReadme => "Repository lacks a README file. Add one to describe the project."
    case ExpandReadme =>
      "README is very brief. Consider adding more details about usage, installation, and features."
    case AddLicense => "Repository lacks a LICENSE file. Consider adding one to clarify usage rights."
    case AddContributing => "Add a CONTRIBUTING guide to help potential contributors."
    case AddTestsDir => "No test directory found. Consider adding tests for better code quality."
    case OrganizeSrc => "Consider moving source code into a dedicated 'src' directory for better organization."
    case AddGitignore => "Add a .gitignore file to exclude build artifacts and dependencies."
    case AddCi => "Consider adding GitHub Actions or other CI/CD for automated testing."
  }

  /** The fixed record each action comes with */
  function Record(action: Action): Improvement {
    Improvement(CategoryOf(action), PriorityOf(action), Title(action), Description(action), action)
  }

  /** The README length the documentation check compares, 0 when absent */
  function ReadmeLength(docs: Documentation): int {
    match docs.readmeLength
    case None => 0
    case Some(n) => n
  }

  /** The documentation checks: README (missing, else short), licence, contributing guide */
  function CheckDocumentation(docs: Documentation): (r: seq<Action>)
    ensures |r| <= 3
    ensures forall i :: 0 <= i < |r| ==> CategoryOf(r[i]) == DocumentationCategory
    ensures !(CreateReadme in r && ExpandReadme in r)
  {
    (if !docs.hasReadme then [CreateReadme]
     else if ReadmeLength(docs) < 100 then [ExpandReadme]
     else []) +
    (if !docs.hasLicense then [AddLicense] else []) +
    (if !docs.hasContributing then [AddContributing] else [])
  }

  const CodeExtensions := [".py", ".js", ".ts", ".java", ".go"]

  /** A file name with one of the source-code extensions */
  predicate IsCodeFile(f: string) {
    exists k :: 0 <= k < |CodeExtensions| && EndsWith(f, CodeExtensions[k])
  }

  predicate HasCodeInRoot(rootFiles: seq<string>) {
    exists i :: 0 <= i < |rootFiles| && IsCodeFile(rootFiles[i])
  }

  /** The structure checks: a test directory, and a src directory when code sits at the root */
  function CheckStructure(structure: Structure): (r: seq<Action>)
    ensures |r| <= 2
    ensures forall i :: 0 <= i < |r| ==> CategoryOf(r[i]) == StructureCategory
  {
    (if !structure.hasTests then [AddTestsDir] else []) +
    (if !structure.hasSrc && HasCodeInRoot(structure.rootFiles) then [OrganizeSrc] else [])
  }

  /** A root directory holding CI configuration */
  predicate HasCi(rootDirs: seq<string>) {
    exists i :: 0 <= i < |rootDirs| && (StartsWith(rootDirs[i], ".github") || StartsWith(rootDirs[i], ".gitlab"))
  }

  /** The best-practice checks: a .gitignore at the root, and CI configuration */
  function CheckBestPractices(structure: Structure): (r: seq<Action>)
    ensures |r| <= 2
    ensures forall i :: 0 <= i < |r| ==> CategoryOf(r[i]) == BestPractices
  {
    (if ".gitignore" !in structure.rootFiles then [AddGitignore] else []) +
    (if !HasCi(structure.rootDirs) then [AddCi] else [])
  }

  /** The actions propose_improvements reports: the three groups of checks, in this order */
  function ProposeActions(analysis: Analysis): (r: seq<Action>)
    ensures |r| <= 7
  {
    CheckDocumentation(analysis.documentation) +
    CheckStructure(analysis.structure) +
    CheckBestPractices(analysis.structure)
  }

  /** propose_improvements: the fixed record of each reported action, in report order */
  function ProposeImprovements(analysis: Analysis): (r: seq<Improvement>)
    ensures |r| == |ProposeActions(analysis)|
    ensures forall i :: 0 <= i < |r| ==> r[i].action == ProposeActions(analysis)[i]
    ensures forall i :: 0 <= i < |r| ==> r[i] == Record(r[i].action)
  {
    var actions := ProposeActions(analysis);
    seq(|actions|, i requires 0 <= i < |actions| => Record(actions[i]))
  }

  /** The rule table: the condition under which each action is reported */
  predicate Applies(analysis: Analysis, action: Action) {
    var docs, structure := analysis.documentation, analysis.structure;
    match action
    case CreateReadme => !docs.hasReadme
    case ExpandReadme => docs.hasReadme && ReadmeLength(docs) < 100
    case AddLicense => !docs.hasLicense
    case AddContributing => !docs.hasContributing
    case AddTestsDir => !structure.hasTests
    case OrganizeSrc => !structure.hasSrc && HasCodeInRoot(structure.rootFiles)
    case AddGitignore => ".gitignore" !in structure.rootFiles
    case AddCi => !HasCi(structure.rootDirs)
  }

  /** The documentation checks report exactly the documentation actions whose rule applies. */
  lemma DocumentationRules(analysis: Analysis, x: Action)
    ensures x in CheckDocumentation(analysis.documentation) <==>
              CategoryOf(x) == DocumentationCategory && Applies(analysis, x)
  {
  }

  /** The structure checks report exactly the structure actions whose rule applies. */
  lemma StructureRules(analysis: Analysis, x: Action)
    ensures x in CheckStructure(analysis.structure) <==>
              CategoryOf(x) == StructureCategory && Applies(analysis, x)
  {
  }

  /** The best-practice checks report exactly the best-practice actions whose rule applies. */
  lemma BestPracticeRules(analysis: Analysis, x: Action)
    ensures x in CheckBestPractices(analysis.structure) <==>
              CategoryOf(x) == BestPractices && Applies(analysis, x)
  {
  }

  /** An action is reported exactly when its rule applies. */
  lemma ProposalRules(analysis: Analysis)
    ensures forall x :: x in ProposeActions(analysis) <==> Applies(analysis, x)
  {
    forall x ensures x in ProposeActions(analysis) <==> Applies(analysis, x) {
      DocumentationRules(analysis, x);
      StructureRules(analysis, x);
      BestPracticeRules(analysis, x);
    }
  }

  /** The position of an action's check in the order the checks run */
  function Rank(a: Action): nat {
    match a
    case CreateReadme => 0
    case ExpandReadme => 1
    case AddLicense => 2
    case AddContributing => 3
    case AddTestsDir => 4
    case OrganizeSrc => 5
    case AddGitignore => 6
    case AddCi => 7
  }

  /** Actions in strictly increasing check order: so no action appears twice */
  predicate InCheckOrder(r: seq<Action>) {
    forall i, j :: 0 <= i < j < |r| ==> Rank(r[i]) < Rank(r[j])
  }

  /** The position of a category among the three groups */
  function CategoryRank(c: Category): nat {
    match c
    case DocumentationCategory => 0
    case StructureCategory => 1
    case BestPractices => 2
  }

  /** The check order runs the groups one after another. */
  lemma CheckOrderGroups(a: Action, b: Action)
    requires Rank(a) <= Rank(b)
    ensures CategoryRank(CategoryOf(a)) <= CategoryRank(CategoryOf(b))
  {
  }

  lemma InCheckOrderAppend(a: seq<Action>, b: seq<Action>)
    requires InCheckOrder(a) && InCheckOrder(b)
    requires forall i, j :: 0 <= i < |a| && 0 <= j < |b| ==> Rank(a[i]) < Rank(b[j])
    ensures InCheckOrder(a + b)
  {
  }

  /** The checks of each group report in check order, and the groups' ranks do not overlap. */
  lemma GroupsInCheckOrder(analysis: Analysis)
    ensures var d := CheckDocumentation(analysis.documentation);
            InCheckOrder(d) && forall i :: 0 <= i < |d| ==> Rank(d[i]) < 4
    ensures var s := CheckStructure(analysis.structure);
            InCheckOrder(s) && forall i :: 0 <= i < |s| ==> 4 <= Rank(s[i]) < 6
    ensures var b := CheckBestPractices(analysis.structure);
            InCheckOrder(b) && forall i :: 0 <= i < |b| ==> 6 <= Rank(b[i])
  {
  }

  /** The reported actions follow the check order, so none is reported twice. */
  lemma ActionsInCheckOrder(analysis: Analysis)
    ensures InCheckOrder(ProposeActions(analysis))
  {
    var d := CheckDocumentation(analysis.documentation);
    var s := CheckStructure(analysis.structure);
    var b := CheckBestPractices(analysis.structure);
    GroupsInCheckOrder(analysis);
    InCheckOrderAppend(d, s);
    InCheckOrderAppend(d + s, b);
  }

  /** The report lists its groups in order, and no action twice. */
  lemma ProposalOrder(analysis: Analysis)
    ensures var r := ProposeImprovements(analysis);
            forall i, j :: 0 <= i < j < |r| ==> r[i].action != r[j].action
    ensures var r := ProposeImprovements(analysis);
            forall i, j :: 0 <= i < j < |r| ==> CategoryRank(r[i].category) <= CategoryRank(r[j].category)
  {
    ActionsInCheckOrder(analysis);
    var r := ProposeImprovements(analysis);
    forall i, j | 0 <= i < j < |r|
      ensures r[i].action != r[j].action
      ensures CategoryRank(r[i].category) <= CategoryRank(r[j].category)
    {
      CheckOrderGroups(r[i].action, r[j].action);
    }
  }

  /** A README that is missing is never also reported as too short. */
  lemma ReadmeActionsExclusive(analysis: Analysis)
    ensures !(CreateReadme in ProposeActions(analysis) && ExpandReadme in ProposeActions(analysis))
  {
    ProposalRules(analysis);
  }

  /** An empty analysis draws every check except the ones that need root files. */
  lemma EmptyAnalysis()
    ensures ProposeActions(Analysis(NoDocumentation, NoStructure)) ==
            [CreateReadme, AddLicense, AddContributing, AddTestsDir, AddGitignore, AddCi]
  {
    assert !HasCodeInRoot([]);
    assert !HasCi([]);
  }
}
