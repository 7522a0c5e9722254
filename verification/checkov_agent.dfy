/**
 * The parts of `CheckovReportAgent` that do not involve the language model: the
 * project context is analysed once and its summary cached at construction; a
 * failed check is enriched by a topology lookup and that cached summary; and the
 * report's failed checks are counted and their resources and files collected.
 */
module CheckovAgent {

  import opened Wrappers
  import opened Hcl
  import opened NameLists
  import opened Topology
  import opened ProjectIndex
  import opened IndexProperties
  import opened ProjectContext

  /**
   * A field read with `check.get(key, "")`, where a missing key and a JSON `null`
   * give different values.
   */
  datatype KeyedField = Missing | Null | Text(text: string)

  /** What `check.get(key, "")` returns: `""` for a missing key, `None` for JSON `null`. */
  function GetOrEmpty(field: KeyedField): Option<string>
  {
    match field
    case Missing => Some("")
    case Null => None
    case Text(text) => Some(text)
  }

  /**
   * One entry of the report's `failed_checks`. A field read with `check.get(key)` is
   * `None` when its key is missing or JSON `null`.
   */
  datatype Finding = Finding(
    checkId: Option<string>,
    checkName: Option<string>,
    resource: Option<string>,
    resourceType: KeyedField,
    resourceName: KeyedField,
    filePath: Option<string>,
    guideline: Option<string>)

  datatype ReportResults = ReportResults(failedChecks: Option<seq<Finding>>)

  /** A loaded Checkov report: `results` is `None` when the key is missing. */
  datatype Report = Report(results: Option<ReportResults>)

  // ---------------------------------------------------------------------------
  // Rendering the cached project summary
  // ---------------------------------------------------------------------------

  /** `sep.join(parts)`. */
  function Join(parts: seq<string>, sep: string): string
    decreases |parts|
  {
    if |parts| == 0 then ""
    else if |parts| == 1 then parts[0]
    else Join(parts[..|parts| - 1], sep) + sep + parts[|parts| - 1]
  }

  /** Where the `i`-th part starts in `Join(parts, sep)`. */
  function PartOffset(parts: seq<string>, sep: string, i: nat): nat
    requires i <= |parts|
  {
    if i == 0 then 0 else PartOffset(parts, sep, i - 1) + |parts[i - 1]| + |sep|
  }

  lemma {:induction false} PartOffsetOfPrefix(parts: seq<string>, sep: string, n: nat, i: nat)
    requires i <= n <= |parts|
    ensures PartOffset(parts[..n], sep, i) == PartOffset(parts, sep, i)
    decreases i
  {
    if i > 0 {
      PartOffsetOfPrefix(parts, sep, n, i - 1);
    }
  }

  lemma {:induction false} JoinLength(parts: seq<string>, sep: string)
    requires parts != []
    ensures |Join(parts, sep)| == PartOffset(parts, sep, |parts| - 1) + |parts[|parts| - 1]|
    decreases |parts|
  {
    if |parts| > 1 {
      var n := |parts|;
      JoinLength(parts[..n - 1], sep);
      PartOffsetOfPrefix(parts, sep, n - 1, n - 2);
    }
  }

  lemma SliceOfConcatLeft(a: string, b: string, lo: nat, hi: nat)
    requires lo <= hi <= |a|
    ensures (a + b)[lo..hi] == a[lo..hi]
  {
  }

  lemma SliceOfConcatRight(a: string, b: string)
    ensures (a + b)[|a|..|a| + |b|] == b
  {
  }

  /** `Join(parts, sep)` with its last part split off, and where that part starts. */
  lemma JoinSnoc(parts: seq<string>, sep: string)
    requires |parts| > 1
    ensures Join(parts, sep) == (Join(parts[..|parts| - 1], sep) + sep) + parts[|parts| - 1]
    ensures PartOffset(parts, sep, |parts| - 1) == |Join(parts[..|parts| - 1], sep)| + |sep|
  {
    var n := |parts|;
    JoinLength(parts[..n - 1], sep);
    PartOffsetOfPrefix(parts, sep, n - 1, n - 2);
    assert parts[..n - 1][n - 2] == parts[n - 2];
  }

  /** `Join(parts, sep)` holds part `i` at `PartOffset(parts, sep, i)`. */
  lemma {:induction false} JoinPlacesPart(parts: seq<string>, sep: string, i: nat)
    requires i < |parts|
    ensures PartOffset(parts, sep, i) + |parts[i]| <= |Join(parts, sep)|
    ensures Join(parts, sep)[PartOffset(parts, sep, i)..PartOffset(parts, sep, i) + |parts[i]|] == parts[i]
    decreases |parts|
  {
    var n := |parts|;
    if n > 1 {
      var pre := parts[..n - 1];
      JoinSnoc(parts, sep);
      if i == n - 1 {
        SliceOfConcatRight(Join(pre, sep) + sep, parts[i]);
      } else {
        JoinPlacesPart(pre, sep, i);
        PartOffsetOfPrefix(parts, sep, n - 1, i);
        assert pre[i] == parts[i];
        var at := PartOffset(parts, sep, i);
        SliceOfConcatLeft(Join(pre, sep) + sep, parts[n - 1], at, at + |parts[i]|);
        SliceOfConcatLeft(Join(pre, sep), sep, at, at + |parts[i]|);
      }
    }
  }

  /** Between part `i` and part `i + 1`, `Join(parts, sep)` holds exactly `sep`. */
  lemma {:induction false} JoinSeparatesParts(parts: seq<string>, sep: string, i: nat)
    requires i + 1 < |parts|
    ensures PartOffset(parts, sep, i + 1) <= |Join(parts, sep)|
    ensures Join(parts, sep)[PartOffset(parts, sep, i) + |parts[i]|..PartOffset(parts, sep, i + 1)] == sep
    decreases |parts|
  {
    var n := |parts|;
    var pre := parts[..n - 1];
    JoinSnoc(parts, sep);
    PartOffsetOfPrefix(parts, sep, n - 1, i);
    assert pre[i] == parts[i];
    var from := PartOffset(parts, sep, i) + |parts[i]|;
    if i + 1 == n - 1 {
      var joined := Join(pre, sep);
      assert from == |joined|;
      SliceOfConcatLeft(joined + sep, parts[n - 1], from, from + |sep|);
      SliceOfConcatRight(joined, sep);
    } else {
      JoinSeparatesParts(pre, sep, i);
      PartOffsetOfPrefix(parts, sep, n - 1, i + 1);
      var to := PartOffset(parts, sep, i + 1);
      SliceOfConcatLeft(Join(pre, sep) + sep, parts[n - 1], from, to);
      SliceOfConcatLeft(Join(pre, sep), sep, from, to);
    }
  }

  /** The rendered `_get_project_context` text: its providers line, resource-types line and components. */
  datatype ProjectContextText = ProjectContextText(
    providers: string,
    resourceTypes: string,
    networkComponents: map<string, set<string>>)

  function RenderProjectContext(summary: ProjectSummary): ProjectContextText
  {
    ProjectContextText(Join(summary.providers, ", "), Join(summary.resourceTypes, ", "), summary.networkComponents)
  }

  /** What `_analyze_failed_check` renders for one finding. */
  datatype CheckAnalysis = CheckAnalysis(
    issue: Option<string>,
    resource: Option<string>,
    location: Option<string>,
    reference: Option<string>,
    networkContext: Option<Config>,
    projectContext: ProjectContextText)

  class CheckovReportAgent {
    const projectContext: TerraformProjectContext
    const projectSummary: ProjectSummary

    /** The cached summary is the summary of the context as it is now. */
    ghost predicate Valid()
      reads this, projectContext
    {
      projectContext.Valid() && projectSummary == projectContext.GetProjectSummary()
    }

    /** Analyses the project once and caches its summary (the language-model set-up is not modelled). */
    constructor (projectPath: string, listing: seq<WalkEntry>,
                 readTf: string -> Option<TfDocument>, readLock: string -> Option<seq<LockElement>>)
      ensures fresh(projectContext) && Valid()
      ensures projectContext.projectPath == projectPath
      ensures projectContext.Snapshot() == Walk(EMPTY, listing, readTf, readLock)
    {
      var context := new TerraformProjectContext(projectPath);
      context.AnalyzeProject(listing, readTf, readLock);
      projectContext := context;
      projectSummary := context.GetProjectSummary();
    }

    /** `_get_project_context`: rendered from the cached summary only. */
    function GetProjectContext(): ProjectContextText
    {
      RenderProjectContext(projectSummary)
    }

    /**
     * `_analyze_failed_check`: a missing `resource_type` or `resource_name` counts as
     * the empty string and a JSON `null` one matches no key; network context is
     * attached exactly when the topology has a bucket keyed by the raw resource type
     * holding the resource name; the project context is always attached.
     */
    function AnalyzeFailedCheck(check: Finding): (r: CheckAnalysis)
      reads projectContext
      ensures r.issue == check.checkName && r.resource == check.resource
      ensures r.location == check.filePath && r.reference == check.guideline
      ensures r.projectContext == GetProjectContext()
      ensures check.resourceType.Null? || check.resourceName.Null? ==> r.networkContext.None?
      ensures r.networkContext.Some? <==>
                && GetOrEmpty(check.resourceType).Some? && GetOrEmpty(check.resourceName).Some?
                && GetOrEmpty(check.resourceType).value in projectContext.networkTopology
                && GetOrEmpty(check.resourceName).value in projectContext.networkTopology[GetOrEmpty(check.resourceType).value]
      ensures r.networkContext.Some? ==>
                r.networkContext.value ==
                projectContext.networkTopology[GetOrEmpty(check.resourceType).value][GetOrEmpty(check.resourceName).value]
    {
      var resourceType := GetOrEmpty(check.resourceType);
      var resourceName := GetOrEmpty(check.resourceName);
      var networkContext :=
        if && resourceType.Some? && resourceType.value in projectContext.networkTopology
           && resourceName.Some? && resourceName.value in projectContext.networkTopology[resourceType.value]
        then Some(projectContext.networkTopology[resourceType.value][resourceName.value])
        else None;
      CheckAnalysis(check.checkName, check.resource, check.filePath, check.guideline, networkContext, GetProjectContext())
    }
  }

  /**
   * Topology buckets are keyed by component names, so a finding whose resource type
   * is one of the classified Terraform types never gets network context.
   */
  lemma TerraformTypeNeverGetsContext(agent: CheckovReportAgent, check: Finding)
    requires agent.Valid()
    requires check.resourceType.Text? && Classify(check.resourceType.text).Some?
    ensures agent.AnalyzeFailedCheck(check).networkContext.None?
  {
    ClassifiedTypeIsNotAComponent(check.resourceType.text);
  }

  /**
   * Network context is attached only for a resource type that is a component name,
   * and the resource name is then an instance of the Terraform type filed there.
   */
  lemma ContextOnlyForComponentNames(agent: CheckovReportAgent, check: Finding)
    requires agent.Valid()
    ensures agent.AnalyzeFailedCheck(check).networkContext.Some? ==>
              && check.resourceType.Text? && check.resourceType.text in COMPONENT_NAMES
              && !check.resourceName.Null?
              && exists t :: t in agent.projectContext.resources && Classify(t) == Some(check.resourceType.text) &&
                             GetOrEmpty(check.resourceName).value in agent.projectContext.resources[t]
  {
    if agent.AnalyzeFailedCheck(check).networkContext.Some? {
      var rtype := GetOrEmpty(check.resourceType).value;
      var rname := GetOrEmpty(check.resourceName).value;
      var s := agent.projectContext.Snapshot();
      assert rtype in s.topology && rname in s.topology[rtype];
      assert rtype in COMPONENT_NAMES;
      EmptyIsNotAComponent();
      assert check.resourceType.Text? && !check.resourceName.Null?;
      var t :| t in s.resources && Classify(t) == Some(rtype) && rname in s.resources[t];
      assert t in agent.projectContext.resources && rname in agent.projectContext.resources[t];
    }
  }

  /**
   * A missing `resource_name` is looked up as `""`, which a block with an empty
   * label files in the topology; a JSON `null` one is never found.
   */
  lemma MissingAndNullNamesDiffer(agent: CheckovReportAgent, check: Finding)
    requires check.resourceType.Text? && check.resourceType.text in agent.projectContext.networkTopology
    requires "" in agent.projectContext.networkTopology[check.resourceType.text]
    ensures agent.AnalyzeFailedCheck(check.(resourceName := Missing)).networkContext.Some?
    ensures agent.AnalyzeFailedCheck(check.(resourceName := Null)).networkContext.None?
  {
    assert GetOrEmpty(check.(resourceName := Missing).resourceName) == Some("");
    assert GetOrEmpty(check.(resourceName := Null).resourceName) == None;
  }

  /** Before any file is analysed, no finding gets network context and the rendered lists are empty. */
  lemma EmptyProjectNeverMatches(agent: CheckovReportAgent, check: Finding)
    requires agent.Valid() && agent.projectContext.Snapshot() == EMPTY
    ensures agent.AnalyzeFailedCheck(check).networkContext.None?
    ensures agent.GetProjectContext() == ProjectContextText("", "", map[])
  {
  }

  /**
   * Every finding is rendered with the same project context: the cached summary of
   * the context's current state.
   */
  lemma EveryFindingSharesTheSnapshot(agent: CheckovReportAgent, check: Finding, other: Finding)
    requires agent.Valid()
    ensures agent.AnalyzeFailedCheck(check).projectContext == agent.AnalyzeFailedCheck(other).projectContext
    ensures agent.AnalyzeFailedCheck(check).projectContext == RenderProjectContext(Summarize(agent.projectContext.Snapshot()))
  {
  }

  /**
   * The providers line lists every provider of the summary, in list order, each
   * followed by ", " when another comes after it.
   */
  lemma ProvidersLineListsProvider(summary: ProjectSummary, i: nat)
    requires i < |summary.providers|
    ensures var line := RenderProjectContext(summary).providers;
            var at := PartOffset(summary.providers, ", ", i);
            && at + |summary.providers[i]| <= |line|
            && line[at..at + |summary.providers[i]|] == summary.providers[i]
            && (i + 1 < |summary.providers| ==>
                  && PartOffset(summary.providers, ", ", i + 1) <= |line|
                  && line[at + |summary.providers[i]|..PartOffset(summary.providers, ", ", i + 1)] == ", ")
  {
    JoinPlacesPart(summary.providers, ", ", i);
    if i + 1 < |summary.providers| {
      JoinSeparatesParts(summary.providers, ", ", i);
    }
  }

  // ---------------------------------------------------------------------------
  // The summary of failed checks
  // ---------------------------------------------------------------------------

  /** `report_data.get("results", {}).get("failed_checks", [])`. */
  function FailedChecks(report: Report): seq<Finding>
  {
    if report.results.Some? && report.results.value.failedChecks.Some? then report.results.value.failedChecks.value
    else []
  }

  function ResourceColumn(checks: seq<Finding>): seq<Option<string>>
  {
    seq(|checks|, i requires 0 <= i < |checks| => checks[i].resource)
  }

  function FilePathColumn(checks: seq<Finding>): seq<Option<string>>
  {
    seq(|checks|, i requires 0 <= i < |checks| => checks[i].filePath)
  }

  /** A column holds exactly the values its checks carry. */
  lemma ColumnsHoldTheirChecks(checks: seq<Finding>)
    ensures forall v :: v in ResourceColumn(checks) <==> exists c :: c in checks && c.resource == v
    ensures forall v :: v in FilePathColumn(checks) <==> exists c :: c in checks && c.filePath == v
  {
    forall v ensures v in ResourceColumn(checks) <==> exists c :: c in checks && c.resource == v {
      if exists c :: c in checks && c.resource == v {
        var c :| c in checks && c.resource == v;
        var i :| 0 <= i < |checks| && checks[i] == c;
        assert ResourceColumn(checks)[i] == v;
      }
    }
    forall v ensures v in FilePathColumn(checks) <==> exists c :: c in checks && c.filePath == v {
      if exists c :: c in checks && c.filePath == v {
        var c :| c in checks && c.filePath == v;
        var i :| 0 <= i < |checks| && checks[i] == c;
        assert FilePathColumn(checks)[i] == v;
      }
    }
  }

  /** The distinct present values of a column. */
  function Distinct(column: seq<Option<string>>): (values: set<string>)
    ensures forall x :: x in values <==> Some(x) in column
  {
    set v | v in column && v.Some? :: v.value
  }

  lemma {:induction false} DistinctBound(column: seq<Option<string>>)
    ensures |Distinct(column)| <= |column|
    decreases |column|
  {
    if column != [] {
      var pre := column[..|column| - 1];
      var last := column[|column| - 1];
      DistinctBound(pre);
      assert column == pre + [last];
      if last.Some? {
        assert Distinct(column) == Distinct(pre) + {last.value};
      } else {
        assert Distinct(column) == Distinct(pre);
      }
    }
  }

  datatype FailedChecksSummary = FailedChecksSummary(
    totalFailed: nat,
    affectedResources: set<string>,
    affectedFiles: set<string>)

  /** Joining a set that holds `None` raises: the resource set is joined first. */
  datatype SummaryError = ResourceMissing | FilePathMissing

  /**
   * `_get_summary`: the number of failed checks and the distinct resources and file
   * paths they name; a check without `resource` or `file_path` makes the join raise.
   */
  function GetSummary(report: Report): (r: Result<FailedChecksSummary, SummaryError>)
    ensures r.Success? <==>
              forall c :: c in FailedChecks(report) ==> c.resource.Some? && c.filePath.Some?
    ensures r == Failure(ResourceMissing) <==> exists c :: c in FailedChecks(report) && c.resource.None?
    ensures r.Success? ==> r.value.totalFailed == |FailedChecks(report)|
    ensures r.Success? ==> forall x :: x in r.value.affectedResources <==>
                                       exists c :: c in FailedChecks(report) && c.resource == Some(x)
    ensures r.Success? ==> forall x :: x in r.value.affectedFiles <==>
                                       exists c :: c in FailedChecks(report) && c.filePath == Some(x)
  {
    var failedChecks := FailedChecks(report);
    ColumnsHoldTheirChecks(failedChecks);
    var affectedResources := ResourceColumn(failedChecks);
    var affectedFiles := FilePathColumn(failedChecks);
    if None in affectedResources then Failure(ResourceMissing)
    else if None in affectedFiles then Failure(FilePathMissing)
    else Success(FailedChecksSummary(|failedChecks|, Distinct(affectedResources), Distinct(affectedFiles)))
  }

  /** There are never more distinct resources or files than failed checks. */
  lemma SummaryBounds(report: Report)
    requires GetSummary(report).Success?
    ensures |GetSummary(report).value.affectedResources| <= GetSummary(report).value.totalFailed
    ensures |GetSummary(report).value.affectedFiles| <= GetSummary(report).value.totalFailed
  {
    DistinctBound(ResourceColumn(FailedChecks(report)));
    DistinctBound(FilePathColumn(FailedChecks(report)));
  }

  /** A report without `results` or without `failed_checks` has no failed checks. */
  lemma MissingResultsMeansNothingFailed(report: Report)
    requires report.results.None? || report.results.value.failedChecks.None?
    ensures GetSummary(report) == Success(FailedChecksSummary(0, {}, {}))
  {
    assert FailedChecks(report) == [];
    assert Distinct(ResourceColumn([])) == {};
    assert Distinct(FilePathColumn([])) == {};
  }
}
