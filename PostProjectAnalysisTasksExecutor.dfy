/** Running the post-analysis tasks at the end of a Compute Engine analysis
    (.../api/posttask/PostProjectAnalysisTasksExecutor.java): the executor builds one plugin-API
    ProjectAnalysis from the queue task, the analysis metadata, the quality gate holders, the
    scanner context read from the report and the clock, and hands it to every registered task in
    turn. The collaborators are values; a task is a function from the analysis to what its
    `finished` did (completed, or threw). */
module PostProjectAnalysisTasksExecutor {
  import opened Wrappers
  import opened PostTaskApi

  /** The Compute Engine queue task being processed. */
  datatype CeQueueTask = CeQueueTask(uuid: string, componentUuid: string, componentKey: string, componentName: string)

  datatype MetadataBranchType = LONG | SHORT {
    function Name(): string {
      match this
      case LONG => "LONG"
      case SHORT => "SHORT"
    }
  }

  datatype MetadataBranch = MetadataBranch(isMain: bool, name: string, branchType: MetadataBranchType, isLegacyFeature: bool)

  /** What the analysis metadata holder knows: the analysis uuid, the date if it was set, the branch if any. */
  datatype AnalysisMetadata = AnalysisMetadata(uuid: string, analysisDate: Option<int>, branch: Option<MetadataBranch>)

  /** The gate evaluated by the analysis, its conditions already converted one by one. */
  datatype HolderQualityGate = HolderQualityGate(id: int, name: string, conditions: seq<Condition>)

  datatype QualityGateStatus = OK | WARN | ERROR

  datatype Outcome = Completed | Threw(error: Error)

  /** A registered PostProjectAnalysisTask: its class name and what its `finished` does. */
  datatype Task = Task(name: string, finished: ProjectAnalysis -> Outcome)

  /** One call of a task's `finished`; an exception is caught and only logged. */
  datatype Execution = Execution(task: string, outcome: Outcome)

  datatype Executor = Executor(
    ceTask: CeQueueTask,
    metadata: AnalysisMetadata,
    qualityGate: Option<HolderQualityGate>,
    qualityGateStatus: QualityGateStatus,
    contextProperties: seq<ScannerProperty>,
    now: int,
    tasks: seq<Task>)

  // ------------------------------------------------------ String.valueOf(long)

  function Digit(d: int): char
    requires 0 <= d < 10
  {
    "0123456789"[d]
  }

  function NatToString(n: nat): (s: string)
    ensures |s| > 0 && forall i :: 0 <= i < |s| ==> '0' <= s[i] <= '9'
  {
    if n < 10 then [Digit(n)] else NatToString(n / 10) + [Digit(n % 10)]
  }

  function IntToString(n: int): (s: string)
    ensures |s| > 0
  {
    if n < 0 then "-" + NatToString(-n) else NatToString(n)
  }

  predicate AllDigits(s: string) {
    forall i :: 0 <= i < |s| ==> '0' <= s[i] <= '9'
  }

  /** An optional minus sign followed by digits. */
  predicate IsDecimal(s: string) {
    |s| > 0 && (if s[0] == '-' then AllDigits(s[1..]) else AllDigits(s))
  }

  function ParseNat(s: string): int
    requires AllDigits(s)
  {
    if s == [] then 0 else ParseNat(s[..|s| - 1]) * 10 + (s[|s| - 1] as int - '0' as int)
  }

  function ParseInt(s: string): int
    requires IsDecimal(s)
  {
    if s[0] == '-' then -ParseNat(s[1..]) else ParseNat(s)
  }

  lemma {:induction false} ParseNatToString(n: nat)
    ensures ParseNat(NatToString(n)) == n
  {
    if n >= 10 {
      var s := NatToString(n);
      assert s[..|s| - 1] == NatToString(n / 10);
      ParseNatToString(n / 10);
    }
  }

  /** The gate id is rendered in decimal, and can be read back: distinct ids give distinct strings. */
  lemma IntToStringRoundTrip(n: int)
    ensures IsDecimal(IntToString(n)) && ParseInt(IntToString(n)) == n
  {
    var s := IntToString(n);
    if n < 0 {
      var digits := NatToString(-n);
      assert s == "-" + digits;
      assert s[0] == '-' && s[1..] == digits;
      ParseNatToString(-n);
    } else {
      assert NatToString(n)[0] != '-';
      ParseNatToString(n);
    }
  }

  // ------------------------------------------------------ building the analysis

  /** The private ProjectAnalysis constructor: ceTask, project and scannerContext must not be null. */
  function NewProjectAnalysis(ceTask: Option<CeTask>, project: Option<Project>, analysis: Option<AnalysisInfo>, date: int,
                              scannerContext: Option<seq<ScannerProperty>>, qualityGate: Option<QualityGate>,
                              branch: Option<Branch>): (r: Result<ProjectAnalysis>)
    ensures r.Ok? <==> ceTask.Some? && project.Some? && scannerContext.Some?
    ensures r.Ok? ==> r.value == ProjectAnalysis(ceTask.value, project.value, branch, qualityGate, date, analysis, scannerContext.value)
    ensures ceTask.None? ==> r == Err(NullPointer("ceTask can not be null"))
    ensures ceTask.Some? && project.None? ==> r == Err(NullPointer("project can not be null"))
    ensures ceTask.Some? && project.Some? && scannerContext.None? ==> r == Err(NullPointer("scannerContext can not be null"))
  {
    if ceTask.None? then Err(NullPointer("ceTask can not be null"))
    else if project.None? then Err(NullPointer("project can not be null"))
    else if scannerContext.None? then Err(NullPointer("scannerContext can not be null"))
    else Ok(ProjectAnalysis(ceTask.value, project.value, branch, qualityGate, date, analysis, scannerContext.value))
  }

  /** convert(QualityGateStatus): OK, WARN and ERROR map to their namesakes, one to one. */
  function ConvertStatus(status: QualityGateStatus): (r: GateStatus)
    ensures status == QualityGateStatus.OK <==> r == GateStatus.OK
    ensures status == QualityGateStatus.WARN <==> r == GateStatus.WARN
    ensures status == QualityGateStatus.ERROR <==> r == GateStatus.ERROR
  {
    match status
    case OK => GateStatus.OK
    case WARN => GateStatus.WARN
    case ERROR => GateStatus.ERROR
  }

  /** createQualityGate(): present exactly when the holder has a gate; its id is the decimal
      rendering of the holder's id and its status the converted status of the status holder. */
  function CreateQualityGate(e: Executor): (r: Option<QualityGate>)
    ensures r.Some? <==> e.qualityGate.Some?
    ensures r.Some? ==> r.value.name == e.qualityGate.value.name &&
                        IsDecimal(r.value.id) && ParseInt(r.value.id) == e.qualityGate.value.id &&
                        r.value.status == ConvertStatus(e.qualityGateStatus) &&
                        r.value.conditions == e.qualityGate.value.conditions
  {
    match e.qualityGate
    case None => None
    case Some(g) =>
      IntToStringRoundTrip(g.id);
      Some(QualityGate(IntToString(g.id), g.name, ConvertStatus(e.qualityGateStatus), g.conditions))
  }

  /** createBranch(): present exactly when the metadata has a branch that is not the legacy
      branch feature; the type is mapped by name. */
  function CreateBranch(metadata: AnalysisMetadata): (r: Option<Branch>)
    ensures r.Some? <==> metadata.branch.Some? && !metadata.branch.value.isLegacyFeature
    ensures r.Some? ==> r.value.isMain == metadata.branch.value.isMain &&
                        r.value.name == Some(metadata.branch.value.name) &&
                        r.value.branchType.Name() == metadata.branch.value.branchType.Name()
  {
    match metadata.branch
    case Some(b) =>
      if b.isLegacyFeature then None
      else Some(Branch(b.isMain, Some(b.name), match b.branchType { case LONG => BranchType.LONG case SHORT => BranchType.SHORT }))
    case None => None
  }

  /** createProjectAnalysis(status): the analysis information is present exactly when the
      analysis date was set; the date is that date, or the current time; the gate is present
      only for a successful task whose holder has a gate. */
  function CreateProjectAnalysis(e: Executor, status: CeTaskStatus): (r: ProjectAnalysis)
    ensures r.ceTask == CeTask(e.ceTask.uuid, status)
    ensures r.project == Project(e.ceTask.componentUuid, e.ceTask.componentKey, e.ceTask.componentName)
    ensures r.analysis.Some? <==> e.metadata.analysisDate.Some?
    ensures r.analysis.Some? ==> r.analysis.value == AnalysisInfo(e.metadata.uuid, e.metadata.analysisDate.value)
    ensures r.date == (if e.metadata.analysisDate.Some? then e.metadata.analysisDate.value else e.now)
    ensures r.qualityGate.Some? <==> status == SUCCESS && e.qualityGate.Some?
    ensures r.qualityGate.Some? ==> r.qualityGate == CreateQualityGate(e)
    ensures r.branch == CreateBranch(e.metadata)
    ensures r.scannerProperties == e.contextProperties
  {
    var analysisDate := e.metadata.analysisDate;
    var analysis := if analysisDate.Some? then Some(AnalysisInfo(e.metadata.uuid, analysisDate.value)) else None;
    var project := Project(e.ceTask.componentUuid, e.ceTask.componentKey, e.ceTask.componentName);
    NewProjectAnalysis(Some(CeTask(e.ceTask.uuid, status)), Some(project), analysis,
                       if analysisDate.None? then e.now else analysisDate.value,
                       Some(e.contextProperties),
                       if status == SUCCESS then CreateQualityGate(e) else None,
                       CreateBranch(e.metadata)).value
  }

  /** executeTask: a task's `finished` is called; whatever it throws is caught. */
  function ExecuteTask(analysis: ProjectAnalysis, task: Task): Execution {
    Execution(task.name, task.finished(analysis))
  }

  /** finished(allStepsExecuted): with no task registered nothing happens; otherwise one analysis
      is built, SUCCESS exactly when all steps ran, and every task is called once with it, in
      registration order, whatever the earlier ones did. */
  method Finished(e: Executor, allStepsExecuted: bool) returns (analysis: Option<ProjectAnalysis>, executions: seq<Execution>)
    ensures e.tasks == [] ==> analysis == None && executions == []
    ensures e.tasks != [] ==> analysis == Some(CreateProjectAnalysis(e, if allStepsExecuted then SUCCESS else FAILED))
    ensures analysis.Some? ==> (analysis.value.ceTask.status == SUCCESS <==> allStepsExecuted)
    ensures |executions| == |e.tasks|
    ensures forall i :: 0 <= i < |e.tasks| ==>
              executions[i] == Execution(e.tasks[i].name, e.tasks[i].finished(analysis.value))
  {
    if |e.tasks| == 0 {
      return None, [];
    }
    var projectAnalysis := CreateProjectAnalysis(e, if allStepsExecuted then SUCCESS else FAILED);
    analysis := Some(projectAnalysis);
    executions := [];
    var i := 0;
    while i < |e.tasks|
      invariant 0 <= i <= |e.tasks|
      invariant |executions| == i
      invariant forall k :: 0 <= k < i ==> executions[k] == Execution(e.tasks[k].name, e.tasks[k].finished(projectAnalysis))
    {
      executions := executions + [ExecuteTask(projectAnalysis, e.tasks[i])];
      i := i + 1;
    }
  }
}
