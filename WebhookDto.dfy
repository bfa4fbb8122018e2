/** The server-side analysis value a webhook payload is built from (the
    org.sonar.server.webhook ProjectAnalysis, CeTask, Project and Branch classes, whose shapes are
    those of the constructor calls in WebhookPostTask.java and IssueChangeWebhookImpl.java), and
    a request to the WebHooks service: what a trigger passes to sendProjectAnalysisUpdate. */
module WebhookDto {
  import opened Wrappers
  import QualityGate
  import PostTaskApi
  import opened WebHooks

  datatype CeTaskStatus = SUCCESS | FAILED {
    function Name(): string {
      match this
      case SUCCESS => "SUCCESS"
      case FAILED => "FAILED"
    }
  }

  function CeTaskStatusValueOf(name: string): (r: Option<CeTaskStatus>)
    ensures r.Some? ==> r.value.Name() == name
    ensures r.None? ==> forall s: CeTaskStatus :: s.Name() != name
  {
    if name == "SUCCESS" then Some(SUCCESS)
    else if name == "FAILED" then Some(FAILED)
    else None
  }

  datatype CeTask = CeTask(id: string, status: CeTaskStatus)

  datatype Project = Project(uuid: string, key: string, name: string)

  datatype BranchType = LONG | SHORT {
    function Name(): string {
      match this
      case LONG => "LONG"
      case SHORT => "SHORT"
    }
  }

  function BranchTypeValueOf(name: string): (r: Option<BranchType>)
    ensures r.Some? ==> r.value.Name() == name
    ensures r.None? ==> forall t: BranchType :: t.Name() != name
  {
    if name == "LONG" then Some(LONG)
    else if name == "SHORT" then Some(SHORT)
    else None
  }

  datatype Branch = Branch(isMain: bool, name: Option<string>, branchType: BranchType)

  datatype ProjectAnalysis = ProjectAnalysis(
    ceTask: CeTask,
    project: Project,
    branch: Option<Branch>,
    qualityGate: Option<QualityGate.QualityGate>,
    analysisDate: Option<int>,
    properties: seq<PostTaskApi.ScannerProperty>)

  /** One call of sendProjectAnalysisUpdate(configuration, analysis, supplier), the supplier
      being `() -> payloadFactory.create(payloadInput)`: the payload is only built from
      `payloadInput` if and when the WebHooks service invokes the supplier. An Err input is the
      exception the supplier throws when invoked, before the factory is reached. */
  datatype SendRequest = SendRequest(config: Configuration, analysis: Analysis, payloadInput: Result<ProjectAnalysis>)
}
