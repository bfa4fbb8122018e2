/** The analysis handed to post-analysis tasks (the plugin API's
    PostProjectAnalysisTask.ProjectAnalysis, whose plain record implementation is
    sonar-plugin-api .../ce/posttask/ProjectAnalysis.java). It is what the payload builder reads
    and what the post-analysis executor builds. Nullable parts are Options. */
module PostTaskApi {
  import opened Wrappers

  datatype CeTaskStatus = SUCCESS | FAILED {
    function Name(): string {
      match this
      case SUCCESS => "SUCCESS"
      case FAILED => "FAILED"
    }
  }

  datatype CeTask = CeTask(id: string, status: CeTaskStatus)

  datatype Project = Project(uuid: string, key: string, name: string)

  datatype BranchType = LONG | SHORT {
    function Name(): string {
      match this
      case LONG => "LONG"
      case SHORT => "SHORT"
    }
  }

  datatype Branch = Branch(isMain: bool, name: Option<string>, branchType: BranchType)

  datatype GateStatus = OK | WARN | ERROR {
    function Name(): string {
      match this
      case OK => "OK"
      case WARN => "WARN"
      case ERROR => "ERROR"
    }
  }

  datatype EvaluationStatus = NO_VALUE | OK | WARN | ERROR {
    function Name(): string {
      match this
      case NO_VALUE => "NO_VALUE"
      case OK => "OK"
      case WARN => "WARN"
      case ERROR => "ERROR"
    }
  }

  datatype Operator = EQUALS | NOT_EQUALS | GREATER_THAN | LESS_THAN {
    function Name(): string {
      match this
      case EQUALS => "EQUALS"
      case NOT_EQUALS => "NOT_EQUALS"
      case GREATER_THAN => "GREATER_THAN"
      case LESS_THAN => "LESS_THAN"
    }
  }

  /** A gate condition. `value` is what getValue() returns; that getter throws for NO_VALUE, so
      readers look at it only for the other statuses. */
  datatype Condition = Condition(
    status: EvaluationStatus,
    metricKey: string,
    operator: Operator,
    errorThreshold: Option<string>,
    warningThreshold: Option<string>,
    onLeakPeriod: bool,
    value: string)

  /** The conditions in the iteration order of the gate's collection. */
  datatype QualityGate = QualityGate(id: string, name: string, status: GateStatus, conditions: seq<Condition>)

  /** getAnalysis(): the analysis uuid and date, present only when an analysis date was set. */
  datatype AnalysisInfo = AnalysisInfo(analysisUuid: string, date: int)

  /** One entry of the scanner context's property map; the map is its entries in iteration order. */
  datatype ScannerProperty = ScannerProperty(key: string, value: string)

  datatype ProjectAnalysis = ProjectAnalysis(
    ceTask: CeTask,
    project: Project,
    branch: Option<Branch>,
    qualityGate: Option<QualityGate>,
    date: int,
    analysis: Option<AnalysisInfo>,
    scannerProperties: seq<ScannerProperty>)
}
