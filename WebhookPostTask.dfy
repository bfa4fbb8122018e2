/** The post-analysis task that triggers the analysis webhooks
    (.../projectanalysis/webhook/WebhookPostTask.java): it converts the plugin-API analysis into
    the server's webhook value, enum by enum name, and asks the WebHooks service for one dispatch
    whose payload is built lazily from that value.

    The configuration repository is an input. The analysis uuid of the dispatch is the one the
    Compute Engine activity record of the Compute Engine task holds (given as an input, absent when the record
    has none), and the Compute Engine task id is the Compute Engine task uuid: WebHooks.Analysis takes three
    arguments. */
module WebhookPostTask {
  import opened Wrappers
  import QG = QualityGate
  import Api = PostTaskApi
  import Dto = WebhookDto
  import opened WebHooks

  // Enum.valueOf(other.name()): every plugin-API constant has a namesake, so none of these throws.

  function ConvertCeTaskStatus(s: Api.CeTaskStatus): (r: Dto.CeTaskStatus)
    ensures r.Name() == s.Name()
  {
    match s
    case SUCCESS => Dto.CeTaskStatusValueOf(s.Name()).value
    case FAILED => Dto.CeTaskStatusValueOf(s.Name()).value
  }

  function ConvertBranchType(t: Api.BranchType): (r: Dto.BranchType)
    ensures r.Name() == t.Name()
  {
    match t
    case LONG => Dto.BranchTypeValueOf(t.Name()).value
    case SHORT => Dto.BranchTypeValueOf(t.Name()).value
  }

  function ConvertGateStatus(s: Api.GateStatus): (r: QG.Status)
    ensures r.Name() == s.Name()
  {
    match s
    case OK => QG.StatusValueOf(s.Name()).value
    case WARN => QG.StatusValueOf(s.Name()).value
    case ERROR => QG.StatusValueOf(s.Name()).value
  }

  function ConvertEvaluationStatus(s: Api.EvaluationStatus): (r: QG.EvaluationStatus)
    ensures r.Name() == s.Name()
  {
    match s
    case NO_VALUE => QG.EvaluationStatusValueOf(s.Name()).value
    case OK => QG.EvaluationStatusValueOf(s.Name()).value
    case WARN => QG.EvaluationStatusValueOf(s.Name()).value
    case ERROR => QG.EvaluationStatusValueOf(s.Name()).value
  }

  function ConvertOperator(o: Api.Operator): (r: QG.Operator)
    ensures r.Name() == o.Name()
  {
    match o
    case EQUALS => QG.OperatorValueOf(o.Name()).value
    case NOT_EQUALS => QG.OperatorValueOf(o.Name()).value
    case GREATER_THAN => QG.OperatorValueOf(o.Name()).value
    case LESS_THAN => QG.OperatorValueOf(o.Name()).value
  }

  /** A condition keeps its metric, thresholds and period flag; its value is dropped (null) when
      the condition was not evaluated and copied otherwise. */
  function ConvertCondition(c: Api.Condition): (r: QG.Condition)
    ensures r.status.Name() == c.status.Name() && r.operator.Name() == c.operator.Name()
    ensures r.metricKey == c.metricKey && r.onLeakPeriod == c.onLeakPeriod
    ensures r.errorThreshold == c.errorThreshold && r.warnThreshold == c.warningThreshold
    ensures r.value == (if c.status == Api.NO_VALUE then None else Some(c.value))
  {
    QG.NewCondition(Some(ConvertEvaluationStatus(c.status)), Some(c.metricKey), Some(ConvertOperator(c.operator)),
                    c.errorThreshold, c.warningThreshold, c.onLeakPeriod,
                    if c.status == Api.NO_VALUE then None else Some(c.value)).value
  }

  /** The gate keeps its id and name; its conditions are collected into a set, so conditions that
      convert alike are kept once. */
  function ConvertQualityGate(g: Api.QualityGate): (r: QG.QualityGate)
    ensures r.id == g.id && r.name == g.name && r.status.Name() == g.status.Name()
    ensures forall c :: c in g.conditions ==> ConvertCondition(c) in r.conditions
    ensures forall d :: d in r.conditions ==> exists c :: c in g.conditions && d == ConvertCondition(c)
  {
    QG.NewQualityGate(Some(g.id), Some(g.name), Some(ConvertGateStatus(g.status)),
                      Some(set c | c in g.conditions :: ConvertCondition(c))).value
  }

  function ConvertBranch(b: Api.Branch): (r: Dto.Branch)
    ensures r.isMain == b.isMain && r.name == b.name && r.branchType.Name() == b.branchType.Name()
  {
    Dto.Branch(b.isMain, b.name, ConvertBranchType(b.branchType))
  }

  /** convert(analysis): the branch and the gate are converted when present and stay absent
      otherwise, the date is the analysis's when there is one, and the scanner properties pass
      through unfiltered. */
  function Convert(analysis: Api.ProjectAnalysis): (r: Dto.ProjectAnalysis)
    ensures r.ceTask.id == analysis.ceTask.id && r.ceTask.status.Name() == analysis.ceTask.status.Name()
    ensures r.project == Dto.Project(analysis.project.uuid, analysis.project.key, analysis.project.name)
    ensures r.branch.Some? <==> analysis.branch.Some?
    ensures r.branch.Some? ==> r.branch.value == ConvertBranch(analysis.branch.value)
    ensures r.qualityGate.Some? <==> analysis.qualityGate.Some?
    ensures r.qualityGate.Some? ==> r.qualityGate.value == ConvertQualityGate(analysis.qualityGate.value)
    ensures r.analysisDate == (if analysis.analysis.Some? then Some(analysis.analysis.value.date) else None)
    ensures r.properties == analysis.scannerProperties
  {
    Dto.ProjectAnalysis(
      Dto.CeTask(analysis.ceTask.id, ConvertCeTaskStatus(analysis.ceTask.status)),
      Dto.Project(analysis.project.uuid, analysis.project.key, analysis.project.name),
      match analysis.branch { case Some(b) => Some(ConvertBranch(b)) case None => None },
      match analysis.qualityGate { case Some(g) => Some(ConvertQualityGate(g)) case None => None },
      match analysis.analysis { case Some(a) => Some(a.date) case None => None },
      analysis.scannerProperties)
  }

  /** finished(analysis): exactly one dispatch request, for the configuration, the project, the
      analysis of the Compute Engine task's activity record and the Compute Engine task itself; its payload is left to be built
      from the converted analysis. Without an analysis uuid the Analysis constructor throws. */
  function Finished(config: Configuration, analysis: Api.ProjectAnalysis, activityAnalysisUuid: Option<string>): (r: Result<Dto.SendRequest>)
    ensures r.Ok? <==> activityAnalysisUuid.Some?
    ensures r.Ok? ==> r.value.config == config &&
                      r.value.analysis == Analysis(analysis.project.uuid, Some(analysis.ceTask.id), activityAnalysisUuid.value) &&
                      r.value.payloadInput == Ok(Convert(analysis))
    ensures activityAnalysisUuid.None? ==> r == Err(NullPointer("analysisUuid can't be null"))
  {
    match NewAnalysis(Some(analysis.project.uuid), activityAnalysisUuid, Some(analysis.ceTask.id))
    case Ok(a) => Ok(Dto.SendRequest(config, a, Ok(Convert(analysis))))
    case Err(e) => Err(e)
  }

  /** Reading the value back from a converted condition never throws: it is empty exactly for a
      condition that was not evaluated and the original value otherwise. */
  lemma ConvertedConditionValue(c: Api.Condition)
    ensures ConvertCondition(c).GetValue() == Ok(if c.status == Api.NO_VALUE then None else Some(c.value))
    ensures ConvertCondition(c).GetValue() == Ok(None) <==> c.status == Api.NO_VALUE
  {
    var r := ConvertCondition(c);
    assert r.status == QG.NO_VALUE <==> c.status == Api.NO_VALUE by {
      match c.status
      case NO_VALUE =>
      case OK =>
      case WARN =>
      case ERROR =>
    }
  }

  /** The conversion is lossless on everything but the value of an unevaluated condition: two
      conditions convert alike exactly when they agree on all fields, values compared only when
      evaluated. */
  lemma ConvertConditionInjective(c: Api.Condition, d: Api.Condition)
    ensures ConvertCondition(c) == ConvertCondition(d) <==>
              c.status == d.status && c.metricKey == d.metricKey && c.operator == d.operator &&
              c.errorThreshold == d.errorThreshold && c.warningThreshold == d.warningThreshold &&
              c.onLeakPeriod == d.onLeakPeriod && (c.status != Api.NO_VALUE ==> c.value == d.value)
  {
    EvaluationStatusNamesDistinct(c.status, d.status);
    OperatorNamesDistinct(c.operator, d.operator);
  }

  lemma EvaluationStatusNamesDistinct(s: Api.EvaluationStatus, t: Api.EvaluationStatus)
    ensures s.Name() == t.Name() <==> s == t
  {
  }

  lemma OperatorNamesDistinct(o: Api.Operator, p: Api.Operator)
    ensures o.Name() == p.Name() <==> o == p
  {
  }

  /** A gate with no conditions converts to one with no conditions, and a gate's converted
      conditions are never more than its own. */
  lemma ConvertQualityGateSize(g: Api.QualityGate)
    ensures |ConvertQualityGate(g).conditions| <= |g.conditions|
    ensures g.conditions == [] ==> ConvertQualityGate(g).conditions == {}
  {
    ImageSize(g.conditions);
  }

  lemma {:induction false} ImageSize(cs: seq<Api.Condition>)
    ensures |set c | c in cs :: ConvertCondition(c)| <= |cs|
  {
    if cs != [] {
      var init := cs[..|cs| - 1];
      ImageSize(init);
      assert (set c | c in cs :: ConvertCondition(c)) ==
             (set c | c in init :: ConvertCondition(c)) + {ConvertCondition(cs[|cs| - 1])} by {
        assert forall c :: c in cs <==> c in init || c == cs[|cs| - 1] by {
          assert cs == init + [cs[|cs| - 1]];
        }
      }
    } else {
      assert (set c | c in cs :: ConvertCondition(c)) == {};
    }
  }
}
