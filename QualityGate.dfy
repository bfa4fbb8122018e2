/** The quality gate value handed to webhooks (server/sonar-server .../webhook/QualityGate.java):
    an immutable gate with its conditions, null-checking constructors, field-wise equality,
    and the three enums, each of which can be looked up by name as Enum.valueOf does. */
module QualityGate {
  import opened Wrappers

  datatype Status = OK | WARN | ERROR {
    function Name(): string {
      match this
      case OK => "OK"
      case WARN => "WARN"
      case ERROR => "ERROR"
    }
  }

  /** Status.valueOf: the constant with that name, or IllegalArgumentException (None). */
  function StatusValueOf(name: string): (r: Option<Status>)
    ensures r.Some? ==> r.value.Name() == name
    ensures r.None? ==> forall s: Status :: s.Name() != name
  {
    if name == "OK" then Some(Status.OK)
    else if name == "WARN" then Some(Status.WARN)
    else if name == "ERROR" then Some(Status.ERROR)
    else None
  }

  datatype Operator = EQUALS | NOT_EQUALS | GREATER_THAN | LESS_THAN {
    function Name(): string {
      match this
      case EQUALS => "EQUALS"
      case NOT_EQUALS => "NOT_EQUALS"
      case GREATER_THAN => "GREATER_THAN"
      case LESS_THAN => "LESS_THAN"
    }
  }

  function OperatorValueOf(name: string): (r: Option<Operator>)
    ensures r.Some? ==> r.value.Name() == name
    ensures r.None? ==> forall o: Operator :: o.Name() != name
  {
    if name == "EQUALS" then Some(EQUALS)
    else if name == "NOT_EQUALS" then Some(NOT_EQUALS)
    else if name == "GREATER_THAN" then Some(GREATER_THAN)
    else if name == "LESS_THAN" then Some(LESS_THAN)
    else None
  }

  datatype EvaluationStatus = NO_VALUE | OK | WARN | ERROR {
    function Name(): string {
      match this
      case NO_VALUE => "NO_VALUE"
      case OK => "OK"
      case WARN => "WARN"
      case ERROR => "ERROR"
    }
  }

  function EvaluationStatusValueOf(name: string): (r: Option<EvaluationStatus>)
    ensures r.Some? ==> r.value.Name() == name
    ensures r.None? ==> forall s: EvaluationStatus :: s.Name() != name
  {
    if name == "NO_VALUE" then Some(NO_VALUE)
    else if name == "OK" then Some(EvaluationStatus.OK)
    else if name == "WARN" then Some(EvaluationStatus.WARN)
    else if name == "ERROR" then Some(EvaluationStatus.ERROR)
    else None
  }

  /** One evaluated condition. The thresholds and the value are nullable. */
  datatype Condition = Condition(
    status: EvaluationStatus,
    metricKey: string,
    operator: Operator,
    errorThreshold: Option<string>,
    warnThreshold: Option<string>,
    onLeakPeriod: bool,
    value: Option<string>)
  {
    /** getValue(): empty for NO_VALUE, otherwise Optional.of(value), which throws on a null value. */
    function GetValue(): (r: Result<Option<string>>)
      ensures r == Ok(None) <==> status == NO_VALUE
      ensures r.Err? <==> status != NO_VALUE && value.None?
      ensures status != NO_VALUE && value.Some? ==> r == Ok(Some(value.value))
    {
      if status == NO_VALUE then Ok(None)
      else if value.None? then Err(NullPointer(""))
      else Ok(Some(value.value))
    }

    /** The documented (not enforced) invariant: at least one threshold is set. */
    predicate HasThreshold() {
      errorThreshold.Some? || warnThreshold.Some?
    }

    /** equals(): all seven fields compared. */
    function Equals(that: Condition): (r: bool)
      ensures r <==> this == that
    {
      onLeakPeriod == that.onLeakPeriod &&
      status == that.status &&
      metricKey == that.metricKey &&
      operator == that.operator &&
      errorThreshold == that.errorThreshold &&
      warnThreshold == that.warnThreshold &&
      value == that.value
    }
  }

  /** The Condition constructor: status, metricKey and operator are checked for null, in that order. */
  function NewCondition(status: Option<EvaluationStatus>, metricKey: Option<string>, operator: Option<Operator>,
                        errorThreshold: Option<string>, warnThreshold: Option<string>,
                        onLeakPeriod: bool, value: Option<string>): (r: Result<Condition>)
    ensures r.Ok? <==> status.Some? && metricKey.Some? && operator.Some?
    ensures r.Ok? ==> r.value == Condition(status.value, metricKey.value, operator.value,
                                           errorThreshold, warnThreshold, onLeakPeriod, value)
    ensures status.None? ==> r == Err(NullPointer("status can't be null"))
    ensures status.Some? && metricKey.None? ==> r == Err(NullPointer("metricKey can't be null"))
    ensures status.Some? && metricKey.Some? && operator.None? ==> r == Err(NullPointer("operator can't be null"))
  {
    if status.None? then Err(NullPointer("status can't be null"))
    else if metricKey.None? then Err(NullPointer("metricKey can't be null"))
    else if operator.None? then Err(NullPointer("operator can't be null"))
    else Ok(Condition(status.value, metricKey.value, operator.value, errorThreshold, warnThreshold, onLeakPeriod, value))
  }

  /** The constructor accepts a condition with neither threshold: the invariant is documentation only. */
  lemma ThresholdInvariantNotEnforced()
    ensures exists c: Condition :: NewCondition(Some(EvaluationStatus.OK), Some(c.metricKey), Some(LESS_THAN), None, None, false, None) == Ok(c)
                        && !c.HasThreshold()
  {
    var c := Condition(EvaluationStatus.OK, "coverage", LESS_THAN, None, None, false, None);
    assert NewCondition(Some(EvaluationStatus.OK), Some(c.metricKey), Some(LESS_THAN), None, None, false, None) == Ok(c);
  }

  datatype QualityGate = QualityGate(id: string, name: string, status: Status, conditions: set<Condition>) {
    /** equals(): id, name, status and the set of conditions. */
    function Equals(that: QualityGate): (r: bool)
      ensures r <==> this == that
    {
      id == that.id && name == that.name && status == that.status && conditions == that.conditions
    }
  }

  /** The QualityGate constructor: id, name, status and conditions are checked for null, in that
      order; the conditions are kept as an immutable copy (here: the set value itself). */
  function NewQualityGate(id: Option<string>, name: Option<string>, status: Option<Status>,
                          conditions: Option<set<Condition>>): (r: Result<QualityGate>)
    ensures r.Ok? <==> id.Some? && name.Some? && status.Some? && conditions.Some?
    ensures r.Ok? ==> r.value == QualityGate(id.value, name.value, status.value, conditions.value)
    ensures id.None? ==> r == Err(NullPointer("id can't be null"))
    ensures id.Some? && name.None? ==> r == Err(NullPointer("name can't be null"))
    ensures id.Some? && name.Some? && status.None? ==> r == Err(NullPointer("status can't be null"))
    ensures id.Some? && name.Some? && status.Some? && conditions.None? ==> r == Err(NullPointer("conditions can't be null"))
  {
    if id.None? then Err(NullPointer("id can't be null"))
    else if name.None? then Err(NullPointer("name can't be null"))
    else if status.None? then Err(NullPointer("status can't be null"))
    else if conditions.None? then Err(NullPointer("conditions can't be null"))
    else Ok(QualityGate(id.value, name.value, status.value, conditions.value))
  }
}
