/** Building the JSON payload of an analysis webhook
    (.../projectanalysis/webhook/WebhookPayloadFactoryImpl.java). The builder streams members into
    a JsonWriter; the functions below give the document each write step produces, and the
    methods are proved to produce exactly that document. The server's public root URL, the URL
    encoder and the clock are inputs. */
module WebhookPayloadFactory {
  import opened Wrappers
  import opened Json
  import opened PostTaskApi
  import WebHooks

  /** The prefix of the scanner properties a payload publishes (WebhookProperties). */
  const ANALYSIS_PROPERTY_PREFIX := "sonar.analysis."

  predicate StartsWith(s: string, prefix: string) {
    |prefix| <= |s| && s[..|prefix|] == prefix
  }

  // ---------------------------------------------------------------- URLs

  function ProjectUrlOf(root: string, encode: string -> string, project: Project): string {
    root + "/project/dashboard?id=" + encode(project.key)
  }

  /** A long-lived main branch links to the project dashboard, another long-lived branch to its
      dashboard, a short-lived branch to its open issues; a missing name is encoded as "". */
  function BranchUrlOf(root: string, encode: string -> string, project: Project, branch: Branch): string {
    if branch.branchType == LONG then
      if branch.isMain then ProjectUrlOf(root, encode, project)
      else root + "/project/dashboard?branch=" + encode(branch.name.GetOr("")) + "&id=" + encode(project.key)
    else
      root + "/project/issues?branch=" + encode(branch.name.GetOr("")) + "&id=" + encode(project.key) + "&resolved=false"
  }

  // ------------------------------------------- the document, part by part

  function ServerMembers(root: string): seq<Member> {
    [Member("serverUrl", JString(root))]
  }

  function TaskMembers(ceTask: CeTask): seq<Member> {
    [Member("taskId", JString(ceTask.id)), Member("status", JString(ceTask.status.Name()))]
  }

  function DateMembers(analysis: Option<AnalysisInfo>, now: int): seq<Member> {
    match analysis
    case Some(a) => [Member("analysedAt", JDateTime(a.date)), Member("changedAt", JDateTime(a.date))]
    case None => [Member("changedAt", JDateTime(now))]
  }

  function ProjectJson(root: string, encode: string -> string, project: Project): Json {
    JObject([Member("key", JString(project.key)),
             Member("name", JString(project.name)),
             Member("url", JString(ProjectUrlOf(root, encode, project)))])
  }

  function BranchJson(root: string, encode: string -> string, project: Project, branch: Branch): Json {
    JObject(NullableProp("name", branch.name) +
            [Member("type", JString(branch.branchType.Name())),
             Member("isMain", JBool(branch.isMain)),
             Member("url", JString(BranchUrlOf(root, encode, project, branch)))])
  }

  function BranchMembers(root: string, encode: string -> string, project: Project, branch: Option<Branch>): seq<Member> {
    match branch
    case Some(b) => [Member("branch", BranchJson(root, encode, project, b))]
    case None => []
  }

  /** One condition: the value is written only for an evaluated condition, null thresholds are skipped. */
  function ConditionMembers(c: Condition): seq<Member> {
    [Member("metric", JString(c.metricKey)), Member("operator", JString(c.operator.Name()))] +
    (if c.status != NO_VALUE then [Member("value", JString(c.value))] else []) +
    [Member("status", JString(c.status.Name())), Member("onLeakPeriod", JBool(c.onLeakPeriod))] +
    NullableProp("errorThreshold", c.errorThreshold) +
    NullableProp("warningThreshold", c.warningThreshold)
  }

  function ConditionsJson(conditions: seq<Condition>): seq<Json> {
    seq(|conditions|, i requires 0 <= i < |conditions| => JObject(ConditionMembers(conditions[i])))
  }

  function QualityGateJson(gate: QualityGate): Json {
    JObject([Member("name", JString(gate.name)),
             Member("status", JString(gate.status.Name())),
             Member("conditions", JArray(ConditionsJson(gate.conditions)))])
  }

  function QualityGateMembers(gate: Option<QualityGate>): seq<Member> {
    match gate
    case Some(g) => [Member("qualityGate", QualityGateJson(g))]
    case None => []
  }

  /** The scanner properties whose key has the analysis prefix, in iteration order. */
  function AnalysisProperties(properties: seq<ScannerProperty>): seq<Member> {
    if properties == [] then []
    else
      var last := properties[|properties| - 1];
      AnalysisProperties(properties[..|properties| - 1]) +
      (if StartsWith(last.key, ANALYSIS_PROPERTY_PREFIX) then [Member(last.key, JString(last.value))] else [])
  }

  function PayloadMembers(root: string, encode: string -> string, now: int, analysis: ProjectAnalysis): seq<Member> {
    ServerMembers(root) + TaskMembers(analysis.ceTask) + DateMembers(analysis.analysis, now) +
    [Member("project", ProjectJson(root, encode, analysis.project))] +
    BranchMembers(root, encode, analysis.project, analysis.branch) +
    QualityGateMembers(analysis.qualityGate) +
    [Member("properties", JObject(AnalysisProperties(analysis.scannerProperties)))]
  }

  /** The payload of an analysis: keyed by the project key, the document above as its body. */
  function PayloadOf(root: string, encode: string -> string, now: int, analysis: ProjectAnalysis): WebHooks.Payload {
    WebHooks.Payload(analysis.project.key, JObject(PayloadMembers(root, encode, now, analysis)))
  }

  // ------------------------------------------------------ the builder

  method WriteServer(writer: JsonWriter, root: string)
    modifies writer
    ensures writer.members == old(writer.members) + ServerMembers(root)
  {
    writer.Prop("serverUrl", JString(root));
  }

  method WriteTask(writer: JsonWriter, ceTask: CeTask)
    modifies writer
    ensures writer.members == old(writer.members) + TaskMembers(ceTask)
  {
    writer.Prop("taskId", JString(ceTask.id));
    writer.Prop("status", JString(ceTask.status.Name()));
  }

  method WriteDates(writer: JsonWriter, analysis: ProjectAnalysis, now: int)
    modifies writer
    ensures writer.members == old(writer.members) + DateMembers(analysis.analysis, now)
  {
    if analysis.analysis.Some? {
      writer.Prop("analysedAt", JDateTime(analysis.analysis.value.date));
    }
    if analysis.analysis.Some? {
      writer.Prop("changedAt", JDateTime(analysis.analysis.value.date));
    } else {
      writer.Prop("changedAt", JDateTime(now));
    }
  }

  /** The project's name is read from the analysis, its key from `project`: the same project. */
  method WriteProject(analysis: ProjectAnalysis, writer: JsonWriter, project: Project, root: string, encode: string -> string)
    requires project == analysis.project
    modifies writer
    ensures writer.members == old(writer.members) + [Member("project", ProjectJson(root, encode, project))]
  {
    var nested := new JsonWriter();
    nested.Prop("key", JString(project.key));
    nested.Prop("name", JString(analysis.project.name));
    nested.Prop("url", JString(ProjectUrlOf(root, encode, project)));
    assert nested.members == ProjectJson(root, encode, project).members;
    writer.Prop("project", JObject(nested.members));
  }

  method WriteBranch(writer: JsonWriter, project: Project, branch: Branch, root: string, encode: string -> string)
    modifies writer
    ensures writer.members == old(writer.members) + [Member("branch", BranchJson(root, encode, project, branch))]
  {
    var nested := new JsonWriter();
    nested.PropNullable("name", branch.name);
    nested.Prop("type", JString(branch.branchType.Name()));
    nested.Prop("isMain", JBool(branch.isMain));
    nested.Prop("url", JString(BranchUrlOf(root, encode, project, branch)));
    assert nested.members == BranchJson(root, encode, project, branch).members;
    writer.Prop("branch", JObject(nested.members));
  }

  method WriteCondition(writer: JsonWriter, condition: Condition)
    modifies writer
    ensures writer.members == old(writer.members) + ConditionMembers(condition)
  {
    ghost var head := [Member("metric", JString(condition.metricKey)), Member("operator", JString(condition.operator.Name()))];
    ghost var value := if condition.status != NO_VALUE then [Member("value", JString(condition.value))] else [];
    ghost var tail := [Member("status", JString(condition.status.Name())), Member("onLeakPeriod", JBool(condition.onLeakPeriod))];
    writer.Prop("metric", JString(condition.metricKey));
    writer.Prop("operator", JString(condition.operator.Name()));
    assert writer.members == old(writer.members) + head;
    if condition.status != NO_VALUE {
      writer.Prop("value", JString(condition.value));
    }
    assert writer.members == old(writer.members) + head + value;
    writer.Prop("status", JString(condition.status.Name()));
    writer.Prop("onLeakPeriod", JBool(condition.onLeakPeriod));
    assert writer.members == old(writer.members) + head + value + tail;
    writer.PropNullable("errorThreshold", condition.errorThreshold);
    writer.PropNullable("warningThreshold", condition.warningThreshold);
  }

  method WriteQualityGate(writer: JsonWriter, gate: Option<QualityGate>)
    modifies writer
    ensures writer.members == old(writer.members) + QualityGateMembers(gate)
  {
    if gate.Some? {
      var g := gate.value;
      var conditions: seq<Json> := [];
      var i := 0;
      while i < |g.conditions|
        invariant 0 <= i <= |g.conditions|
        invariant |conditions| == i
        invariant forall k :: 0 <= k < i ==> conditions[k] == JObject(ConditionMembers(g.conditions[k]))
        invariant writer.members == old(writer.members)
      {
        var nested := new JsonWriter();
        WriteCondition(nested, g.conditions[i]);
        conditions := conditions + [JObject(nested.members)];
        i := i + 1;
      }
      assert conditions == ConditionsJson(g.conditions);
      var nested := new JsonWriter();
      nested.Prop("name", JString(g.name));
      nested.Prop("status", JString(g.status.Name()));
      nested.Prop("conditions", JArray(conditions));
      assert nested.members == QualityGateJson(g).members;
      writer.Prop("qualityGate", JObject(nested.members));
    }
  }

  method WriteAnalysisProperties(writer: JsonWriter, properties: seq<ScannerProperty>)
    modifies writer
    ensures writer.members == old(writer.members) + [Member("properties", JObject(AnalysisProperties(properties)))]
  {
    var nested := new JsonWriter();
    var i := 0;
    while i < |properties|
      invariant 0 <= i <= |properties|
      invariant nested.members == AnalysisProperties(properties[..i])
      invariant writer.members == old(writer.members)
    {
      assert properties[..i + 1][..i] == properties[..i];
      if StartsWith(properties[i].key, ANALYSIS_PROPERTY_PREFIX) {
        nested.Prop(properties[i].key, JString(properties[i].value));
      }
      i := i + 1;
    }
    assert properties[..|properties|] == properties;
    writer.Prop("properties", JObject(nested.members));
  }

  /** create(analysis): the payload is exactly PayloadOf; its properties are proved below. */
  method Create(root: string, encode: string -> string, now: int, analysis: ProjectAnalysis) returns (payload: WebHooks.Payload)
    ensures payload == PayloadOf(root, encode, now, analysis)
  {
    var writer := new JsonWriter();
    WriteServer(writer, root);
    WriteTask(writer, analysis.ceTask);
    WriteDates(writer, analysis, now);
    WriteProject(analysis, writer, analysis.project, root, encode);
    if analysis.branch.Some? {
      WriteBranch(writer, analysis.project, analysis.branch.value, root, encode);
    }
    assert writer.members == ServerMembers(root) + TaskMembers(analysis.ceTask) + DateMembers(analysis.analysis, now) +
                             [Member("project", ProjectJson(root, encode, analysis.project))] +
                             BranchMembers(root, encode, analysis.project, analysis.branch);
    WriteQualityGate(writer, analysis.qualityGate);
    WriteAnalysisProperties(writer, analysis.scannerProperties);
    payload := WebHooks.Payload(analysis.project.key, JObject(writer.members));
  }

  // ------------------------------------------------------- properties

  /** Looking a key up in a document written part after part finds it in the first part that has it. */
  lemma LookupInParts(a: seq<Member>, d: seq<Member>, p: seq<Member>, b: seq<Member>, q: seq<Member>, r: seq<Member>, key: string)
    ensures Lookup(a + d + p + b + q + r, key) ==
      if Lookup(a, key).Some? then Lookup(a, key)
      else if Lookup(d, key).Some? then Lookup(d, key)
      else if Lookup(p, key).Some? then Lookup(p, key)
      else if Lookup(b, key).Some? then Lookup(b, key)
      else if Lookup(q, key).Some? then Lookup(q, key)
      else Lookup(r, key)
  {
    LookupAppend(a + d + p + b + q, r, key);
    LookupAppend(a + d + p + b, q, key);
    LookupAppend(a + d + p, b, key);
    LookupAppend(a + d, p, key);
    LookupAppend(a, d, key);
  }

  /** The top-level keys, in write order: always serverUrl, taskId, status, changedAt, project
      and properties; analysedAt exactly when an analysis is present, branch exactly when a
      branch is, qualityGate exactly when a gate is. */
  lemma PayloadKeys(root: string, encode: string -> string, now: int, analysis: ProjectAnalysis)
    ensures Keys(PayloadMembers(root, encode, now, analysis)) ==
              ["serverUrl", "taskId", "status"] +
              (if analysis.analysis.Some? then ["analysedAt"] else []) +
              ["changedAt"] +
              ["project"] +
              (if analysis.branch.Some? then ["branch"] else []) +
              (if analysis.qualityGate.Some? then ["qualityGate"] else []) +
              ["properties"]
  {
    var a := ServerMembers(root) + TaskMembers(analysis.ceTask);
    var d := DateMembers(analysis.analysis, now);
    var p := [Member("project", ProjectJson(root, encode, analysis.project))];
    var b := BranchMembers(root, encode, analysis.project, analysis.branch);
    var q := QualityGateMembers(analysis.qualityGate);
    var r := [Member("properties", JObject(AnalysisProperties(analysis.scannerProperties)))];
    KeysOfParts(a, d, p, b, q, r);
    PartKeys(root, encode, now, analysis);
  }

  /** The keys of each part of the payload. */
  lemma PartKeys(root: string, encode: string -> string, now: int, analysis: ProjectAnalysis)
    ensures Keys(ServerMembers(root) + TaskMembers(analysis.ceTask)) == ["serverUrl", "taskId", "status"]
    ensures Keys(DateMembers(analysis.analysis, now)) == (if analysis.analysis.Some? then ["analysedAt"] else []) + ["changedAt"]
    ensures Keys([Member("project", ProjectJson(root, encode, analysis.project))]) == ["project"]
    ensures Keys(BranchMembers(root, encode, analysis.project, analysis.branch)) == (if analysis.branch.Some? then ["branch"] else [])
    ensures Keys(QualityGateMembers(analysis.qualityGate)) == (if analysis.qualityGate.Some? then ["qualityGate"] else [])
    ensures Keys([Member("properties", JObject(AnalysisProperties(analysis.scannerProperties)))]) == ["properties"]
  {
  }

  /** The keys of the payload's parts, in order. */
  lemma KeysOfParts(a: seq<Member>, d: seq<Member>, p: seq<Member>, b: seq<Member>, q: seq<Member>, r: seq<Member>)
    ensures Keys(a + d + p + b + q + r) == Keys(a) + Keys(d) + Keys(p) + Keys(b) + Keys(q) + Keys(r)
  {
    KeysAppend(a + d + p + b + q, r);
    KeysAppend(a + d + p + b, q);
    KeysAppend(a + d + p, b);
    KeysAppend(a + d, p);
    KeysAppend(a, d);
  }

  /** The server, task and project members always present, and the payload's project key. */
  lemma PayloadServerAndTask(root: string, encode: string -> string, now: int, analysis: ProjectAnalysis)
    ensures PayloadOf(root, encode, now, analysis).projectKey == analysis.project.key
    ensures var ms := PayloadMembers(root, encode, now, analysis);
      Lookup(ms, "serverUrl") == Some(JString(root)) &&
      Lookup(ms, "taskId") == Some(JString(analysis.ceTask.id)) &&
      Lookup(ms, "status") == Some(JString(analysis.ceTask.status.Name()))
  {
    var a := ServerMembers(root) + TaskMembers(analysis.ceTask);
    var d := DateMembers(analysis.analysis, now);
    var p := [Member("project", ProjectJson(root, encode, analysis.project))];
    var b := BranchMembers(root, encode, analysis.project, analysis.branch);
    var q := QualityGateMembers(analysis.qualityGate);
    var r := [Member("properties", JObject(AnalysisProperties(analysis.scannerProperties)))];
    var t := TaskMembers(analysis.ceTask);
    LookupAppend(ServerMembers(root), t, "taskId");
    LookupAppend(ServerMembers(root), t, "status");
    assert t[1..] == [Member("status", JString(analysis.ceTask.status.Name()))];
    LookupInParts(a, d, p, b, q, r, "serverUrl");
    LookupInParts(a, d, p, b, q, r, "taskId");
    LookupInParts(a, d, p, b, q, r, "status");
  }

  /** The project object and the analysis properties object are always present. */
  lemma PayloadProjectAndProperties(root: string, encode: string -> string, now: int, analysis: ProjectAnalysis)
    ensures var ms := PayloadMembers(root, encode, now, analysis);
      Lookup(ms, "project") == Some(ProjectJson(root, encode, analysis.project)) &&
      Lookup(ms, "properties") == Some(JObject(AnalysisProperties(analysis.scannerProperties)))
  {
    var a := ServerMembers(root) + TaskMembers(analysis.ceTask);
    var d := DateMembers(analysis.analysis, now);
    var p := [Member("project", ProjectJson(root, encode, analysis.project))];
    var b := BranchMembers(root, encode, analysis.project, analysis.branch);
    var q := QualityGateMembers(analysis.qualityGate);
    var r := [Member("properties", JObject(AnalysisProperties(analysis.scannerProperties)))];
    LookupInParts(a, d, p, b, q, r, "project");
    LookupInParts(a, d, p, b, q, r, "properties");
  }

  /** The dates: analysedAt is the analysis date when there is an analysis and absent otherwise;
      changedAt is the analysis date, or the current time when there is no analysis. */
  lemma PayloadDates(root: string, encode: string -> string, now: int, analysis: ProjectAnalysis)
    ensures var ms := PayloadMembers(root, encode, now, analysis);
      Lookup(ms, "analysedAt") == (if analysis.analysis.Some? then Some(JDateTime(analysis.analysis.value.date)) else None) &&
      Lookup(ms, "changedAt") == Some(JDateTime(if analysis.analysis.Some? then analysis.analysis.value.date else now))
  {
    var a := ServerMembers(root) + TaskMembers(analysis.ceTask);
    var d := DateMembers(analysis.analysis, now);
    var p := [Member("project", ProjectJson(root, encode, analysis.project))];
    var b := BranchMembers(root, encode, analysis.project, analysis.branch);
    var q := QualityGateMembers(analysis.qualityGate);
    var r := [Member("properties", JObject(AnalysisProperties(analysis.scannerProperties)))];
    LookupInParts(a, d, p, b, q, r, "analysedAt");
    LookupInParts(a, d, p, b, q, r, "changedAt");
  }

  /** The branch object is present exactly when the analysis has a branch, and the quality gate
      object exactly when it has a gate, with one object per condition in the gate's order. */
  lemma PayloadBranchAndGate(root: string, encode: string -> string, now: int, analysis: ProjectAnalysis)
    ensures var ms := PayloadMembers(root, encode, now, analysis);
      Lookup(ms, "branch") == (if analysis.branch.Some? then Some(BranchJson(root, encode, analysis.project, analysis.branch.value)) else None) &&
      Lookup(ms, "qualityGate") == (if analysis.qualityGate.Some? then Some(QualityGateJson(analysis.qualityGate.value)) else None)
    ensures analysis.qualityGate.Some? ==>
      var items := ConditionsJson(analysis.qualityGate.value.conditions);
      |items| == |analysis.qualityGate.value.conditions| &&
      forall i :: 0 <= i < |items| ==> items[i] == JObject(ConditionMembers(analysis.qualityGate.value.conditions[i]))
  {
    PayloadLookup(root, encode, now, analysis, "branch");
    PayloadLookup(root, encode, now, analysis, "qualityGate");
  }

  /** A member of the payload is found in the part of the payload that holds it. */
  lemma PayloadLookup(root: string, encode: string -> string, now: int, analysis: ProjectAnalysis, key: string)
    requires key == "branch" || key == "qualityGate"
    ensures key == "branch" ==>
              Lookup(PayloadMembers(root, encode, now, analysis), key) ==
              Lookup(BranchMembers(root, encode, analysis.project, analysis.branch), key)
    ensures key == "qualityGate" ==>
              Lookup(PayloadMembers(root, encode, now, analysis), key) ==
              Lookup(QualityGateMembers(analysis.qualityGate), key)
  {
    var a := ServerMembers(root) + TaskMembers(analysis.ceTask);
    var d := DateMembers(analysis.analysis, now);
    var p := [Member("project", ProjectJson(root, encode, analysis.project))];
    var b := BranchMembers(root, encode, analysis.project, analysis.branch);
    var q := QualityGateMembers(analysis.qualityGate);
    var r := [Member("properties", JObject(AnalysisProperties(analysis.scannerProperties)))];
    LookupInParts(a, d, p, b, q, r, key);
  }

  /** A condition carries a value exactly when it was evaluated (status other than NO_VALUE), and
      each threshold exactly when it is set. */
  lemma ConditionValueOnlyWhenEvaluated(c: Condition)
    ensures Lookup(ConditionMembers(c), "value") == (if c.status != NO_VALUE then Some(JString(c.value)) else None)
    ensures Lookup(ConditionMembers(c), "status") == Some(JString(c.status.Name()))
    ensures Lookup(ConditionMembers(c), "errorThreshold") == (if c.errorThreshold.Some? then Some(JString(c.errorThreshold.value)) else None)
    ensures Lookup(ConditionMembers(c), "warningThreshold") == (if c.warningThreshold.Some? then Some(JString(c.warningThreshold.value)) else None)
  {
    var head := [Member("metric", JString(c.metricKey)), Member("operator", JString(c.operator.Name()))];
    var value := if c.status != NO_VALUE then [Member("value", JString(c.value))] else [];
    var tail := [Member("status", JString(c.status.Name())), Member("onLeakPeriod", JBool(c.onLeakPeriod))];
    var e := NullableProp("errorThreshold", c.errorThreshold);
    var w := NullableProp("warningThreshold", c.warningThreshold);
    LookupInParts(head, value, tail, e, w, [], "value");
    LookupInParts(head, value, tail, e, w, [], "status");
    LookupInParts(head, value, tail, e, w, [], "errorThreshold");
    LookupInParts(head, value, tail, e, w, [], "warningThreshold");
    assert ConditionMembers(c) == head + value + tail + e + w + [];
  }

  lemma {:induction false} AnalysisPropertiesSpec(properties: seq<ScannerProperty>)
    ensures |AnalysisProperties(properties)| <= |properties|
    ensures forall m :: m in AnalysisProperties(properties) <==>
      exists i :: 0 <= i < |properties| && StartsWith(properties[i].key, ANALYSIS_PROPERTY_PREFIX) &&
                  m == Member(properties[i].key, JString(properties[i].value))
  {
    if properties != [] {
      var init := properties[..|properties| - 1];
      var last := properties[|properties| - 1];
      AnalysisPropertiesSpec(init);
      forall m | m in AnalysisProperties(properties)
        ensures exists i :: 0 <= i < |properties| && StartsWith(properties[i].key, ANALYSIS_PROPERTY_PREFIX) &&
                            m == Member(properties[i].key, JString(properties[i].value))
      {
        if m in AnalysisProperties(init) {
          var i :| 0 <= i < |init| && StartsWith(init[i].key, ANALYSIS_PROPERTY_PREFIX) &&
                   m == Member(init[i].key, JString(init[i].value));
          assert properties[i] == init[i];
        } else {
          assert properties[|properties| - 1] == last;
        }
      }
      forall m | exists i :: 0 <= i < |properties| && StartsWith(properties[i].key, ANALYSIS_PROPERTY_PREFIX) &&
                             m == Member(properties[i].key, JString(properties[i].value))
        ensures m in AnalysisProperties(properties)
      {
        var i :| 0 <= i < |properties| && StartsWith(properties[i].key, ANALYSIS_PROPERTY_PREFIX) &&
                 m == Member(properties[i].key, JString(properties[i].value));
        if i < |init| {
          assert init[i] == properties[i];
        }
      }
    }
  }

  /** A main long-lived branch links to its project's dashboard; every link lies under the
      server's "/project/" pages; a short-lived branch's link shows unresolved issues and never
      coincides with a long-lived branch's link. */
  lemma BranchUrlProperties(root: string, encode: string -> string, project: Project, branch: Branch, other: Branch)
    ensures branch.branchType == LONG && branch.isMain ==> BranchUrlOf(root, encode, project, branch) == ProjectUrlOf(root, encode, project)
    ensures StartsWith(BranchUrlOf(root, encode, project, branch), root + "/project/")
    ensures branch.branchType == SHORT && other.branchType == LONG ==>
              BranchUrlOf(root, encode, project, branch) != BranchUrlOf(root, encode, project, other)
  {
    var url := BranchUrlOf(root, encode, project, branch);
    var prefix := root + "/project/";
    assert url[..|prefix|] == prefix;
    if branch.branchType == SHORT && other.branchType == LONG {
      var o := BranchUrlOf(root, encode, project, other);
      assert url[|prefix|] == 'i';
      assert o[|prefix|] == 'd';
    }
  }
}
