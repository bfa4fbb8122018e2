# Webhook dispatch of the SonarQube server, modelled in Dafny

This project models how the SonarQube server notifies external HTTP endpoints (webhooks)
that a project analysis finished or that a user changed issues on a short-lived branch.

- **Post-analysis tasks** (`PostProjectAnalysisTasksExecutor`). At the end of a Compute Engine
  analysis, one plugin-API `ProjectAnalysis` is built from the queue task, the analysis metadata,
  the quality gate holders, the scanner context and the clock. It is handed to every registered
  task in turn; an exception thrown by a task is caught.
- **Analysis trigger** (`WebhookPostTask`). This task converts the plugin-API analysis into the
  server's webhook value, enum by enum name. It then asks the `WebHooks` service for one dispatch.
- **Issue-change trigger** (`IssueChangeWebhookImpl`). A type change or a meaningful transition,
  made by a user on a non-empty set of issues, leads to one dispatch per short-lived branch.
  Only branches whose component, last analysis and Compute Engine activity are all found count.
  A CANCELED activity has no namesake among the webhook task statuses: once a webhook is
  configured, its payload supplier throws, and the remaining branches are not visited.
- **Dispatcher** (`WebHooksImpl`). It loads at most ten global and ten project webhooks from the
  configuration, in that order. If there is any, it builds the payload once, calls and persists
  each webhook in order, and then purges the project's old deliveries.
- **Payload** (`WebhookPayloadFactoryImpl`). The JSON document is written member by member:
  server URL, task, dates, project, branch, quality gate, and the `sonar.analysis.` scanner
  properties.
- **Values** (`WebHooks.Analysis`, `QualityGate`). Both are immutable and checked for null.
  `Analysis` has field-wise equality and Java's hash code.
- **Branch-merge lookup cache** (`ShortBranchComponentsWithIssues`). For a long-lived branch, it
  maps each branch-stripped component key to the uuids of the short-branch components with
  issues to merge. It is loaded on the first lookup and never again.

## How the model is built

- Each core Java file becomes one module.
- Pure code becomes functions over datatypes.
- Code that changes state becomes a class with `modifies` clauses:
  - the dispatcher, whose trace records calls, persists and purges;
  - the JSON writer;
  - the lookup cache.
- Loops become methods with invariants. Each such method is proved equal to a specification
  function, and the lemmas state the properties of that function.
- Java `null` becomes `Option`.
- An exception becomes the `Err` side of a `Result`, carrying the exception's message
  (`requireNonNull`, `Enum.valueOf`, `uniqueIndex`).
- The database is a value. Its tables are sequences in storage order, and its DAO queries are
  filters over them.
- Some things come from outside and are inputs:
  - the HTTP caller, the URL encoder, the clock and the server root URL;
  - whether webhooks are enabled;
  - the analysis uuid of the Compute Engine activity.

**Where the code disagrees with itself.** `WebHooks.Analysis` declares a three-argument
constructor `(projectUuid, analysisUuid, ceTaskUuid)`, which rejects a null analysis uuid. Both
triggers call it with two arguments. The model follows the declared constructor:

- `WebhookPostTask.finished` passes the project uuid, the analysis uuid held by the Compute Engine task's
  activity record (an input; a missing one gives the constructor's `NullPointerException`), and
  the Compute Engine task id.
- `IssueChangeWebhookImpl` passes the branch's project uuid, the uuid of its last analysis, and
  the activity uuid as the Compute Engine task uuid.

The server-side payload factory that the triggers hand their value to is not part of this model.
Their requests therefore carry the value that factory would receive, or the exception its
supplier would throw.

## Model

| member | source | states |
|---|---|---|
| WebHooks.ToInt32 | server/sonar-server/src/main/java/org/sonar/server/webhook/WebHooks.java:71-74 | the result is a 32-bit int congruent to the argument modulo 2^32 (Java's int overflow in hashCode) |
| WebHooks.StringHashCode | server/sonar-server/src/main/java/org/sonar/server/webhook/WebHooks.java:71-74 | String.hashCode of a uuid stays within the 32-bit range |
| WebHooks.ArraysHashCode | server/sonar-server/src/main/java/org/sonar/server/webhook/WebHooks.java:71-74 | Objects.hashCode over the three nullable fields stays within the 32-bit range |
| WebHooks.Analysis.Equals | server/sonar-server/src/main/java/org/sonar/server/webhook/WebHooks.java:57-69 | two analyses are equal exactly when project, task and analysis uuids all agree |
| WebHooks.Analysis.HashCode | server/sonar-server/src/main/java/org/sonar/server/webhook/WebHooks.java:71-74 | the hash code is a 32-bit int |
| WebHooks.NewAnalysis | server/sonar-server/src/main/java/org/sonar/server/webhook/WebHooks.java:38-55 | construction succeeds exactly when projectUuid and analysisUuid are non-null; otherwise it fails with the first failing null check's message; the getters return the arguments and the Compute Engine task uuid may be null |
| WebHooks.EqualAnalysesHashEqually | server/sonar-server/src/main/java/org/sonar/server/webhook/WebHooks.java:57-74 | equal analyses have equal hash codes (the equals/hashCode contract) |
| WebHooks.NewAnalysisEquality | server/sonar-server/src/main/java/org/sonar/server/webhook/WebHooks.java:38-69 | two constructed analyses are equal exactly when their three arguments are |
| WebHooksImpl.WebhookProperties | server/sonar-server/src/main/java/org/sonar/server/webhook/WebHooksImpl.java:84-90 | one `<scope>.<id>` property per declared id, the first 10 only, in declaration order |
| WebHooksImpl.ResolveWebhook | server/sonar-server/src/main/java/org/sonar/server/webhook/WebHooksImpl.java:70-79 | a webhook exists exactly when both `.name` and `.url` are set, and it carries the analysis's three ids with that name and url |
| WebHooksImpl.ResolveAllAppend | server/sonar-server/src/main/java/org/sonar/server/webhook/WebHooksImpl.java:66-81 | resolving a concatenation of properties resolves each part, in order |
| WebHooksImpl.ResolveAllSpec | server/sonar-server/src/main/java/org/sonar/server/webhook/WebHooksImpl.java:70-81 | at most one webhook per property; a webhook is kept exactly when some property resolves to it (null results dropped); all carry the analysis ids |
| WebHooksImpl.LoadWebhooksOrderAndBounds | server/sonar-server/src/main/java/org/sonar/server/webhook/WebHooksImpl.java:66-90 | global webhooks come before project webhooks, each scope gives at most 10, and every webhook is bound to the analysis |
| WebHooksImpl.LoadWebhooksMembership | server/sonar-server/src/main/java/org/sonar/server/webhook/WebHooksImpl.java:66-90 | a webhook is loaded exactly when one of the first 10 ids of either scope has both a name and a url |
| WebHooksImpl.CallsAndPersistsAt | server/sonar-server/src/main/java/org/sonar/server/webhook/WebHooksImpl.java:58-62 | for each webhook in turn: a call with the payload, then its delivery persisted right after |
| WebHooksImpl.DispatchTraceShape | server/sonar-server/src/main/java/org/sonar/server/webhook/WebHooksImpl.java:51-64 | without webhooks nothing happens; otherwise the payload is built once and first, each webhook is called then persisted in order with that payload, and the project is purged once and last |
| WebHooksImpl.WebHooksImpl.constructor | server/sonar-server/src/main/java/org/sonar/server/webhook/WebHooksImpl.java:45-48 | the dispatcher starts with the given caller and an empty history |
| WebHooksImpl.WebHooksImpl.SendProjectAnalysisUpdate | server/sonar-server/src/main/java/org/sonar/server/webhook/WebHooksImpl.java:51-64 | the new history is the old one followed by exactly the dispatch trace of the loaded webhooks |
| QualityGate.StatusValueOf | server/sonar-server/src/main/java/org/sonar/server/webhook/QualityGate.java:103-110 | Status.valueOf: the constant with that name, and none when no constant has it |
| QualityGate.OperatorValueOf | server/sonar-server/src/main/java/org/sonar/server/webhook/QualityGate.java:248-250 | Operator.valueOf: the constant with that name, and none when no constant has it |
| QualityGate.EvaluationStatusValueOf | server/sonar-server/src/main/java/org/sonar/server/webhook/QualityGate.java:255-273 | EvaluationStatus.valueOf: the constant with that name, and none when no constant has it |
| QualityGate.Condition.GetValue | server/sonar-server/src/main/java/org/sonar/server/webhook/QualityGate.java:201-206 | empty exactly for NO_VALUE; a NullPointerException exactly for an evaluated condition without a value; the value otherwise |
| QualityGate.Condition.Equals | server/sonar-server/src/main/java/org/sonar/server/webhook/QualityGate.java:208-224 | two conditions are equal exactly when all seven fields agree |
| QualityGate.NewCondition | server/sonar-server/src/main/java/org/sonar/server/webhook/QualityGate.java:121-131 | succeeds exactly when status, metricKey and operator are non-null (checked in that order, with their messages); the thresholds and value are kept as given |
| QualityGate.ThresholdInvariantNotEnforced | server/sonar-server/src/main/java/org/sonar/server/webhook/QualityGate.java:160-181 | the documented "at least one threshold" guarantee is not enforced: the constructor accepts a condition with neither threshold |
| QualityGate.QualityGate.Equals | server/sonar-server/src/main/java/org/sonar/server/webhook/QualityGate.java:73-86 | two gates are equal exactly when id, name, status and condition set agree |
| QualityGate.NewQualityGate | server/sonar-server/src/main/java/org/sonar/server/webhook/QualityGate.java:38-43 | succeeds exactly when id, name, status and conditions are non-null (checked in that order, with their messages) |
| Json.NullableProp | server/sonar-server/src/main/java/org/sonar/server/computation/task/projectanalysis/webhook/WebhookPayloadFactoryImpl.java:160-161 | a nullable property gives at most one member, present exactly when the value is non-null |
| Json.JsonWriter.Prop | server/sonar-server/src/main/java/org/sonar/server/computation/task/projectanalysis/webhook/WebhookPayloadFactoryImpl.java:71-73 | writing a property appends exactly that member |
| Json.JsonWriter.PropNullable | server/sonar-server/src/main/java/org/sonar/server/computation/task/projectanalysis/webhook/WebhookPayloadFactoryImpl.java:160-161 | writing a nullable property appends the member only when the value is non-null |
| WebhookDto.CeTaskStatusValueOf | server/sonar-server/src/main/java/org/sonar/server/computation/task/projectanalysis/webhook/WebhookPostTask.java:59 | CeTask.Status.valueOf: the constant with that name, and none (the exception) for any other name |
| WebhookDto.BranchTypeValueOf | server/sonar-server/src/main/java/org/sonar/server/computation/task/projectanalysis/webhook/WebhookPostTask.java:61 | Branch.Type.valueOf: the constant with that name, and none for any other name |
| WebhookPayloadFactory.WriteServer | server/sonar-server/src/main/java/org/sonar/server/computation/task/projectanalysis/webhook/WebhookPayloadFactoryImpl.java:71-73 | appends the serverUrl member holding the public root URL |
| WebhookPayloadFactory.WriteTask | server/sonar-server/src/main/java/org/sonar/server/computation/task/projectanalysis/webhook/WebhookPayloadFactoryImpl.java:106-110 | appends taskId and status, in that order |
| WebhookPayloadFactory.WriteDates | server/sonar-server/src/main/java/org/sonar/server/computation/task/projectanalysis/webhook/WebhookPayloadFactoryImpl.java:75-83 | appends analysedAt and changedAt (the analysis date) with an analysis, else changedAt at the current time |
| WebhookPayloadFactory.WriteProject | server/sonar-server/src/main/java/org/sonar/server/computation/task/projectanalysis/webhook/WebhookPayloadFactoryImpl.java:85-93 | appends the project object: key, name and dashboard URL |
| WebhookPayloadFactory.WriteBranch | server/sonar-server/src/main/java/org/sonar/server/computation/task/projectanalysis/webhook/WebhookPayloadFactoryImpl.java:112-121 | appends the branch object: name when present, type, isMain and branch URL |
| WebhookPayloadFactory.WriteCondition | server/sonar-server/src/main/java/org/sonar/server/computation/task/projectanalysis/webhook/WebhookPayloadFactoryImpl.java:150-162 | appends one condition's members, in the order the loop body writes them |
| WebhookPayloadFactory.WriteQualityGate | server/sonar-server/src/main/java/org/sonar/server/computation/task/projectanalysis/webhook/WebhookPayloadFactoryImpl.java:140-168 | appends nothing without a gate; otherwise the qualityGate object with one condition object per condition, in order |
| WebhookPayloadFactory.WriteAnalysisProperties | server/sonar-server/src/main/java/org/sonar/server/computation/task/projectanalysis/webhook/WebhookPayloadFactoryImpl.java:95-104 | appends the properties object holding exactly the filtered scanner properties, in order |
| WebhookPayloadFactory.Create | server/sonar-server/src/main/java/org/sonar/server/computation/task/projectanalysis/webhook/WebhookPayloadFactoryImpl.java:55-69 | the payload built step by step is the specified document, keyed by the project key |
| WebhookPayloadFactory.PayloadKeys | server/sonar-server/src/main/java/org/sonar/server/computation/task/projectanalysis/webhook/WebhookPayloadFactoryImpl.java:55-69 | the top-level member names in order: serverUrl, taskId, status, [analysedAt], changedAt, project, [branch], [qualityGate], properties; each optional one present exactly when its source is |
| WebhookPayloadFactory.PayloadServerAndTask | server/sonar-server/src/main/java/org/sonar/server/computation/task/projectanalysis/webhook/WebhookPayloadFactoryImpl.java:55-69 | the payload's project key is the project's key; serverUrl, taskId and status hold the root URL, task id and task status name |
| WebhookPayloadFactory.PayloadProjectAndProperties | server/sonar-server/src/main/java/org/sonar/server/computation/task/projectanalysis/webhook/WebhookPayloadFactoryImpl.java:55-69 | the project object and the properties object are always present and hold the project fields and the filtered properties |
| WebhookPayloadFactory.PayloadDates | server/sonar-server/src/main/java/org/sonar/server/computation/task/projectanalysis/webhook/WebhookPayloadFactoryImpl.java:75-83 | analysedAt is the analysis date exactly when there is an analysis; changedAt is the analysis date, or the current time without one |
| WebhookPayloadFactory.PayloadBranchAndGate | server/sonar-server/src/main/java/org/sonar/server/computation/task/projectanalysis/webhook/WebhookPayloadFactoryImpl.java:55-69 | the branch object is present exactly when there is a branch; the qualityGate object is present exactly when there is a gate, with one object per condition in the gate's order |
| WebhookPayloadFactory.ConditionValueOnlyWhenEvaluated | server/sonar-server/src/main/java/org/sonar/server/computation/task/projectanalysis/webhook/WebhookPayloadFactoryImpl.java:149-163 | a condition's value is written exactly when it was evaluated (not NO_VALUE); each threshold exactly when it is set; status always |
| WebhookPayloadFactory.AnalysisPropertiesSpec | server/sonar-server/src/main/java/org/sonar/server/computation/task/projectanalysis/webhook/WebhookPayloadFactoryImpl.java:95-104 | exactly the scanner properties whose key starts with `sonar.analysis.` are published, with their values, never more than there are properties |
| WebhookPayloadFactory.BranchUrlProperties | server/sonar-server/src/main/java/org/sonar/server/computation/task/projectanalysis/webhook/WebhookPayloadFactoryImpl.java:123-138 | the main long-lived branch links to the project dashboard; every branch URL lies under the root's /project/ path; short and long branch URLs differ |
| WebhookPostTask.ConvertCeTaskStatus | server/sonar-server/src/main/java/org/sonar/server/computation/task/projectanalysis/webhook/WebhookPostTask.java:59 | the converted task status has the same name (valueOf by name never throws here) |
| WebhookPostTask.ConvertBranchType | server/sonar-server/src/main/java/org/sonar/server/computation/task/projectanalysis/webhook/WebhookPostTask.java:61 | the converted branch type has the same name |
| WebhookPostTask.ConvertGateStatus | server/sonar-server/src/main/java/org/sonar/server/computation/task/projectanalysis/webhook/WebhookPostTask.java:66 | the converted gate status has the same name |
| WebhookPostTask.ConvertEvaluationStatus | server/sonar-server/src/main/java/org/sonar/server/computation/task/projectanalysis/webhook/WebhookPostTask.java:68 | the converted evaluation status has the same name |
| WebhookPostTask.ConvertOperator | server/sonar-server/src/main/java/org/sonar/server/computation/task/projectanalysis/webhook/WebhookPostTask.java:68 | the converted operator has the same name |
| WebhookPostTask.ConvertCondition | server/sonar-server/src/main/java/org/sonar/server/computation/task/projectanalysis/webhook/WebhookPostTask.java:68-70 | metric, thresholds, period flag, status and operator names are kept; the value is null for NO_VALUE and copied otherwise |
| WebhookPostTask.ConvertQualityGate | server/sonar-server/src/main/java/org/sonar/server/computation/task/projectanalysis/webhook/WebhookPostTask.java:62-72 | id, name and status name are kept; the converted condition set holds exactly the conversions of the gate's conditions |
| WebhookPostTask.ConvertBranch | server/sonar-server/src/main/java/org/sonar/server/computation/task/projectanalysis/webhook/WebhookPostTask.java:61 | main flag, name and type name are kept |
| WebhookPostTask.Convert | server/sonar-server/src/main/java/org/sonar/server/computation/task/projectanalysis/webhook/WebhookPostTask.java:57-75 | task, project, optional branch and gate (present exactly when present in the source), date of the analysis if any, scanner properties unchanged |
| WebhookPostTask.Finished | server/sonar-server/src/main/java/org/sonar/server/computation/task/projectanalysis/webhook/WebhookPostTask.java:48-55 | exactly one dispatch request, for the configuration, the project, the activity's analysis and the Compute Engine task id, whose payload comes from the converted analysis; a missing analysis uuid gives the constructor's NullPointerException |
| WebhookPostTask.ConvertedConditionValue | server/sonar-server/src/main/java/org/sonar/server/computation/task/projectanalysis/webhook/WebhookPostTask.java:68-70 | reading back a converted condition's value never throws: empty exactly for NO_VALUE, the original value otherwise |
| WebhookPostTask.ConvertConditionInjective | server/sonar-server/src/main/java/org/sonar/server/computation/task/projectanalysis/webhook/WebhookPostTask.java:67-71 | two conditions convert alike exactly when they agree on every field, the value compared only when evaluated |
| WebhookPostTask.ConvertQualityGateSize | server/sonar-server/src/main/java/org/sonar/server/computation/task/projectanalysis/webhook/WebhookPostTask.java:67-71 | collecting into a set never yields more conditions than the gate had, and a gate without conditions converts to one without conditions |
| WebhookPostTask.ImageSize | server/sonar-server/src/main/java/org/sonar/server/computation/task/projectanalysis/webhook/WebhookPostTask.java:67-71 | the set of converted conditions is no larger than the list converted |
| PostProjectAnalysisTasksExecutor.IntToStringRoundTrip | server/sonar-server/src/main/java/org/sonar/server/computation/task/projectanalysis/api/posttask/PostProjectAnalysisTasksExecutor.java:153 | String.valueOf of the gate id is a decimal numeral that reads back as that id, so distinct ids give distinct strings |
| PostProjectAnalysisTasksExecutor.NewProjectAnalysis | server/sonar-server/src/main/java/org/sonar/server/computation/task/projectanalysis/api/posttask/PostProjectAnalysisTasksExecutor.java:204-214 | succeeds exactly when ceTask, project and scannerContext are non-null, checked in that order with their messages; the other fields are kept as given |
| PostProjectAnalysisTasksExecutor.ConvertStatus | server/sonar-server/src/main/java/org/sonar/server/computation/task/projectanalysis/api/posttask/PostProjectAnalysisTasksExecutor.java:171-184 | OK, WARN and ERROR map one to one onto their namesakes |
| PostProjectAnalysisTasksExecutor.CreateQualityGate | server/sonar-server/src/main/java/org/sonar/server/computation/task/projectanalysis/api/posttask/PostProjectAnalysisTasksExecutor.java:147-159 | a gate exactly when the holder has one, with its name, its conditions, its id rendered in decimal and the converted status |
| PostProjectAnalysisTasksExecutor.CreateBranch | server/sonar-server/src/main/java/org/sonar/server/computation/task/projectanalysis/api/posttask/PostProjectAnalysisTasksExecutor.java:162-169 | a branch exactly when the metadata has one that is not the legacy feature, with the same main flag, name and type name |
| PostProjectAnalysisTasksExecutor.CreateProjectAnalysis | server/sonar-server/src/main/java/org/sonar/server/computation/task/projectanalysis/api/posttask/PostProjectAnalysisTasksExecutor.java:114-144 | analysis information exactly when the date was set; the date, or the current time; a gate only for a SUCCESS task whose holder has one; the project from the queue task; the branch; the context properties |
| PostProjectAnalysisTasksExecutor.Finished | server/sonar-server/src/main/java/org/sonar/server/computation/task/projectanalysis/api/posttask/PostProjectAnalysisTasksExecutor.java:95-112 | with no task nothing is built or called; otherwise one analysis, SUCCESS exactly when all steps ran, is passed to every task once in registration order, whatever the earlier tasks did |
| DbModel.Db.ComponentsByUuids | server/sonar-server/src/main/java/org/sonar/server/issue/webhook/IssueChangeWebhookImpl.java:175 | exactly the component rows whose uuid is requested |
| DbModel.Db.BranchesByUuids | server/sonar-server/src/main/java/org/sonar/server/issue/webhook/IssueChangeWebhookImpl.java:115 | exactly the branch rows whose uuid is requested |
| DbModel.Db.LastAnalysesByRootComponentUuids | server/sonar-server/src/main/java/org/sonar/server/issue/webhook/IssueChangeWebhookImpl.java:123-125 | exactly the last snapshots of the requested root components |
| DbModel.Db.ActivitiesByAnalysisUuids | server/sonar-server/src/main/java/org/sonar/server/issue/webhook/IssueChangeWebhookImpl.java:128-130 | exactly the activity rows whose analysis uuid is requested |
| DbModel.Filter | server/sonar-server/src/main/java/org/sonar/server/issue/webhook/IssueChangeWebhookImpl.java:176 | keeps exactly the elements that satisfy the predicate |
| DbModel.UniqueIndex | server/sonar-server/src/main/java/org/sonar/server/issue/webhook/IssueChangeWebhookImpl.java:169-171 | an index exactly when no two elements share a key (otherwise IllegalArgumentException); the keys are the elements' keys and each key maps to its element |
| DbModel.UniqueIndexValues | server/sonar-server/src/main/java/org/sonar/server/issue/webhook/IssueChangeWebhookImpl.java:112-114 | the values of a unique index are exactly the indexed elements |
| DbModel.UniqueIndexLookup | server/sonar-server/src/main/java/org/sonar/server/issue/webhook/IssueChangeWebhookImpl.java:169-171 | in a unique index every element is found under its key, and every entry is an element under its own key |
| IssueChangeWebhook.MergedComponents | server/sonar-server/src/main/java/org/sonar/server/issue/webhook/IssueChangeWebhookImpl.java:173-177 | a component is kept exactly when it has a main branch project and comes either from the response or from the database rows of the uuids missing from the response |
| IssueChangeWebhook.GetBranchComponents | server/sonar-server/src/main/java/org/sonar/server/issue/webhook/IssueChangeWebhookImpl.java:161-178 | with no missing uuid, the unfiltered unique index of the response components; otherwise it fails exactly when two merged components share a uuid, and on success maps each merged component's uuid to it and holds nothing else; every key is its component's uuid |
| IssueChangeWebhook.ShortBranches | server/sonar-server/src/main/java/org/sonar/server/issue/webhook/IssueChangeWebhookImpl.java:112-118 | exactly the SHORT branch rows of the database whose uuid is a key of the component index |
| IssueChangeWebhook.LastAnalyses | server/sonar-server/src/main/java/org/sonar/server/issue/webhook/IssueChangeWebhookImpl.java:123-127 | fails exactly when two last snapshots of the projects share a component uuid; otherwise indexes every last snapshot of the projects by its component uuid, and holds nothing else |
| IssueChangeWebhook.Activities | server/sonar-server/src/main/java/org/sonar/server/issue/webhook/IssueChangeWebhookImpl.java:128-132 | fails exactly when two activities of the analyses share an analysis uuid; otherwise indexes every activity of the analyses by its analysis uuid, and holds nothing else |
| IssueChangeWebhook.PrepareCall | server/sonar-server/src/main/java/org/sonar/server/issue/webhook/IssueChangeWebhookImpl.java:103-132 | the component lookup's error is passed on; the early return happens exactly when no database branch of an indexed uuid is SHORT; a plan holds the component index, a non-empty set of SHORT branch rows and the last-analysis and activity indexes as the database gives them; past the branch lookup it fails exactly when one of the two indexes has a duplicate |
| IssueChangeWebhook.BuildWebHookPayload | server/sonar-server/src/main/java/org/sonar/server/issue/webhook/IssueChangeWebhookImpl.java:150-159 | fails exactly for a CANCELED activity, with the IllegalArgumentException message of CeTask.Status.valueOf; otherwise a non-main short-branch analysis of the component, with the activity's uuid and status name, and no gate, date or properties |
| IssueChangeWebhook.RequestFor | server/sonar-server/src/main/java/org/sonar/server/issue/webhook/IssueChangeWebhookImpl.java:135-143 | a request exactly when the branch component, the project's last analysis and its activity are known, for the project, that analysis and that activity |
| IssueChangeWebhook.RequestForInDatabase | server/sonar-server/src/main/java/org/sonar/server/issue/webhook/IssueChangeWebhookImpl.java:135-143 | for a planned short branch, a request is made exactly when the database has a last snapshot of its project with an activity, and it is the request for that snapshot and activity |
| IssueChangeWebhook.SendsForStep | server/sonar-server/src/main/java/org/sonar/server/issue/webhook/IssueChangeWebhookImpl.java:133-146 | one more branch adds its request if it has one, and ends the visit when that request's supplier throws |
| IssueChangeWebhook.SendsForSpec | server/sonar-server/src/main/java/org/sonar/server/issue/webhook/IssueChangeWebhookImpl.java:133-146 | at most one request per visited branch, each for a visited branch; the visit ends normally exactly when no visited branch's supplier throws |
| IssueChangeWebhook.SendsForComplete | server/sonar-server/src/main/java/org/sonar/server/issue/webhook/IssueChangeWebhookImpl.java:133-146 | a visit that ends normally holds the request of every visited branch that qualifies |
| IssueChangeWebhook.SendsForAborted | server/sonar-server/src/main/java/org/sonar/server/issue/webhook/IssueChangeWebhookImpl.java:133-146 | an aborted visit ends with the first request whose supplier throws, and carries that supplier's exception |
| IssueChangeWebhook.SendsForNoThrow | server/sonar-server/src/main/java/org/sonar/server/issue/webhook/IssueChangeWebhookImpl.java:133-146 | while the visit goes on, no request made so far throws |
| IssueChangeWebhook.AbortedIsFinal | server/sonar-server/src/main/java/org/sonar/server/issue/webhook/IssueChangeWebhookImpl.java:133-146 | once a supplier has thrown, the rest of the branches are not visited |
| IssueChangeWebhook.ThrowingBranchFirst | server/sonar-server/src/main/java/org/sonar/server/issue/webhook/IssueChangeWebhookImpl.java:133-146 | a throwing branch visited first is the only request made |
| IssueChangeWebhook.OrderDecidesWhatIsSent | server/sonar-server/src/main/java/org/sonar/server/issue/webhook/IssueChangeWebhookImpl.java:133-146 | a qualifying request is made when its branch is visited before a throwing one and not when after it |
| IssueChangeWebhook.VisitBranches | server/sonar-server/src/main/java/org/sonar/server/issue/webhook/IssueChangeWebhookImpl.java:133-146 | visits each short branch at most once, in some order, stopping at the first throwing supplier; its outcome is the visit of that order, and one the order-free description allows: all qualifying requests, or an abort at a throwing one |
| IssueChangeWebhook.VisitedInEveryOrder | server/sonar-server/src/main/java/org/sonar/server/issue/webhook/IssueChangeWebhookImpl.java:133-146 | in every order: at most one request per short branch, each for a qualifying one; all qualifying requests when no supplier throws; otherwise an abort at a throwing request with its exception |
| IssueChangeWebhook.DispatchedInEveryOrder | server/sonar-server/src/main/java/org/sonar/server/issue/webhook/IssueChangeWebhookImpl.java:98-148 | in every visit order, callWebHook's outcome is one the order-free description allows |
| IssueChangeWebhook.CallWebHook | server/sonar-server/src/main/java/org/sonar/server/issue/webhook/IssueChangeWebhookImpl.java:98-148 | nothing when disabled, the error of a duplicate row, no request on an early return; otherwise a visit of the short branches in some order: all qualifying requests, or an abort by the first throwing supplier |
| IssueChangeWebhook.OnTypeChange | server/sonar-server/src/main/java/org/sonar/server/issue/webhook/IssueChangeWebhookImpl.java:69-75 | ignored for an empty issue list or a change not made by a user; otherwise exactly the dispatch callWebHook makes |
| IssueChangeWebhook.OnTransition | server/sonar-server/src/main/java/org/sonar/server/issue/webhook/IssueChangeWebhookImpl.java:78-84 | also ignored unless the transition is meaningful; otherwise exactly the dispatch callWebHook makes |
| IssueChangeWebhook.MeaningfulTransitions | server/sonar-server/src/main/java/org/sonar/server/issue/webhook/IssueChangeWebhookImpl.java:94-96 | exactly resolve, falsepositive, wontfix and reopen trigger; a null key does not |
| IssueChangeWebhook.SentRequestsAreForShortBranches | server/sonar-server/src/main/java/org/sonar/server/issue/webhook/IssueChangeWebhookImpl.java:115-146 | every request sent, including before an abort, is for the project of a SHORT branch row, and no more are sent than branches visited |
| IssueChangeWebhook.OutcomeOfPlan | server/sonar-server/src/main/java/org/sonar/server/issue/webhook/IssueChangeWebhookImpl.java:98-132 | with a plan, callWebHook's outcome is the visit of its short branches, and the plan agrees with the database |
| IssueChangeWebhook.VisitSendsJoined | server/sonar-server/src/main/java/org/sonar/server/issue/webhook/IssueChangeWebhookImpl.java:133-146 | a full visit without throwing supplier sends exactly the requests for the short branches joined to a last snapshot and its activity in the database |
| IssueChangeWebhook.SentRequestsIndependentOfOrder | server/sonar-server/src/main/java/org/sonar/server/issue/webhook/IssueChangeWebhookImpl.java:133-146 | when no supplier throws, callWebHook ends normally and, whatever the visit order, sends exactly one request for each short branch joined in the database to its project's last snapshot and that snapshot's activity |
| IssueChangeWebhook.CanceledActivityThrows | server/sonar-server/src/main/java/org/sonar/server/issue/webhook/IssueChangeWebhookImpl.java:140-152 | the supplier of a short branch whose last analysis has a CANCELED activity throws once a webhook is configured for it |
| IssueChangeWebhook.ThrownError | server/sonar-server/src/main/java/org/sonar/server/issue/webhook/IssueChangeWebhookImpl.java:150-152 | a throwing supplier throws the IllegalArgumentException of CeTask.Status.valueOf for CANCELED |
| IssueChangeWebhook.VisitAborts | server/sonar-server/src/main/java/org/sonar/server/issue/webhook/IssueChangeWebhookImpl.java:133-146 | a visit that reaches a throwing branch aborts with that exception |
| IssueChangeWebhook.CanceledActivityAbortsDispatch | server/sonar-server/src/main/java/org/sonar/server/issue/webhook/IssueChangeWebhookImpl.java:133-159 | a short branch whose last analysis has a CANCELED activity, with a webhook configured, makes callWebHook abort with the valueOf exception in every visit order |
| IssueChangeWebhook.BranchComponentsAsymmetry | server/sonar-server/src/main/java/org/sonar/server/issue/webhook/IssueChangeWebhookImpl.java:161-178 | a component without a main branch project is kept when nothing is missing but dropped as soon as one component is missing |
| ShortBranchComponentsWithIssues.LastIndexBelow | server/sonar-server/src/main/java/org/sonar/server/computation/task/projectanalysis/component/ShortBranchComponentsWithIssues.java:78 | the greatest occurrence of the separator below the bound, or none when there is no occurrence |
| ShortBranchComponentsWithIssues.SubstringBeforeLast | server/sonar-server/src/main/java/org/sonar/server/computation/task/projectanalysis/component/ShortBranchComponentsWithIssues.java:77-79 | a prefix of the key; the key itself exactly when the separator does not occur; otherwise it ends where the last occurrence starts |
| ShortBranchComponentsWithIssues.RemoveBranchFromBranchKey | server/sonar-server/src/main/java/org/sonar/server/computation/task/projectanalysis/component/ShortBranchComponentsWithIssues.java:77-79 | stripping `key:BRANCH:name` gives back `key` when the branch name has no ':' |
| ShortBranchComponentsWithIssues.RemoveBranchFromPlainKey | server/sonar-server/src/main/java/org/sonar/server/computation/task/projectanalysis/component/ShortBranchComponentsWithIssues.java:77-79 | a key without the separator is returned unchanged |
| ShortBranchComponentsWithIssues.GroupSpec | server/sonar-server/src/main/java/org/sonar/server/computation/task/projectanalysis/component/ShortBranchComponentsWithIssues.java:60-66 | a uuid is stored under a key exactly when some component with that stripped key has it: components with the same stripped key accumulate and nothing is overwritten |
| ShortBranchComponentsWithIssues.GroupKeys | server/sonar-server/src/main/java/org/sonar/server/computation/task/projectanalysis/component/ShortBranchComponentsWithIssues.java:60-66 | the map's keys are exactly the stripped keys of the components |
| ShortBranchComponentsWithIssues.LookupSpec | server/sonar-server/src/main/java/org/sonar/server/computation/task/projectanalysis/component/ShortBranchComponentsWithIssues.java:54-75 | for a non-LONG branch every lookup is empty; for a LONG branch a lookup gives exactly the uuids of the components with that stripped key |
| ShortBranchComponentsWithIssues.ShortBranchComponentsWithIssues.constructor | server/sonar-server/src/main/java/org/sonar/server/computation/task/projectanalysis/component/ShortBranchComponentsWithIssues.java:48-52 | the cache starts unloaded, with the analysis uuid and branch type |
| ShortBranchComponentsWithIssues.ShortBranchComponentsWithIssues.LoadUuidsByKey | server/sonar-server/src/main/java/org/sonar/server/computation/task/projectanalysis/component/ShortBranchComponentsWithIssues.java:54-67 | the loaded map is the grouping of the queried components for a LONG branch and empty otherwise; the database is read only for a LONG branch |
| ShortBranchComponentsWithIssues.ShortBranchComponentsWithIssues.GetUuids | server/sonar-server/src/main/java/org/sonar/server/computation/task/projectanalysis/component/ShortBranchComponentsWithIssues.java:69-75 | returns the uuids under the key, or empty; it loads on the first call only and never reloads afterwards |

## Left out

- The HTTP call and the delivery storage are not modelled beyond what the dispatcher does with them. The caller is a function, and storage shows up only as `Persisted`/`Purged` events. Logging of deliveries and of failed tasks is left out.
- JSON text is left out. Payloads are JSON trees, dates are millisecond values rather than ISO-8601 strings, and `JsonWriter` keeps its members as a sequence.
- `URLEncoder.encode` is a function parameter. Its `UnsupportedEncodingException` branch cannot occur for UTF-8.
- `System2.now()` is an input, as are the server's public root URL and the configuration.
- `WebHooks.isEnabled` is not declared in `WebHooks.java`, so the model takes it as a boolean input.
- `WebhookProperties`, `DefaultTransitions`, `ComponentDto`, the database DTOs and DAOs and `MoreCollectors` are not part of this model. The constants they supply are assumed to be the following:
  - scope keys `sonar.webhooks.global` and `sonar.webhooks.project`;
  - fields `name` and `url`;
  - a limit of 10 webhooks per scope;
  - the prefix `sonar.analysis.`;
  - the transition keys `resolve`, `falsepositive`, `wontfix` and `reopen`;
  - the separator `:BRANCH:`;
  - activity statuses `SUCCESS`, `FAILED` and `CANCELED`.
- The `uniqueIndex` duplicate-key message is modelled as the duplicated key alone.
- `Configuration.getStringArray` is a map from keys to arrays. The comma splitting of the underlying setting is left out.
- `QualityGate.hashCode` and `Condition.hashCode` are left out: they hash enum constants by identity. `Analysis.hashCode` is modelled for UTF-16 code units below U+10000 only.
- The server-side `WebhookPayloadFactory` that builds a payload from the server `ProjectAnalysis` is not part of this model.
- `ConditionToCondition` is not part of this model. The executor's quality gate holder carries conditions that are already converted.
- The `default` branch of the executor's quality gate status conversion is unreachable with three constants, so it is left out.
- In `ShortBranchComponentsWithIssues`, the constructor is given the branch type. `getBranch().get()` on an analysis without a branch would throw; that case is left out.
- Iteration over a hash set (the issue-change `forEach`) has no fixed order. The model exposes the visit order as a ghost output. When no supplier throws, the requests sent do not depend on it. When one throws, the dispatch aborts in every order, but which requests were made before the abort depends on the order.
- The dispatcher's call of the issue-change payload supplier is not modelled by running `WebHooksImpl` on each request. `Throws` states when that call throws: the payload is an error and the configuration yields at least one webhook.
- QualityGate.Condition.GetValue: the message of the `NullPointerException` for a missing value is `null` in Java; the model gives it the empty message.
- WebhookPostTask.Convert: the analysis date is read as the date of `getAnalysis()`. `getAnalysisDate()` is not declared in the plugin-API `ProjectAnalysis` file, so the model takes it as that interface default.
- The map iteration order of the scanner properties is taken as the order of a sequence.
- WebhookPayloadFactory.PayloadKeys: lists the payload's member names in order, but does not prove that they are pairwise distinct.
- DI constructors of the services, and the web, migration and notification files around the core, are not modelled.
