/** The webhook trigger for issue changes made by a user on short-lived branches
    (server/sonar-server .../issue/webhook/IssueChangeWebhookImpl.java). A type change, or one of
    four meaningful transitions, made by a user on a non-empty set of issues leads, when webhooks
    are enabled, to one dispatch request per short-lived branch whose component, last analysis and
    Compute Engine activity can all be found. A request whose payload cannot be built (a CANCELED
    activity) makes the dispatcher throw as soon as a webhook is configured, and nothing catches
    it: the remaining branches are then not visited.

    The database is a value (see DbModel) and whether webhooks are enabled is an input. The
    dispatch analysis is WebHooks.Analysis with three arguments: the branch's project, the uuid of
    its last analysis and, as the Compute Engine task uuid, the uuid of that analysis's activity record. */
module IssueChangeWebhook {
  import opened Wrappers
  import opened DbModel
  import opened WebHooks
  import WebHooksImpl
  import Dto = WebhookDto

  /** The transition keys that trigger a webhook (DefaultTransitions RESOLVE, FALSE_POSITIVE,
      WONT_FIX and REOPEN). */
  const MEANINGFUL_TRANSITIONS: set<string> := {"resolve", "falsepositive", "wontfix", "reopen"}

  /** The issues a change was applied to and the components they belong to. */
  datatype SearchResponseData = SearchResponseData(issues: seq<IssueDto>, components: seq<ComponentDto>)

  /** The login is absent for a change made by an analysis rather than by a user. */
  datatype IssueChangeContext = IssueChangeContext(login: Option<string>)

  datatype Outcome =
    | Ignored                          // the change does not qualify: nothing is touched
    | Disabled                         // webhooks are disabled: the database is not read
    | Failed(error: Error)             // a lookup found duplicate rows: nothing is sent
    | Sent(requests: seq<Dto.SendRequest>)
      // a payload supplier threw: the requests handed to the dispatcher, the last one being the
      // request whose supplier threw, and the exception that left callWebHook
    | Aborted(requests: seq<Dto.SendRequest>, error: Error)

  // ------------------------------------------------------ gating

  predicate IsEmpty(response: SearchResponseData) {
    |response.issues| == 0
  }

  predicate IsUserChangeContext(context: IssueChangeContext) {
    context.login.Some?
  }

  /** A null key is not meaningful (ImmutableSet.contains(null) is false). */
  predicate IsMeaningfulTransition(transitionKey: Option<string>) {
    transitionKey.Some? && transitionKey.value in MEANINGFUL_TRANSITIONS
  }

  // ------------------------------------------------------ lookups

  function ComponentUuids(response: SearchResponseData): set<string> {
    set i | i in response.issues :: i.componentUuid
  }

  function ComponentUuid(c: ComponentDto): string {
    c.uuid
  }

  predicate HasMainBranchProject(c: ComponentDto) {
    c.mainBranchProjectUuid.Some?
  }

  /** The issue components the search response does not hold. */
  function MissingUuids(componentUuids: set<string>, response: SearchResponseData): set<string> {
    componentUuids - set c | c in response.components :: c.uuid
  }

  /** What getBranchComponents indexes once a component is missing: the response's components,
      then the missing ones read from the database, keeping the components of a branch. */
  function MergedComponents(db: Db, componentUuids: set<string>, response: SearchResponseData): (r: seq<ComponentDto>)
    ensures forall c :: c in r <==>
              HasMainBranchProject(c) &&
              (c in response.components || (c in db.components && c.uuid in MissingUuids(componentUuids, response)))
  {
    Filter(response.components + db.ComponentsByUuids(MissingUuids(componentUuids, response)), HasMainBranchProject)
  }

  /** getBranchComponents: when every issue component is among the response components, those
      components indexed by uuid, unfiltered; otherwise every merged component indexed by uuid.
      A uuid shared by two indexed components is an error. */
  function GetBranchComponents(db: Db, componentUuids: set<string>, response: SearchResponseData): (r: Result<map<string, ComponentDto>>)
    ensures MissingUuids(componentUuids, response) == {} ==> r == UniqueIndex(response.components, ComponentUuid)
    ensures MissingUuids(componentUuids, response) != {} ==>
              (r.Ok? <==> DistinctKeys(MergedComponents(db, componentUuids, response), ComponentUuid))
    ensures MissingUuids(componentUuids, response) != {} && r.Ok? ==>
              forall c :: c in MergedComponents(db, componentUuids, response) ==> c.uuid in r.value && r.value[c.uuid] == c
    ensures MissingUuids(componentUuids, response) != {} && r.Ok? ==>
              forall k :: k in r.value ==> r.value[k] in MergedComponents(db, componentUuids, response)
    ensures r.Ok? ==> forall k :: k in r.value ==> r.value[k].uuid == k
  {
    if MissingUuids(componentUuids, response) == {} then
      var r := UniqueIndex(response.components, ComponentUuid);
      if r.Ok? then UniqueIndexLookup(response.components, ComponentUuid); r else r
    else
      var merged := MergedComponents(db, componentUuids, response);
      var r := UniqueIndex(merged, ComponentUuid);
      if r.Ok? then UniqueIndexLookup(merged, ComponentUuid); r else r
  }

  /** The uuids of the branch components. */
  function BranchUuids(branchesByUuid: map<string, ComponentDto>): set<string> {
    set k | k in branchesByUuid :: branchesByUuid[k].uuid
  }

  /** The short-lived branch rows among the branch components. */
  function ShortBranches(db: Db, branchesByUuid: map<string, ComponentDto>): (r: set<BranchDto>)
    ensures forall b :: b in r <==> b in db.branches && b.branchType == SHORT && b.uuid in BranchUuids(branchesByUuid)
  {
    set b | b in db.BranchesByUuids(BranchUuids(branchesByUuid)) && b.branchType == SHORT
  }

  function ProjectUuids(shortBranches: set<BranchDto>): set<string> {
    set b | b in shortBranches :: b.projectUuid
  }

  function SnapshotComponentUuid(s: SnapshotDto): string {
    s.componentUuid
  }

  /** The last analysis of each project, indexed by project uuid; two last analyses of one
      project are an error. */
  function LastAnalyses(db: Db, projectUuids: set<string>): (r: Result<map<string, SnapshotDto>>)
    ensures r.Ok? <==> DistinctKeys(db.LastAnalysesByRootComponentUuids(projectUuids), SnapshotComponentUuid)
    ensures r.Ok? ==> forall s :: s in db.snapshots && s.isLast && s.componentUuid in projectUuids ==>
              s.componentUuid in r.value && r.value[s.componentUuid] == s
    ensures r.Ok? ==> forall p :: p in r.value ==>
              p in projectUuids && r.value[p] in db.snapshots && r.value[p].isLast && r.value[p].componentUuid == p
  {
    var rows := db.LastAnalysesByRootComponentUuids(projectUuids);
    var r := UniqueIndex(rows, SnapshotComponentUuid);
    if r.Ok? then UniqueIndexLookup(rows, SnapshotComponentUuid); r else r
  }

  function AnalysisUuids(analysisByProjectUuid: map<string, SnapshotDto>): set<string> {
    set k | k in analysisByProjectUuid :: analysisByProjectUuid[k].uuid
  }

  function ActivityAnalysisUuid(a: CeActivityDto): string {
    a.analysisUuid.GetOr("")
  }

  /** The activity of each analysis, indexed by analysis uuid; two activities of one analysis are
      an error. */
  function Activities(db: Db, analysisUuids: set<string>): (r: Result<map<string, CeActivityDto>>)
    ensures r.Ok? <==> DistinctKeys(db.ActivitiesByAnalysisUuids(analysisUuids), ActivityAnalysisUuid)
    ensures r.Ok? ==> forall a :: a in db.activities && a.analysisUuid.Some? && a.analysisUuid.value in analysisUuids ==>
              a.analysisUuid.value in r.value && r.value[a.analysisUuid.value] == a
    ensures r.Ok? ==> forall u :: u in r.value ==>
              u in analysisUuids && r.value[u] in db.activities && r.value[u].analysisUuid == Some(u)
  {
    var rows := db.ActivitiesByAnalysisUuids(analysisUuids);
    var r := UniqueIndex(rows, ActivityAnalysisUuid);
    if r.Ok? then UniqueIndexLookup(rows, ActivityAnalysisUuid); r else r
  }

  /** What callWebHook has gathered once it reaches its forEach. */
  datatype Plan = Plan(
    branchesByUuid: map<string, ComponentDto>,
    shortBranches: set<BranchDto>,
    analysisByProjectUuid: map<string, SnapshotDto>,
    ceActivityByAnalysisUuid: map<string, CeActivityDto>)

  /** The plan joins the database: its short branches are the SHORT branch rows of its branch
      components; it indexes, by project, every last analysis of their projects and, by analysis,
      every activity of those analyses, and nothing else. */
  ghost predicate JoinsDatabase(db: Db, plan: Plan) {
    (forall b :: b in plan.shortBranches <==>
       b in db.branches && b.branchType == SHORT && b.uuid in plan.branchesByUuid) &&
    (forall s :: s in db.snapshots && s.isLast && s.componentUuid in ProjectUuids(plan.shortBranches) ==>
       s.componentUuid in plan.analysisByProjectUuid && plan.analysisByProjectUuid[s.componentUuid] == s) &&
    (forall p :: p in plan.analysisByProjectUuid ==>
       p in ProjectUuids(plan.shortBranches) && plan.analysisByProjectUuid[p] in db.snapshots &&
       plan.analysisByProjectUuid[p].isLast && plan.analysisByProjectUuid[p].componentUuid == p) &&
    (forall a :: a in db.activities && a.analysisUuid.Some? &&
                 a.analysisUuid.value in AnalysisUuids(plan.analysisByProjectUuid) ==>
       a.analysisUuid.value in plan.ceActivityByAnalysisUuid &&
       plan.ceActivityByAnalysisUuid[a.analysisUuid.value] == a) &&
    (forall u :: u in plan.ceActivityByAnalysisUuid ==>
       u in AnalysisUuids(plan.analysisByProjectUuid) && plan.ceActivityByAnalysisUuid[u] in db.activities &&
       plan.ceActivityByAnalysisUuid[u].analysisUuid == Some(u))
  }

  /** The database part of callWebHook up to its forEach. It returns early exactly when no
      branch component has a short-lived branch row; otherwise the plan holds the short-lived
      branch rows of the branch components, the last analysis of each of their projects and the
      activity of each of those analyses. A duplicate row met by a uniqueIndex is an error. */
  function PrepareCall(db: Db, response: SearchResponseData): (r: Result<Option<Plan>>)
    ensures var components := GetBranchComponents(db, ComponentUuids(response), response);
            components.Err? ==> r == Err(components.error)
    ensures var components := GetBranchComponents(db, ComponentUuids(response), response);
            components.Ok? ==>
              (r == Ok(None) <==>
               forall b :: b in db.branches && b.uuid in components.value ==> b.branchType != SHORT)
    ensures r.Ok? && r.value.Some? ==>
              GetBranchComponents(db, ComponentUuids(response), response) == Ok(r.value.value.branchesByUuid) &&
              r.value.value.shortBranches != {} && JoinsDatabase(db, r.value.value)
    ensures var components := GetBranchComponents(db, ComponentUuids(response), response);
            components.Ok? && ShortBranches(db, components.value) != {} ==>
              var analyses := LastAnalyses(db, ProjectUuids(ShortBranches(db, components.value)));
              (r.Err? <==> analyses.Err? || Activities(db, AnalysisUuids(analyses.value)).Err?)
  {
    match GetBranchComponents(db, ComponentUuids(response), response)
    case Err(e) => Err(e)
    case Ok(branchesByUuid) =>
      assert BranchUuids(branchesByUuid) == branchesByUuid.Keys;
      if branchesByUuid == map[] then Ok(None)
      else
        var shortBranches := ShortBranches(db, branchesByUuid);
        if shortBranches == {} then Ok(None)
        else
          match LastAnalyses(db, ProjectUuids(shortBranches))
          case Err(e) => Err(e)
          case Ok(analysisByProjectUuid) =>
            match Activities(db, AnalysisUuids(analysisByProjectUuid))
            case Err(e) => Err(e)
            case Ok(ceActivityByAnalysisUuid) =>
              Ok(Some(Plan(branchesByUuid, shortBranches, analysisByProjectUuid, ceActivityByAnalysisUuid)))
  }

  // ------------------------------------------------------ the payload

  /** buildWebHookPayload: the branch component as a non-main short-lived branch of itself,
      without quality gate, analysis date or properties. The activity status is mapped by name;
      CANCELED has no namesake, so the supplier throws for it. */
  function BuildWebHookPayload(branch: ComponentDto, ceActivity: CeActivityDto): (r: Result<Dto.ProjectAnalysis>)
    ensures r.Err? <==> ceActivity.status == CANCELED
    ensures r.Err? ==> r.error == IllegalArgument("No enum constant org.sonar.server.webhook.CeTask.Status." + CANCELED.Name())
    ensures r.Ok? ==>
              r.value.ceTask.id == ceActivity.uuid && r.value.ceTask.status.Name() == ceActivity.status.Name() &&
              r.value.project == Dto.Project(branch.uuid, branch.dbKey, branch.name) &&
              r.value.branch == Some(Dto.Branch(false, Some(branch.name), Dto.SHORT)) &&
              r.value.qualityGate.None? && r.value.analysisDate.None? && r.value.properties == []
  {
    match Dto.CeTaskStatusValueOf(ceActivity.status.Name())
    case None => Err(IllegalArgument("No enum constant org.sonar.server.webhook.CeTask.Status." + ceActivity.status.Name()))
    case Some(status) =>
      Ok(Dto.ProjectAnalysis(
        Dto.CeTask(ceActivity.uuid, status),
        Dto.Project(branch.uuid, branch.dbKey, branch.name),
        Some(Dto.Branch(false, Some(branch.name), Dto.SHORT)),
        None,
        None,
        []))
  }

  // ------------------------------------------------------ the dispatch

  /** The request made for one short-lived branch, if its component, its project's last analysis
      and that analysis's activity are all known. */
  function RequestFor(config: Configuration, plan: Plan, shortBranch: BranchDto): (r: Option<Dto.SendRequest>)
    ensures r.Some? <==>
              shortBranch.uuid in plan.branchesByUuid && shortBranch.projectUuid in plan.analysisByProjectUuid &&
              plan.analysisByProjectUuid[shortBranch.projectUuid].uuid in plan.ceActivityByAnalysisUuid
    ensures r.Some? ==>
              var analysis := plan.analysisByProjectUuid[shortBranch.projectUuid];
              var ceActivity := plan.ceActivityByAnalysisUuid[analysis.uuid];
              r.value.config == config &&
              r.value.analysis == Analysis(shortBranch.projectUuid, Some(ceActivity.uuid), analysis.uuid) &&
              r.value.payloadInput == BuildWebHookPayload(plan.branchesByUuid[shortBranch.uuid], ceActivity)
  {
    if shortBranch.uuid in plan.branchesByUuid && shortBranch.projectUuid in plan.analysisByProjectUuid then
      var analysis := plan.analysisByProjectUuid[shortBranch.projectUuid];
      if analysis.uuid in plan.ceActivityByAnalysisUuid then
        var ceActivity := plan.ceActivityByAnalysisUuid[analysis.uuid];
        Some(Dto.SendRequest(config, Analysis(shortBranch.projectUuid, Some(ceActivity.uuid), analysis.uuid),
                             BuildWebHookPayload(plan.branchesByUuid[shortBranch.uuid], ceActivity)))
      else None
    else None
  }

  /** A short-lived branch row, the last analysis of its project and that analysis's activity. */
  predicate Joined(db: Db, b: BranchDto, s: SnapshotDto, ceActivity: CeActivityDto) {
    s in db.snapshots && s.isLast && s.componentUuid == b.projectUuid &&
    ceActivity in db.activities && ceActivity.analysisUuid == Some(s.uuid)
  }

  /** The request for a branch joined to an analysis and an activity. */
  function JoinedRequest(config: Configuration, component: ComponentDto, b: BranchDto, s: SnapshotDto,
                         ceActivity: CeActivityDto): Dto.SendRequest {
    Dto.SendRequest(config, Analysis(b.projectUuid, Some(ceActivity.uuid), s.uuid), BuildWebHookPayload(component, ceActivity))
  }

  /** In terms of the database: the component of a planned short branch is always known, and a
      request is made for the branch exactly when its project has a last analysis with an
      activity, for that analysis and activity. */
  lemma RequestForInDatabase(config: Configuration, db: Db, plan: Plan, b: BranchDto)
    requires JoinsDatabase(db, plan)
    requires b in plan.shortBranches
    ensures b.uuid in plan.branchesByUuid
    ensures RequestFor(config, plan, b).Some? <==> exists s, a :: Joined(db, b, s, a)
    ensures forall s, a :: Joined(db, b, s, a) ==>
              RequestFor(config, plan, b) == Some(JoinedRequest(config, plan.branchesByUuid[b.uuid], b, s, a))
  {
    assert b.projectUuid in ProjectUuids(plan.shortBranches);
    if RequestFor(config, plan, b).Some? {
      var s := plan.analysisByProjectUuid[b.projectUuid];
      var a := plan.ceActivityByAnalysisUuid[s.uuid];
      assert Joined(db, b, s, a);
    }
    forall s, a | Joined(db, b, s, a)
      ensures RequestFor(config, plan, b) == Some(JoinedRequest(config, plan.branchesByUuid[b.uuid], b, s, a))
    {
      assert plan.analysisByProjectUuid[b.projectUuid] == s;
      assert s.uuid in AnalysisUuids(plan.analysisByProjectUuid);
      assert plan.ceActivityByAnalysisUuid[s.uuid] == a;
    }
  }

  /** WebHooksImpl.sendProjectAnalysisUpdate calls the payload supplier once the configuration
      yields a webhook, and a supplier that cannot build its payload then throws. */
  predicate Throws(config: Configuration, request: Dto.SendRequest) {
    request.payloadInput.Err? && WebHooksImpl.LoadWebhooks(request.analysis, config) != []
  }

  predicate ThrowsFor(config: Configuration, plan: Plan, shortBranch: BranchDto) {
    RequestFor(config, plan, shortBranch).Some? && Throws(config, RequestFor(config, plan, shortBranch).value)
  }

  /** The requests made while visiting `branches` in order, up to and including the first one
      whose supplier throws. */
  function SendsFor(config: Configuration, plan: Plan, branches: seq<BranchDto>): (o: Outcome)
    ensures o.Sent? || o.Aborted?
  {
    if branches == [] then Sent([])
    else
      var o := SendsFor(config, plan, branches[..|branches| - 1]);
      if o.Aborted? then o
      else
        match RequestFor(config, plan, branches[|branches| - 1])
        case None => o
        case Some(r) =>
          if Throws(config, r) then Aborted(o.requests + [r], r.payloadInput.error)
          else Sent(o.requests + [r])
  }

  /** One visit step: a further branch adds its request, if it has one, and ends the visit if
      that request throws. */
  lemma SendsForStep(config: Configuration, plan: Plan, visited: seq<BranchDto>, b: BranchDto)
    requires SendsFor(config, plan, visited).Sent?
    ensures var o := SendsFor(config, plan, visited);
            SendsFor(config, plan, visited + [b]) ==
              match RequestFor(config, plan, b)
              case None => o
              case Some(r) => if Throws(config, r) then Aborted(o.requests + [r], r.payloadInput.error) else Sent(o.requests + [r])
  {
    assert (visited + [b])[..|visited|] == visited;
  }

  /** At most one request per visited branch, each for a visited branch, and the visit ends
      normally exactly when no visited branch's supplier throws. */
  lemma {:induction false} SendsForSpec(config: Configuration, plan: Plan, branches: seq<BranchDto>)
    ensures var o := SendsFor(config, plan, branches);
            |o.requests| <= |branches| &&
            (forall r :: r in o.requests ==> exists b :: b in branches && RequestFor(config, plan, b) == Some(r)) &&
            (o.Sent? <==> forall b :: b in branches ==> !ThrowsFor(config, plan, b))
  {
    if branches != [] {
      var init := branches[..|branches| - 1];
      var last := branches[|branches| - 1];
      SendsForSpec(config, plan, init);
      assert forall b :: b in branches <==> b in init || b == last by {
        assert branches == init + [last];
      }
    }
  }

  /** A visit that ends normally makes a request for every visited branch that qualifies. */
  lemma {:induction false} SendsForComplete(config: Configuration, plan: Plan, branches: seq<BranchDto>)
    ensures var o := SendsFor(config, plan, branches);
            o.Sent? ==> forall b :: b in branches && RequestFor(config, plan, b).Some? ==>
                          RequestFor(config, plan, b).value in o.requests
  {
    if branches != [] {
      var init := branches[..|branches| - 1];
      var last := branches[|branches| - 1];
      SendsForComplete(config, plan, init);
      assert forall b :: b in branches <==> b in init || b == last by {
        assert branches == init + [last];
      }
    }
  }

  /** A visit that aborts ends at the first request whose supplier throws, with its exception. */
  lemma {:induction false} SendsForAborted(config: Configuration, plan: Plan, branches: seq<BranchDto>)
    ensures var o := SendsFor(config, plan, branches);
            o.Aborted? ==>
              |o.requests| > 0 && Throws(config, o.requests[|o.requests| - 1]) &&
              o.error == o.requests[|o.requests| - 1].payloadInput.error &&
              forall i :: 0 <= i < |o.requests| - 1 ==> !Throws(config, o.requests[i])
  {
    if branches != [] {
      var init := branches[..|branches| - 1];
      SendsForAborted(config, plan, init);
      SendsForNoThrow(config, plan, init);
    }
  }

  /** While a visit goes on, no request made so far throws. */
  lemma {:induction false} SendsForNoThrow(config: Configuration, plan: Plan, branches: seq<BranchDto>)
    ensures var o := SendsFor(config, plan, branches);
            o.Sent? ==> forall r :: r in o.requests ==> !Throws(config, r)
  {
    if branches != [] {
      SendsForNoThrow(config, plan, branches[..|branches| - 1]);
    }
  }

  /** Once a supplier has thrown, visiting further branches changes nothing. */
  lemma {:induction false} AbortedIsFinal(config: Configuration, plan: Plan, visited: seq<BranchDto>, rest: seq<BranchDto>)
    requires SendsFor(config, plan, visited).Aborted?
    ensures SendsFor(config, plan, visited + rest) == SendsFor(config, plan, visited)
    decreases |rest|
  {
    if rest != [] {
      var init := rest[..|rest| - 1];
      AbortedIsFinal(config, plan, visited, init);
      assert visited + rest != [];
      assert (visited + rest)[..|visited + rest| - 1] == visited + init;
      assert SendsFor(config, plan, visited + init).Aborted?;
    } else {
      assert visited + rest == visited;
    }
  }

  /** A branch whose supplier throws, visited first, ends the visit: no other request is made. */
  lemma ThrowingBranchFirst(config: Configuration, plan: Plan, bad: BranchDto, rest: seq<BranchDto>)
    requires ThrowsFor(config, plan, bad)
    ensures var r := RequestFor(config, plan, bad).value;
            SendsFor(config, plan, [bad] + rest) == Aborted([r], r.payloadInput.error)
  {
    assert [bad][..0] == [];
    AbortedIsFinal(config, plan, [bad], rest);
  }

  /** The visit order decides what is sent: a qualifying request is made when its branch comes
      before a throwing one, and not when it comes after. */
  lemma OrderDecidesWhatIsSent(config: Configuration, plan: Plan, good: BranchDto, bad: BranchDto)
    requires RequestFor(config, plan, good).Some? && !ThrowsFor(config, plan, good)
    requires ThrowsFor(config, plan, bad)
    ensures RequestFor(config, plan, good).value in SendsFor(config, plan, [good, bad]).requests
    ensures RequestFor(config, plan, good).value !in SendsFor(config, plan, [bad, good]).requests
  {
    assert [good][..0] == [];
    assert SendsFor(config, plan, [good]) == Sent([RequestFor(config, plan, good).value]);
    SendsForStep(config, plan, [good], bad);
    assert [good] + [bad] == [good, bad];
    ThrowingBranchFirst(config, plan, bad, [good]);
    assert [bad] + [good] == [bad, good];
  }

  predicate NoDuplicates(s: seq<BranchDto>) {
    forall i, j :: 0 <= i < j < |s| ==> s[i] != s[j]
  }

  /** `order` visits every element of `s` exactly once. */
  ghost predicate Enumerates(order: seq<BranchDto>, s: set<BranchDto>) {
    NoDuplicates(order) && forall x :: x in order <==> x in s
  }

  /** Every finite set of branches has an order of visit. */
  lemma {:induction false} EnumerationOf(s: set<BranchDto>) returns (order: seq<BranchDto>)
    ensures Enumerates(order, s) && |order| == |s|
    decreases |s|
  {
    if s == {} {
      order := [];
    } else {
      var x :| x in s;
      var rest := EnumerationOf(s - {x});
      order := [x] + rest;
      forall i, j | 0 <= i < j < |order|
        ensures order[i] != order[j]
      {
        assert order[j] == rest[j - 1];
        if i > 0 {
          assert order[i] == rest[i - 1];
        }
      }
    }
  }

  /** What callWebHook leads to, `order` being the order its forEach visits the short branches. */
  function CallOutcome(enabled: bool, config: Configuration, db: Db, response: SearchResponseData, order: seq<BranchDto>): Outcome {
    if !enabled then Disabled
    else
      match PrepareCall(db, response)
      case Err(e) => Failed(e)
      case Ok(None) => Sent([])
      case Ok(Some(plan)) => SendsFor(config, plan, order)
  }

  /** The orders callWebHook's forEach may take: any enumeration of the short branches. */
  ghost predicate IsVisitOrder(enabled: bool, db: Db, response: SearchResponseData, order: seq<BranchDto>) {
    if enabled && PrepareCall(db, response).Ok? && PrepareCall(db, response).value.Some? then
      Enumerates(order, PrepareCall(db, response).value.value.shortBranches)
    else order == []
  }

  /** What a visit of the short branches of a plan leads to, whatever its order: at most one
      request per short branch, each for a qualifying one. When no supplier throws, exactly the
      qualifying requests are sent; otherwise the visit aborts at a throwing request, none before
      it throwing. */
  ghost predicate Visited(config: Configuration, plan: Plan, outcome: Outcome) {
    (outcome.Sent? || outcome.Aborted?) &&
    |outcome.requests| <= |plan.shortBranches| &&
    (forall r :: r in outcome.requests ==> exists b :: b in plan.shortBranches && RequestFor(config, plan, b) == Some(r)) &&
    (outcome.Sent? <==> forall b :: b in plan.shortBranches ==> !ThrowsFor(config, plan, b)) &&
    (outcome.Sent? ==> forall b :: b in plan.shortBranches && RequestFor(config, plan, b).Some? ==>
                         RequestFor(config, plan, b).value in outcome.requests) &&
    (outcome.Aborted? ==>
       |outcome.requests| > 0 && Throws(config, outcome.requests[|outcome.requests| - 1]) &&
       outcome.error == outcome.requests[|outcome.requests| - 1].payloadInput.error &&
       forall i :: 0 <= i < |outcome.requests| - 1 ==> !Throws(config, outcome.requests[i]))
  }

  /** What callWebHook leads to, whatever the visit order: nothing when disabled, the error of a
      duplicate row, no request on an early return, and otherwise a visit of the planned short
      branches. */
  ghost predicate Dispatched(enabled: bool, config: Configuration, db: Db, response: SearchResponseData, outcome: Outcome) {
    if !enabled then outcome == Disabled
    else
      match PrepareCall(db, response)
      case Err(e) => outcome == Failed(e)
      case Ok(None) => outcome == Sent([])
      case Ok(Some(plan)) => Visited(config, plan, outcome)
  }

  /** Whatever order the forEach visits the short branches in, callWebHook's outcome is one
      Dispatched allows. */
  lemma DispatchedInEveryOrder(enabled: bool, config: Configuration, db: Db, response: SearchResponseData, order: seq<BranchDto>)
    requires IsVisitOrder(enabled, db, response, order)
    ensures Dispatched(enabled, config, db, response, CallOutcome(enabled, config, db, response, order))
  {
    if enabled && PrepareCall(db, response).Ok? && PrepareCall(db, response).value.Some? {
      VisitedInEveryOrder(config, PrepareCall(db, response).value.value, order);
    }
  }

  /** Every order of visit of the short branches of a plan leads to an outcome Visited allows. */
  lemma VisitedInEveryOrder(config: Configuration, plan: Plan, order: seq<BranchDto>)
    requires Enumerates(order, plan.shortBranches)
    ensures Visited(config, plan, SendsFor(config, plan, order))
  {
    SendsForSpec(config, plan, order);
    SendsForComplete(config, plan, order);
    SendsForAborted(config, plan, order);
    NoDuplicatesLength(order, plan.shortBranches);
  }

  /** An order that visits each element of a set once is no longer than the set. */
  lemma {:induction false} NoDuplicatesLength(order: seq<BranchDto>, s: set<BranchDto>)
    requires Enumerates(order, s)
    ensures |order| == |s|
    decreases |order|
  {
    if order != [] {
      var init := order[..|order| - 1];
      var last := order[|order| - 1];
      assert order == init + [last];
      assert last !in init;
      NoDuplicatesLength(init, s - {last});
    }
  }

  /** Following the visited branches by an enumeration of the unvisited ones visits each short
      branch once. */
  lemma EnumeratesAppend(visited: seq<BranchDto>, rest: seq<BranchDto>, all: set<BranchDto>, remaining: set<BranchDto>)
    requires NoDuplicates(visited) && forall b :: b in visited <==> b in all && b !in remaining
    requires remaining <= all && Enumerates(rest, remaining)
    ensures Enumerates(visited + rest, all)
  {
    var order := visited + rest;
    forall i, j | 0 <= i < j < |order|
      ensures order[i] != order[j]
    {
      if j >= |visited| {
        assert order[j] == rest[j - |visited|];
        assert rest[j - |visited|] in rest;
        if i >= |visited| {
          assert order[i] == rest[i - |visited|];
        } else {
          assert order[i] == visited[i];
        }
      } else {
        assert order[i] == visited[i] && order[j] == visited[j];
      }
    }
  }

  /** The forEach of callWebHook: it visits the short branches in an unspecified order (the
      iteration order of a hash set) and hands the dispatcher one request for each branch that
      qualifies, until a supplier throws; the exception is not caught. */
  method VisitBranches(config: Configuration, plan: Plan) returns (outcome: Outcome, ghost order: seq<BranchDto>)
    ensures Enumerates(order, plan.shortBranches)
    ensures outcome == SendsFor(config, plan, order)
    ensures Visited(config, plan, outcome)
  {
    order := [];
    var sent: seq<Dto.SendRequest> := [];
    var thrown: Option<Error> := None;
    var remaining := plan.shortBranches;
    while remaining != {} && thrown.None?
      invariant remaining <= plan.shortBranches
      invariant NoDuplicates(order)
      invariant forall b :: b in order <==> b in plan.shortBranches && b !in remaining
      invariant SendsFor(config, plan, order) == if thrown.Some? then Aborted(sent, thrown.value) else Sent(sent)
      decreases |remaining|
    {
      var shortBranch :| shortBranch in remaining;
      SendsForStep(config, plan, order, shortBranch);
      if shortBranch.uuid in plan.branchesByUuid && shortBranch.projectUuid in plan.analysisByProjectUuid {
        var branch := plan.branchesByUuid[shortBranch.uuid];
        var analysis := plan.analysisByProjectUuid[shortBranch.projectUuid];
        if analysis.uuid in plan.ceActivityByAnalysisUuid {
          var ceActivity := plan.ceActivityByAnalysisUuid[analysis.uuid];
          var request := Dto.SendRequest(config, Analysis(shortBranch.projectUuid, Some(ceActivity.uuid), analysis.uuid),
                                         BuildWebHookPayload(branch, ceActivity));
          sent := sent + [request];
          if request.payloadInput.Err? && WebHooksImpl.LoadWebhooks(request.analysis, config) != [] {
            thrown := Some(request.payloadInput.error);
          }
        }
      }
      order := order + [shortBranch];
      remaining := remaining - {shortBranch};
    }
    if thrown.Some? {
      // the branches the forEach would have visited next
      ghost var rest := EnumerationOf(remaining);
      AbortedIsFinal(config, plan, order, rest);
      EnumeratesAppend(order, rest, plan.shortBranches, remaining);
      order := order + rest;
      outcome := Aborted(sent, thrown.value);
    } else {
      outcome := Sent(sent);
    }
    VisitedInEveryOrder(config, plan, order);
  }

  /** callWebHook: nothing when disabled; the database lookups, then the visit of the short
      branches. */
  method CallWebHook(enabled: bool, config: Configuration, db: Db, response: SearchResponseData)
    returns (outcome: Outcome, ghost order: seq<BranchDto>)
    ensures Dispatched(enabled, config, db, response, outcome)
    ensures IsVisitOrder(enabled, db, response, order)
    ensures outcome == CallOutcome(enabled, config, db, response, order)
  {
    order := [];
    if !enabled {
      return Disabled, order;
    }
    var prepared := PrepareCall(db, response);
    if prepared.Err? {
      return Failed(prepared.error), order;
    }
    if prepared.value.None? {
      return Sent([]), order;
    }
    outcome, order := VisitBranches(config, prepared.value.value);
    DispatchedInEveryOrder(enabled, config, db, response, order);
  }

  /** onTypeChange: ignored for an empty issue list or a change not made by a user. */
  method OnTypeChange(enabled: bool, config: Configuration, db: Db, response: SearchResponseData, context: IssueChangeContext)
    returns (outcome: Outcome, ghost order: seq<BranchDto>)
    ensures IsEmpty(response) || !IsUserChangeContext(context) ==> outcome == Ignored && order == []
    ensures !IsEmpty(response) && IsUserChangeContext(context) ==> Dispatched(enabled, config, db, response, outcome)
    ensures !IsEmpty(response) && IsUserChangeContext(context) ==>
              IsVisitOrder(enabled, db, response, order) && outcome == CallOutcome(enabled, config, db, response, order)
  {
    if IsEmpty(response) || !IsUserChangeContext(context) {
      return Ignored, [];
    }
    outcome, order := CallWebHook(enabled, config, db, response);
  }

  /** onTransition: ignored as well unless the transition is one of the four meaningful ones. */
  method OnTransition(enabled: bool, config: Configuration, db: Db, response: SearchResponseData,
                      transitionKey: Option<string>, context: IssueChangeContext)
    returns (outcome: Outcome, ghost order: seq<BranchDto>)
    ensures IsEmpty(response) || !IsMeaningfulTransition(transitionKey) || !IsUserChangeContext(context) ==>
              outcome == Ignored && order == []
    ensures !IsEmpty(response) && IsMeaningfulTransition(transitionKey) && IsUserChangeContext(context) ==>
              Dispatched(enabled, config, db, response, outcome)
    ensures !IsEmpty(response) && IsMeaningfulTransition(transitionKey) && IsUserChangeContext(context) ==>
              IsVisitOrder(enabled, db, response, order) && outcome == CallOutcome(enabled, config, db, response, order)
  {
    if IsEmpty(response) || !IsMeaningfulTransition(transitionKey) || !IsUserChangeContext(context) {
      return Ignored, [];
    }
    outcome, order := CallWebHook(enabled, config, db, response);
  }

  // ------------------------------------------------------ properties

  /** A null, empty or other key (confirm, unconfirm, ...) never triggers; the four do. */
  lemma MeaningfulTransitions(key: string)
    ensures !IsMeaningfulTransition(None) && !IsMeaningfulTransition(Some(""))
    ensures !IsMeaningfulTransition(Some("confirm")) && !IsMeaningfulTransition(Some("unconfirm"))
    ensures IsMeaningfulTransition(Some(key)) <==> key == "resolve" || key == "falsepositive" || key == "wontfix" || key == "reopen"
  {
  }

  /** Every request handed to the dispatcher is for a short-lived branch row of the database,
      carries that branch's project, and no more requests are made than there are short branches. */
  lemma SentRequestsAreForShortBranches(enabled: bool, config: Configuration, db: Db, response: SearchResponseData, order: seq<BranchDto>)
    requires IsVisitOrder(enabled, db, response, order)
    ensures var o := CallOutcome(enabled, config, db, response, order);
            o.Sent? || o.Aborted? ==>
              |o.requests| <= |order| &&
              forall r :: r in o.requests ==> exists b :: b in db.branches && b.branchType == SHORT && r.analysis.projectUuid == b.projectUuid
  {
    if enabled && PrepareCall(db, response).Ok? && PrepareCall(db, response).value.Some? {
      var plan := PrepareCall(db, response).value.value;
      SendsForSpec(config, plan, order);
      forall r | r in SendsFor(config, plan, order).requests
        ensures exists b :: b in db.branches && b.branchType == SHORT && r.analysis.projectUuid == b.projectUuid
      {
        var b :| b in order && RequestFor(config, plan, b) == Some(r);
        assert b in plan.shortBranches;
      }
    }
  }

  /** When no supplier throws, whatever the order of the visit, the same requests are sent: one
      for each short branch whose project has a last analysis with an activity in the database,
      for that analysis and activity. */
  lemma SentRequestsIndependentOfOrder(config: Configuration, db: Db, response: SearchResponseData, plan: Plan,
                                       order: seq<BranchDto>, r: Dto.SendRequest)
    requires PrepareCall(db, response) == Ok(Some(plan))
    requires Enumerates(order, plan.shortBranches)
    requires forall b :: b in plan.shortBranches ==> !ThrowsFor(config, plan, b)
    ensures CallOutcome(true, config, db, response, order).Sent?
    ensures r in CallOutcome(true, config, db, response, order).requests <==>
            exists b, s, a :: b in plan.shortBranches && Joined(db, b, s, a) &&
                              r == JoinedRequest(config, plan.branchesByUuid[b.uuid], b, s, a)
  {
    OutcomeOfPlan(config, db, response, plan, order);
    VisitSendsJoined(config, db, plan, order, r);
  }

  /** With a plan, callWebHook's outcome is the visit of its short branches, and the plan joins
      the database. */
  lemma OutcomeOfPlan(config: Configuration, db: Db, response: SearchResponseData, plan: Plan, order: seq<BranchDto>)
    requires PrepareCall(db, response) == Ok(Some(plan))
    ensures CallOutcome(true, config, db, response, order) == SendsFor(config, plan, order)
    ensures JoinsDatabase(db, plan)
  {
  }

  /** A visit of every short branch of a plan that joins the database, no supplier throwing,
      makes a request exactly for the joined branches. */
  lemma VisitSendsJoined(config: Configuration, db: Db, plan: Plan, order: seq<BranchDto>, r: Dto.SendRequest)
    requires JoinsDatabase(db, plan)
    requires Enumerates(order, plan.shortBranches)
    requires forall b :: b in plan.shortBranches ==> !ThrowsFor(config, plan, b)
    ensures SendsFor(config, plan, order).Sent?
    ensures r in SendsFor(config, plan, order).requests <==>
            exists b, s, a :: b in plan.shortBranches && Joined(db, b, s, a) &&
                              r == JoinedRequest(config, plan.branchesByUuid[b.uuid], b, s, a)
  {
    SendsForSpec(config, plan, order);
    SendsForComplete(config, plan, order);
    if r in SendsFor(config, plan, order).requests {
      var b :| b in order && RequestFor(config, plan, b) == Some(r);
      RequestForInDatabase(config, db, plan, b);
      var s, a :| Joined(db, b, s, a);
    }
    if exists b, s, a :: b in plan.shortBranches && Joined(db, b, s, a) &&
                         r == JoinedRequest(config, plan.branchesByUuid[b.uuid], b, s, a) {
      var b, s, a :| b in plan.shortBranches && Joined(db, b, s, a) &&
                     r == JoinedRequest(config, plan.branchesByUuid[b.uuid], b, s, a);
      RequestForInDatabase(config, db, plan, b);
    }
  }

  /** The supplier for a short branch whose project's last analysis has a CANCELED activity
      throws once a webhook is configured for its request. */
  lemma CanceledActivityThrows(config: Configuration, db: Db, plan: Plan, b: BranchDto, s: SnapshotDto, a: CeActivityDto)
    requires JoinsDatabase(db, plan)
    requires b in plan.shortBranches && Joined(db, b, s, a) && a.status == CANCELED
    requires WebHooksImpl.LoadWebhooks(Analysis(b.projectUuid, Some(a.uuid), s.uuid), config) != []
    ensures ThrowsFor(config, plan, b)
  {
    RequestForInDatabase(config, db, plan, b);
  }

  /** A supplier that throws throws the IllegalArgumentException of CeTask.Status.valueOf for
      CANCELED. */
  lemma ThrownError(config: Configuration, plan: Plan, b: BranchDto)
    requires ThrowsFor(config, plan, b)
    ensures RequestFor(config, plan, b).value.payloadInput.error ==
            IllegalArgument("No enum constant org.sonar.server.webhook.CeTask.Status." + CANCELED.Name())
  {
  }

  /** A short branch whose project's last analysis has a CANCELED activity aborts the dispatch in
      every order of visit, once a webhook is configured for its request: the supplier's
      IllegalArgumentException leaves callWebHook. */
  lemma CanceledActivityAbortsDispatch(config: Configuration, db: Db, response: SearchResponseData, plan: Plan,
                                       order: seq<BranchDto>, b: BranchDto, s: SnapshotDto, a: CeActivityDto)
    requires PrepareCall(db, response) == Ok(Some(plan))
    requires Enumerates(order, plan.shortBranches)
    requires b in plan.shortBranches && Joined(db, b, s, a) && a.status == CANCELED
    requires WebHooksImpl.LoadWebhooks(Analysis(b.projectUuid, Some(a.uuid), s.uuid), config) != []
    ensures CallOutcome(true, config, db, response, order).Aborted?
    ensures CallOutcome(true, config, db, response, order).error ==
            IllegalArgument("No enum constant org.sonar.server.webhook.CeTask.Status." + CANCELED.Name())
  {
    OutcomeOfPlan(config, db, response, plan, order);
    CanceledActivityThrows(config, db, plan, b, s, a);
    VisitAborts(config, plan, order, b);
  }

  /** A visit that reaches a throwing branch aborts with the exception of a CANCELED activity. */
  lemma VisitAborts(config: Configuration, plan: Plan, order: seq<BranchDto>, b: BranchDto)
    requires b in order && ThrowsFor(config, plan, b)
    ensures SendsFor(config, plan, order).Aborted?
    ensures SendsFor(config, plan, order).error ==
            IllegalArgument("No enum constant org.sonar.server.webhook.CeTask.Status." + CANCELED.Name())
  {
    var o := SendsFor(config, plan, order);
    SendsForSpec(config, plan, order);
    assert !o.Sent?;
    SendsForAborted(config, plan, order);
    var last := o.requests[|o.requests| - 1];
    assert last in o.requests;
    var c :| c in order && RequestFor(config, plan, c) == Some(last);
    ThrownError(config, plan, c);
  }

  /** getBranchComponents is asymmetric: with no missing component a component without a main
      branch project is kept, while as soon as one component is missing it is dropped. */
  lemma BranchComponentsAsymmetry()
    ensures var project := ComponentDto("p", "key", "name", None);
            var response := SearchResponseData([IssueDto("i", "p")], [project]);
            GetBranchComponents(Db([], [], [], []), {"p"}, response) == Ok(map["p" := project]) &&
            GetBranchComponents(Db([], [], [], []), {"p", "q"}, response) == Ok(map[])
  {
    var project := ComponentDto("p", "key", "name", None);
    var response := SearchResponseData([IssueDto("i", "p")], [project]);
    assert (set c | c in response.components :: c.uuid) == {"p"};
    assert MissingUuids({"p"}, response) == {};
    assert MissingUuids({"p", "q"}, response) == {"q"};
    assert MergedComponents(Db([], [], [], []), {"p", "q"}, response) == [];
  }
}
