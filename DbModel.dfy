/** The database rows the issue-change trigger reads (ComponentDto, BranchDto, SnapshotDto,
    CeActivityDto and IssueDto of sonar-db, which are not part of this model beyond the fields
    used), the tables as sequences in storage order, the DAO queries as filters over them, and
    MoreCollectors.uniqueIndex. */
module DbModel {
  import opened Wrappers

  datatype ComponentDto = ComponentDto(uuid: string, dbKey: string, name: string, mainBranchProjectUuid: Option<string>)

  datatype BranchType = LONG | SHORT

  datatype BranchDto = BranchDto(uuid: string, projectUuid: string, branchType: BranchType)

  datatype SnapshotDto = SnapshotDto(uuid: string, componentUuid: string, isLast: bool)

  datatype CeActivityStatus = SUCCESS | FAILED | CANCELED {
    function Name(): string {
      match this
      case SUCCESS => "SUCCESS"
      case FAILED => "FAILED"
      case CANCELED => "CANCELED"
    }
  }

  datatype CeActivityDto = CeActivityDto(uuid: string, analysisUuid: Option<string>, status: CeActivityStatus)

  datatype IssueDto = IssueDto(key: string, componentUuid: string)

  datatype Db = Db(components: seq<ComponentDto>, branches: seq<BranchDto>, snapshots: seq<SnapshotDto>,
                   activities: seq<CeActivityDto>)
  {
    /** componentDao.selectByUuids */
    function ComponentsByUuids(uuids: set<string>): (r: seq<ComponentDto>)
      ensures forall c :: c in r <==> c in components && c.uuid in uuids
    {
      Filter(components, (c: ComponentDto) => c.uuid in uuids)
    }

    /** branchDao.selectByUuids */
    function BranchesByUuids(uuids: set<string>): (r: seq<BranchDto>)
      ensures forall b :: b in r <==> b in branches && b.uuid in uuids
    {
      Filter(branches, (b: BranchDto) => b.uuid in uuids)
    }

    /** snapshotDao.selectLastAnalysesByRootComponentUuids */
    function LastAnalysesByRootComponentUuids(uuids: set<string>): (r: seq<SnapshotDto>)
      ensures forall s :: s in r <==> s in snapshots && s.isLast && s.componentUuid in uuids
    {
      Filter(snapshots, (s: SnapshotDto) => s.isLast && s.componentUuid in uuids)
    }

    /** ceActivityDao.selectByAnalysisUuids */
    function ActivitiesByAnalysisUuids(uuids: set<string>): (r: seq<CeActivityDto>)
      ensures forall a :: a in r <==> a in activities && a.analysisUuid.Some? && a.analysisUuid.value in uuids
    {
      Filter(activities, (a: CeActivityDto) => a.analysisUuid.Some? && a.analysisUuid.value in uuids)
    }
  }

  /** The elements satisfying p, in their order. */
  function Filter<T(!new)>(s: seq<T>, p: T -> bool): (r: seq<T>)
    ensures |r| <= |s|
    ensures forall x :: x in r <==> x in s && p(x)
  {
    if s == [] then []
    else Filter(s[..|s| - 1], p) + (if p(s[|s| - 1]) then [s[|s| - 1]] else [])
  }

  predicate DistinctKeys<T>(s: seq<T>, key: T -> string) {
    forall i, j :: 0 <= i < j < |s| ==> key(s[i]) != key(s[j])
  }

  /** MoreCollectors.uniqueIndex: the map from each element's key to the element; it throws
      IllegalArgumentException, carrying the key, at the first element whose key was already seen. */
  function UniqueIndex<T(!new)>(s: seq<T>, key: T -> string): (r: Result<map<string, T>>)
    ensures r.Ok? <==> DistinctKeys(s, key)
    ensures r.Ok? ==> r.value.Keys == set x | x in s :: key(x)
    ensures r.Ok? ==> forall i :: 0 <= i < |s| ==> r.value[key(s[i])] == s[i]
  {
    if s == [] then Ok(map[])
    else
      var init := s[..|s| - 1];
      var last := s[|s| - 1];
      assert forall x :: x in s <==> x in init || x == last by {
        assert s == init + [last];
      }
      match UniqueIndex(init, key)
      case Err(e) => Err(e)
      case Ok(m) =>
        if key(last) in m then Err(IllegalArgument(key(last)))
        else Ok(m[key(last) := last])
  }

  /** The values of a unique index are exactly the indexed elements. */
  lemma UniqueIndexValues<T(!new)>(s: seq<T>, key: T -> string)
    requires UniqueIndex(s, key).Ok?
    ensures forall x :: x in UniqueIndex(s, key).value.Values <==> x in s
  {
    var m := UniqueIndex(s, key).value;
    forall x | x in m.Values
      ensures x in s
    {
      var k :| k in m && m[k] == x;
      var y :| y in s && key(y) == k;
      var i :| 0 <= i < |s| && s[i] == y;
      assert m[key(s[i])] == s[i];
    }
    forall x | x in s
      ensures x in m.Values
    {
      var i :| 0 <= i < |s| && s[i] == x;
      assert m[key(s[i])] == s[i];
    }
  }

  /** Each indexed element is found under its own key, and each key finds an indexed element
      that carries it. */
  lemma UniqueIndexLookup<T(!new)>(s: seq<T>, key: T -> string)
    requires UniqueIndex(s, key).Ok?
    ensures forall x :: x in s ==> key(x) in UniqueIndex(s, key).value && UniqueIndex(s, key).value[key(x)] == x
    ensures forall k :: k in UniqueIndex(s, key).value ==>
              UniqueIndex(s, key).value[k] in s && key(UniqueIndex(s, key).value[k]) == k
  {
    var m := UniqueIndex(s, key).value;
    forall x | x in s
      ensures key(x) in m && m[key(x)] == x
    {
      var i :| 0 <= i < |s| && s[i] == x;
      assert m[key(s[i])] == s[i];
    }
    forall k | k in m
      ensures m[k] in s && key(m[k]) == k
    {
      var x :| x in s && key(x) == k;
      var i :| 0 <= i < |s| && s[i] == x;
      assert m[key(s[i])] == s[i];
    }
  }
}
