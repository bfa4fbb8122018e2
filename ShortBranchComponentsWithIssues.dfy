/** The branch-merge lookup cache (.../projectanalysis/component/ShortBranchComponentsWithIssues.java):
    for the analysis of a long-lived branch, the uuids of the short-lived-branch components that
    have issues to merge, grouped by component key with the branch part stripped. The map is
    loaded from the database on the first lookup and kept for every later one.

    The database query is a function of the analysis uuid; the branch of the analysis is given
    by its type. */
module ShortBranchComponentsWithIssues {
  import opened Wrappers
  import opened DbModel

  /** ComponentDto.BRANCH_KEY_SEPARATOR: a branch component's key is the project component's key,
      this separator and the branch name. */
  const BRANCH_KEY_SEPARATOR: string := ":BRANCH:"

  /** A row of componentDao.selectComponentKeysHavingIssuesToMerge. */
  datatype KeyWithUuid = KeyWithUuid(key: string, uuid: string)

  // ------------------------------------------------------ StringUtils.substringBeforeLast

  /** `sep` occurs in `str` starting at index `j`. */
  predicate OccursAt(str: string, sep: string, j: int) {
    0 <= j && j + |sep| <= |str| && str[j..j + |sep|] == sep
  }

  /** The greatest index below `bound` at which `sep` occurs, if any. */
  function LastIndexBelow(str: string, sep: string, bound: int): (r: Option<nat>)
    ensures r.Some? ==> r.value < bound && OccursAt(str, sep, r.value)
    ensures r.Some? ==> forall j :: r.value < j < bound ==> !OccursAt(str, sep, j)
    ensures r.None? ==> forall j :: j < bound ==> !OccursAt(str, sep, j)
    decreases bound
  {
    if bound <= 0 then None
    else if OccursAt(str, sep, bound - 1) then Some(bound - 1)
    else LastIndexBelow(str, sep, bound - 1)
  }

  /** String.lastIndexOf for a non-empty separator, None standing for -1. */
  function LastIndexOf(str: string, sep: string): Option<nat> {
    LastIndexBelow(str, sep, |str| - |sep| + 1)
  }

  /** The part of `str` before the last occurrence of `sep`; `str` itself when either is empty
      or when `sep` does not occur. */
  function SubstringBeforeLast(str: string, sep: string): (r: string)
    ensures r <= str
    ensures |str| == 0 || |sep| == 0 ==> r == str
    ensures |str| > 0 && |sep| > 0 ==> (r == str <==> forall j :: !OccursAt(str, sep, j))
    ensures r != str ==> OccursAt(str, sep, |r|) && forall j :: |r| < j ==> !OccursAt(str, sep, j)
  {
    if |str| == 0 || |sep| == 0 then str
    else
      match LastIndexOf(str, sep)
      case None => str
      case Some(pos) => str[..pos]
  }

  /** removeBranchFromKey */
  function RemoveBranchFromKey(componentKey: string): string {
    SubstringBeforeLast(componentKey, BRANCH_KEY_SEPARATOR)
  }

  /** Stripping gives back the project key of a branch component whose branch name has no ':',
      and leaves a key without the separator unchanged. */
  lemma RemoveBranchFromBranchKey(projectKey: string, branchName: string)
    requires ':' !in branchName
    ensures RemoveBranchFromKey(projectKey + BRANCH_KEY_SEPARATOR + branchName) == projectKey
  {
    var sep := BRANCH_KEY_SEPARATOR;
    var str := projectKey + sep + branchName;
    var n := |projectKey|;
    assert str[n..n + |sep|] == sep;
    assert OccursAt(str, sep, n);
    forall j | n < j
      ensures !OccursAt(str, sep, j)
    {
      if j + |sep| <= |str| {
        assert str[j..j + |sep|][0] == str[j] && str[j..j + |sep|][7] == str[j + 7];
        if j >= n + |sep| {
          assert str[j] == branchName[j - n - |sep|];
        } else if j < n + 7 {
          assert str[j] == sep[j - n];
        } else {
          assert str[j + 7] == branchName[6];
        }
      }
    }
    var r := RemoveBranchFromKey(str);
    assert r != str;
    assert |r| == n;
  }

  /** A key in which the separator does not occur is its own stripped key. */
  lemma RemoveBranchFromPlainKey(componentKey: string)
    requires forall j :: !OccursAt(componentKey, BRANCH_KEY_SEPARATOR, j)
    ensures RemoveBranchFromKey(componentKey) == componentKey
  {
  }

  // ------------------------------------------------------ the grouping

  function GetOrEmpty(m: map<string, set<string>>, key: string): set<string> {
    if key in m then m[key] else {}
  }

  /** What loadUuidsByKey's loop has built after the given components: each uuid added to the
      set under its component's stripped key. */
  function Group(components: seq<KeyWithUuid>): map<string, set<string>> {
    if components == [] then map[]
    else
      var m := Group(components[..|components| - 1]);
      var c := components[|components| - 1];
      var k := RemoveBranchFromKey(c.key);
      m[k := GetOrEmpty(m, k) + {c.uuid}]
  }

  /** Components whose stripped keys coincide accumulate into one set and nothing is
      overwritten: a uuid is under a key exactly when some component with that stripped key has
      it; no key holds an empty set. */
  lemma {:induction false} GroupSpec(components: seq<KeyWithUuid>)
    ensures forall k, u :: u in GetOrEmpty(Group(components), k) <==>
              exists c :: c in components && RemoveBranchFromKey(c.key) == k && c.uuid == u
    ensures forall k :: k in Group(components) ==> Group(components)[k] != {}
  {
    if components != [] {
      var init := components[..|components| - 1];
      var last := components[|components| - 1];
      GroupSpec(init);
      assert forall c :: c in components <==> c in init || c == last by {
        assert components == init + [last];
      }
      var m := Group(init);
      var lastKey := RemoveBranchFromKey(last.key);
      forall k, u
        ensures u in GetOrEmpty(Group(components), k) <==>
                exists c :: c in components && RemoveBranchFromKey(c.key) == k && c.uuid == u
      {
        if k == lastKey {
          assert GetOrEmpty(Group(components), k) == GetOrEmpty(m, k) + {last.uuid};
        } else {
          assert GetOrEmpty(Group(components), k) == GetOrEmpty(m, k);
        }
      }
    }
  }

  /** The map holds exactly the stripped keys of the components. */
  lemma GroupKeys(components: seq<KeyWithUuid>)
    ensures forall k :: k in Group(components) <==> exists c :: c in components && RemoveBranchFromKey(c.key) == k
  {
    GroupSpec(components);
    forall k | k in Group(components)
      ensures exists c :: c in components && RemoveBranchFromKey(c.key) == k
    {
      var u :| u in Group(components)[k];
      assert u in GetOrEmpty(Group(components), k);
    }
    forall k | exists c :: c in components && RemoveBranchFromKey(c.key) == k
      ensures k in Group(components)
    {
      var c :| c in components && RemoveBranchFromKey(c.key) == k;
      assert c.uuid in GetOrEmpty(Group(components), k);
    }
  }

  /** The map the cache holds once loaded: empty unless the analysed branch is long-lived. */
  function Loaded(branchType: BranchType, rows: seq<KeyWithUuid>): map<string, set<string>> {
    if branchType != LONG then map[] else Group(rows)
  }

  // ------------------------------------------------------ the cache

  class ShortBranchComponentsWithIssues {
    /** The analysis uuid. */
    const uuid: string
    const branchType: BranchType
    /** componentDao.selectComponentKeysHavingIssuesToMerge, by analysis uuid. */
    const selectComponentKeysHavingIssuesToMerge: string -> seq<KeyWithUuid>
    /** null until the first lookup. */
    var uuidsByKey: Option<map<string, set<string>>>
    /** How many times the database was read. */
    ghost var loads: nat

    /** The map the cache holds once loaded. */
    function Expected(): map<string, set<string>> {
      Loaded(branchType, selectComponentKeysHavingIssuesToMerge(uuid))
    }

    /** The cache is empty or holds what the database gave. */
    ghost predicate Valid()
      reads this
    {
      uuidsByKey.None? || uuidsByKey.value == Expected()
    }

    constructor(uuid: string, branchType: BranchType, select: string -> seq<KeyWithUuid>)
      ensures this.uuid == uuid && this.branchType == branchType
      ensures selectComponentKeysHavingIssuesToMerge == select
      ensures uuidsByKey.None? && loads == 0
      ensures Valid()
    {
      this.uuid := uuid;
      this.branchType := branchType;
      selectComponentKeysHavingIssuesToMerge := select;
      uuidsByKey := None;
      loads := 0;
    }

    /** loadUuidsByKey: empty for a branch that is not long-lived; otherwise one database read,
        each returned component's uuid added under its stripped key. */
    method LoadUuidsByKey()
      modifies this
      ensures uuidsByKey == Some(Expected())
      ensures loads == old(loads) + (if branchType == LONG then 1 else 0)
    {
      if branchType != LONG {
        uuidsByKey := Some(map[]);
        return;
      }
      var m: map<string, set<string>> := map[];
      var components := selectComponentKeysHavingIssuesToMerge(uuid);
      loads := loads + 1;
      var i := 0;
      while i < |components|
        invariant 0 <= i <= |components|
        invariant m == Group(components[..i])
      {
        var dto := components[i];
        var key := RemoveBranchFromKey(dto.key);
        var uuids := if key in m then m[key] else {};
        m := m[key := uuids + {dto.uuid}];
        assert components[..i + 1][..i] == components[..i];
        i := i + 1;
      }
      assert components[..|components|] == components;
      uuidsByKey := Some(m);
    }

    /** getUuids: the uuids stored under the key, empty for an unknown key; the first call
        loads the map and no later call reads the database again. */
    method GetUuids(componentKey: string) returns (uuids: set<string>)
      requires Valid()
      modifies this
      ensures Valid() && uuidsByKey == Some(Expected())
      ensures uuids == GetOrEmpty(Expected(), componentKey)
      ensures old(uuidsByKey).Some? ==> loads == old(loads)
      ensures loads <= old(loads) + 1
    {
      if uuidsByKey.None? {
        LoadUuidsByKey();
      }
      var m := uuidsByKey.value;
      uuids := if componentKey in m then m[componentKey] else {};
    }
  }

  /** What a lookup returns: for a long-lived branch, exactly the uuids of the returned
      components whose stripped key is the key; nothing at all for any other branch. */
  lemma LookupSpec(branchType: BranchType, rows: seq<KeyWithUuid>, componentKey: string, u: string)
    ensures branchType != LONG ==> GetOrEmpty(Loaded(branchType, rows), componentKey) == {}
    ensures branchType == LONG ==>
              (u in GetOrEmpty(Loaded(branchType, rows), componentKey) <==>
               exists c :: c in rows && RemoveBranchFromKey(c.key) == componentKey && c.uuid == u)
  {
    GroupSpec(rows);
  }
}
