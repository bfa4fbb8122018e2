/** The WebHooks service contract (server/sonar-server .../webhook/WebHooks.java): the Analysis
    identity a dispatch is made for, and the values a dispatch works with: the key/value
    configuration, a configured webhook, the payload and the record of one delivery. */
module WebHooks {
  import opened Wrappers
  import opened Json

  /** Java's int arithmetic: the value congruent to x modulo 2^32 in [-2^31, 2^31). */
  function ToInt32(x: int): (r: int)
    ensures -0x8000_0000 <= r < 0x8000_0000
    ensures (x - r) % 0x1_0000_0000 == 0
  {
    var m := x % 0x1_0000_0000;
    if m >= 0x8000_0000 then m - 0x1_0000_0000 else m
  }

  /** String.hashCode: h = 31 * h + c over the characters, in 32-bit arithmetic. */
  function StringHashCode(s: string): (h: int)
    ensures -0x8000_0000 <= h < 0x8000_0000
  {
    if s == [] then 0 else ToInt32(31 * StringHashCode(s[..|s| - 1]) + s[|s| - 1] as int)
  }

  /** Objects.hashCode(a, b, ...) = Arrays.hashCode: r = 31 * r + hash(e) from r = 1, a null hashing to 0. */
  function ArraysHashCode(elements: seq<Option<string>>): (h: int)
    ensures -0x8000_0000 <= h < 0x8000_0000
  {
    if elements == [] then 1
    else
      var last := elements[|elements| - 1];
      ToInt32(31 * ArraysHashCode(elements[..|elements| - 1]) + (if last.Some? then StringHashCode(last.value) else 0))
  }

  /** WebHooks.Analysis: the project, the (nullable) Compute Engine task and the analysis a
      dispatch is about. */
  datatype Analysis = Analysis(projectUuid: string, ceTaskUuid: Option<string>, analysisUuid: string) {
    /** equals(): projectUuid, ceTaskUuid and analysisUuid compared. */
    function Equals(that: Analysis): (r: bool)
      ensures r <==> this == that
    {
      projectUuid == that.projectUuid && ceTaskUuid == that.ceTaskUuid && analysisUuid == that.analysisUuid
    }

    /** hashCode(): Objects.hashCode(projectUuid, ceTaskUuid, analysisUuid). */
    function HashCode(): (h: int)
      ensures -0x8000_0000 <= h < 0x8000_0000
    {
      ArraysHashCode([Some(projectUuid), ceTaskUuid, Some(analysisUuid)])
    }
  }

  /** new Analysis(projectUuid, analysisUuid, ceTaskUuid): the two uuids are checked for null, in
      that order; the getters then return the arguments. */
  function NewAnalysis(projectUuid: Option<string>, analysisUuid: Option<string>, ceTaskUuid: Option<string>): (r: Result<Analysis>)
    ensures r.Ok? <==> projectUuid.Some? && analysisUuid.Some?
    ensures r.Ok? ==> (r.value.projectUuid == projectUuid.value &&
                       r.value.analysisUuid == analysisUuid.value &&
                       r.value.ceTaskUuid == ceTaskUuid)
    ensures projectUuid.None? ==> r == Err(NullPointer("projectUuid can't be null"))
    ensures projectUuid.Some? && analysisUuid.None? ==> r == Err(NullPointer("analysisUuid can't be null"))
  {
    if projectUuid.None? then Err(NullPointer("projectUuid can't be null"))
    else if analysisUuid.None? then Err(NullPointer("analysisUuid can't be null"))
    else Ok(Analysis(projectUuid.value, ceTaskUuid, analysisUuid.value))
  }

  /** Equal analyses have equal hash codes, as the equals/hashCode contract demands. */
  lemma EqualAnalysesHashEqually(a: Analysis, b: Analysis)
    requires a.Equals(b)
    ensures a.HashCode() == b.HashCode()
  {
  }

  /** Two analyses built by the constructor are equal exactly when their three arguments are. */
  lemma NewAnalysisEquality(p1: string, a1: string, c1: Option<string>, p2: string, a2: string, c2: Option<string>)
    ensures NewAnalysis(Some(p1), Some(a1), c1).value.Equals(NewAnalysis(Some(p2), Some(a2), c2).value)
            <==> p1 == p2 && a1 == a2 && c1 == c2
  {
  }

  /** The settings a dispatch reads: single values by key, and string arrays (the ids of the
      webhooks declared in a scope) by key; an absent array is empty. */
  datatype Configuration = Configuration(values: map<string, string>, arrays: map<string, seq<string>>) {
    function Get(key: string): (r: Option<string>)
      ensures r.Some? <==> key in values
    {
      if key in values then Some(values[key]) else None
    }

    function GetStringArray(key: string): (r: seq<string>)
      ensures key !in arrays ==> r == []
    {
      if key in arrays then arrays[key] else []
    }
  }

  /** One configured endpoint, bound to the analysis it is called for. */
  datatype Webhook = Webhook(projectUuid: string, ceTaskUuid: Option<string>, analysisUuid: string, name: string, url: string)

  /** The document posted to every endpoint of one dispatch. */
  datatype Payload = Payload(projectKey: string, body: Json)

  /** What one call produced: the HTTP status, duration and error are the caller's business. */
  datatype Delivery = Delivery(webhook: Webhook, payload: Payload, httpStatus: Option<int>,
                               durationMs: Option<int>, errorMessage: Option<string>, at: int)
}
