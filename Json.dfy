/** The JSON document a webhook payload is made of, as a tree, and the streaming
    writer the payload builder appends to. Character-level serialisation, escaping and the
    ISO-8601 formatting of dates are not part of this model: a date is its epoch milliseconds. */
module Json {
  import opened Wrappers

  datatype Json =
    | JString(s: string)
    | JBool(b: bool)
    | JDateTime(epochMillis: int)
    | JArray(items: seq<Json>)
    | JObject(members: seq<Member>)

  datatype Member = Member(key: string, value: Json)

  /** The value of the first member named `key`, if any. */
  function Lookup(ms: seq<Member>, key: string): (r: Option<Json>)
    ensures r.None? <==> forall i :: 0 <= i < |ms| ==> ms[i].key != key
    ensures r.Some? ==> exists i :: 0 <= i < |ms| && ms[i] == Member(key, r.value)
  {
    if ms == [] then None
    else if ms[0].key == key then Some(ms[0].value)
    else Lookup(ms[1..], key)
  }

  predicate HasKey(ms: seq<Member>, key: string) {
    Lookup(ms, key).Some?
  }

  /** Looking up in a concatenation looks in the left part first. */
  lemma {:induction false} LookupAppend(a: seq<Member>, b: seq<Member>, key: string)
    ensures Lookup(a + b, key) == if Lookup(a, key).Some? then Lookup(a, key) else Lookup(b, key)
  {
    if a == [] {
      assert a + b == b;
    } else {
      assert (a + b)[0] == a[0];
      assert (a + b)[1..] == a[1..] + b;
      LookupAppend(a[1..], b, key);
    }
  }

  /** The member names of an object, in order. */
  function Keys(ms: seq<Member>): (keys: seq<string>)
    ensures |keys| == |ms|
    ensures forall i :: 0 <= i < |ms| ==> keys[i] == ms[i].key
  {
    seq(|ms|, i requires 0 <= i < |ms| => ms[i].key)
  }

  predicate DistinctKeys(ms: seq<Member>) {
    forall i, j :: 0 <= i < j < |ms| ==> ms[i].key != ms[j].key
  }

  lemma KeysAppend(a: seq<Member>, b: seq<Member>)
    ensures Keys(a + b) == Keys(a) + Keys(b)
  {
  }

  /** A nullable string property: the writer skips a property whose value is null. */
  function NullableProp(key: string, value: Option<string>): (ms: seq<Member>)
    ensures |ms| <= 1
    ensures Lookup(ms, key) == (if value.Some? then Some(JString(value.value)) else None)
  {
    match value
    case Some(v) => [Member(key, JString(v))]
    case None => []
  }

  /** The members of the JSON object a writer is currently filling, in write order. */
  class JsonWriter {
    var members: seq<Member>

    constructor ()
      ensures members == []
    {
      members := [];
    }

    method Prop(key: string, value: Json)
      modifies this
      ensures members == old(members) + [Member(key, value)]
    {
      members := members + [Member(key, value)];
    }

    method PropNullable(key: string, value: Option<string>)
      modifies this
      ensures members == old(members) + NullableProp(key, value)
    {
      if value.Some? {
        members := members + [Member(key, JString(value.value))];
      }
    }
  }
}
