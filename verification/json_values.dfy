/**
 The JSON values the request bodies are marshalled from. A Go struct with `json`
 tags becomes an object whose members appear in field order under the tag names;
 turning such a value into bytes is left to an abstract `marshal` function.
 */
module JsonValues {
  import opened Results

  datatype Json = JString(str: string) | JObject(members: seq<Member>)

  datatype Member = Member(key: string, value: Json)

  /** The value of the first member named `key`. */
  function Lookup(ms: seq<Member>, key: string): (r: Option<Json>)
    ensures r.None? <==> forall i :: 0 <= i < |ms| ==> ms[i].key != key
    ensures r.Some? ==>
      exists i :: 0 <= i < |ms| && ms[i].key == key && ms[i].value == r.value
                  && forall j :: 0 <= j < i ==> ms[j].key != key
  {
    if |ms| == 0 then None
    else if ms[0].key == key then Some(ms[0].value)
    else Lookup(ms[1..], key)
  }

  /** The first member named `key` determines the lookup. */
  lemma {:induction false} LookupFirst(ms: seq<Member>, key: string, i: nat)
    requires i < |ms| && ms[i].key == key
    requires forall j :: 0 <= j < i ==> ms[j].key != key
    ensures Lookup(ms, key) == Some(ms[i].value)
  {
    if i > 0 {
      assert ms[0].key != key;
      LookupFirst(ms[1..], key, i - 1);
    }
  }

  /** The member names of an object, in order; a string has none. */
  function Keys(j: Json): (ks: seq<string>)
    ensures j.JString? ==> ks == []
    ensures j.JObject? ==> forall k :: k in ks <==> Lookup(j.members, k).Some?
  {
    match j
    case JString(_) => []
    case JObject(ms) =>
      var ks := seq(|ms|, i requires 0 <= i < |ms| => ms[i].key);
      NamesAreLookups(ms, ks);
      ks
  }

  /** A name lists a member exactly when looking it up finds a value. */
  lemma NamesAreLookups(ms: seq<Member>, ks: seq<string>)
    requires |ks| == |ms| && forall i :: 0 <= i < |ms| ==> ks[i] == ms[i].key
    ensures forall k :: k in ks <==> Lookup(ms, k).Some?
  {
    forall k | Lookup(ms, k).Some?
      ensures k in ks
    {
      var i :| 0 <= i < |ms| && ms[i].key == k;
      assert ks[i] == k;
    }
  }

  /** The value at `path`: each step selects a member of the current object. */
  function At(j: Json, path: seq<string>): (r: Option<Json>)
    ensures path == [] ==> r == Some(j)
    ensures path != [] && r.Some? ==> path[0] in Keys(j)
    decreases |path|
  {
    if path == [] then Some(j)
    else
      match j
      case JString(_) => None
      case JObject(ms) =>
        match Lookup(ms, path[0])
        case None => None
        case Some(v) => At(v, path[1..])
  }

  /** A one-step path finds the value of the first member with that name. */
  lemma AtMember(j: Json, key: string, i: nat)
    requires j.JObject? && i < |j.members| && j.members[i].key == key
    requires forall k :: 0 <= k < i ==> j.members[k].key != key
    ensures At(j, [key]) == Some(j.members[i].value)
  {
    LookupFirst(j.members, key, i);
    assert [key][1..] == [];
  }

  /** The object has a member named `key`. */
  predicate HasKey(j: Json, key: string)
  {
    key in Keys(j)
  }
}
