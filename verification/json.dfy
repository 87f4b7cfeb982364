/** The decoded JSON values the portal sends, as Python holds them after `json.loads`. */
module Json {
  import opened Wrappers

  /** A JSON value. Objects keep their members in document order; floating-point numbers are not
      part of the model. */
  datatype Json =
    | JNull
    | JBool(b: bool)
    | JInt(i: int)
    | JStr(s: string)
    | JArr(items: seq<Json>)
    | JObj(members: seq<(string, Json)>)

  type Members = seq<(string, Json)>

  /** A flat dictionary from field name to value, the shape of a parsed zone record. */
  type Record = map<string, Json>

  /** The value a Python dict built from `ms` holds under `k`: the last member named `k` wins,
      exactly as `json.loads` resolves repeated keys. */
  function Get(ms: Members, k: string): Option<Json>
  {
    if |ms| == 0 then None
    else if ms[|ms| - 1].0 == k then Some(ms[|ms| - 1].1)
    else Get(ms[..|ms| - 1], k)
  }

  /** Some member of `ms` is named `k`. */
  predicate HasKey(ms: Members, k: string)
  {
    exists i :: 0 <= i < |ms| && ms[i].0 == k
  }

  /** Member `i` is the last one named `k`. */
  predicate LastWithKey(ms: Members, k: string, i: int)
  {
    0 <= i < |ms| && ms[i].0 == k && forall j :: i < j < |ms| ==> ms[j].0 != k
  }

  /** `Get` finds a key exactly when some member carries it. */
  lemma {:induction false} GetFindsKey(ms: Members, k: string)
    ensures Get(ms, k).Some? <==> HasKey(ms, k)
  {
    if |ms| > 0 && ms[|ms| - 1].0 != k {
      var init := ms[..|ms| - 1];
      GetFindsKey(init, k);
      if HasKey(ms, k) {
        var i :| 0 <= i < |ms| && ms[i].0 == k;
        assert init[i].0 == k;
      }
      if HasKey(init, k) {
        var i :| 0 <= i < |init| && init[i].0 == k;
        assert ms[i].0 == k;
      }
    }
  }

  /** When `Get` finds a key, its value is that of the last member carrying the key. */
  lemma {:induction false} GetIsLastMember(ms: Members, k: string)
    requires Get(ms, k).Some?
    ensures exists i :: LastWithKey(ms, k, i) && ms[i].1 == Get(ms, k).value
  {
    var n := |ms| - 1;
    if ms[n].0 == k {
      assert LastWithKey(ms, k, n);
    } else {
      var init := ms[..n];
      GetIsLastMember(init, k);
      var i :| LastWithKey(init, k, i) && init[i].1 == Get(init, k).value;
      assert ms[i] == init[i];
      assert LastWithKey(ms, k, i);
    }
  }

  /** `j[k]` in Python: defined only when `j` is an object holding `k`; indexing anything else
      raises, which is the `None` case. */
  function Member(j: Json, k: string): Option<Json>
  {
    if j.JObj? then Get(j.members, k) else None
  }

  /** `dict(ms)`: the dictionary holds exactly the keys that occur in `ms`, each with the value
      `Get` finds. */
  function ToMap(ms: Members): (m: Record)
    ensures forall k :: k in m <==> Get(ms, k).Some?
    ensures forall k :: k in m ==> m[k] == Get(ms, k).value
  {
    if |ms| == 0 then map[]
    else ToMap(ms[..|ms| - 1])[ms[|ms| - 1].0 := ms[|ms| - 1].1]
  }

  /** Python truthiness of a decoded JSON value. */
  predicate Truthy(j: Json)
  {
    match j
    case JNull => false
    case JBool(b) => b
    case JInt(i) => i != 0
    case JStr(s) => |s| > 0
    case JArr(items) => |items| > 0
    case JObj(ms) => |ms| > 0
  }

  /** Any value reachable by indexing is held by a non-empty object, so it was truthy. */
  lemma MemberOfTruthy(j: Json, k: string)
    requires Member(j, k).Some?
    ensures Truthy(j)
  {
  }
}
