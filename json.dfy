/** JSON values as `json.loads` produces them, and the few Python operations the
    pipeline applies to them: truthiness, `dict.get`, `{**d}`, `d.values()` and
    `for x in v`. */
module JsonValue {
  import opened Wrappers

  /** An object is its members in insertion order, as a Python dict keeps them.
      Python's `None` and JSON `null` are the same value, `Null`. */
  datatype Json =
    | Null
    | Bool(b: bool)
    | Num(n: real)
    | Str(s: string)
    | Arr(items: seq<Json>)
    | Obj(members: seq<(string, Json)>)

  /** A row of the report table: a copy of one event dict. */
  type Row = map<string, Json>

  /** Python truthiness: `None`, `False`, zero and empty containers are false. */
  predicate Truthy(j: Json) {
    match j
    case Null => false
    case Bool(b) => b
    case Num(n) => n != 0.0
    case Str(s) => s != []
    case Arr(xs) => xs != []
    case Obj(ms) => ms != []
  }

  /** The set of keys of an object. */
  function KeySet(ms: seq<(string, Json)>): set<string> {
    set i | 0 <= i < |ms| :: ms[i].0
  }

  /** `d.get(key)`: the last value bound to `key`, or `None` when there is none. */
  function Get(ms: seq<(string, Json)>, key: string): (v: Json)
    ensures key !in KeySet(ms) ==> v == Null
    ensures v != Null ==> exists i :: 0 <= i < |ms| && ms[i] == (key, v)
    decreases |ms|
  {
    if ms == [] then Null
    else if ms[|ms| - 1].0 == key then ms[|ms| - 1].1
    else
      assert KeySet(ms[..|ms| - 1]) <= KeySet(ms) by {
        forall k | k in KeySet(ms[..|ms| - 1]) ensures k in KeySet(ms) {
          var i :| 0 <= i < |ms| - 1 && ms[..|ms| - 1][i].0 == k;
          assert ms[i].0 == k;
        }
      }
      Get(ms[..|ms| - 1], key)
  }

  /** The last binding of a key is the one `get` finds. */
  lemma {:induction false} GetLastBinding(ms: seq<(string, Json)>, i: int)
    requires 0 <= i < |ms|
    requires forall j :: i < j < |ms| ==> ms[j].0 != ms[i].0
    ensures Get(ms, ms[i].0) == ms[i].1
    decreases |ms|
  {
    if i < |ms| - 1 {
      var init := ms[..|ms| - 1];
      assert init[i] == ms[i];
      GetLastBinding(init, i);
    }
  }

  /** `{**d}`: the dict as a map; for a repeated key the last binding wins. */
  function ToMap(ms: seq<(string, Json)>): (r: Row)
    ensures r.Keys == KeySet(ms)
    ensures forall k :: k in r ==> r[k] == Get(ms, k)
    decreases |ms|
  {
    if ms == [] then map[]
    else
      var init := ms[..|ms| - 1];
      assert KeySet(ms) == KeySet(init) + {ms[|ms| - 1].0} by {
        forall k | k in KeySet(ms) ensures k in KeySet(init) + {ms[|ms| - 1].0} {
          var i :| 0 <= i < |ms| && ms[i].0 == k;
          if i < |ms| - 1 { assert init[i].0 == k; }
        }
        forall k | k in KeySet(init) ensures k in KeySet(ms) {
          var i :| 0 <= i < |init| && init[i].0 == k;
          assert ms[i].0 == k;
        }
      }
      ToMap(init)[ms[|ms| - 1].0 := ms[|ms| - 1].1]
  }

  /** `list(d.values())` */
  function Values(ms: seq<(string, Json)>): (vs: seq<Json>)
    ensures |vs| == |ms| && forall i :: 0 <= i < |ms| ==> vs[i] == ms[i].1
  {
    seq(|ms|, i requires 0 <= i < |ms| => ms[i].1)
  }

  /** The single-character strings of `s`, which `for c in s` visits. */
  function Chars(s: string): (cs: seq<Json>)
    ensures |cs| == |s| && forall i :: 0 <= i < |s| ==> cs[i] == Str([s[i]])
  {
    seq(|s|, i requires 0 <= i < |s| => Str([s[i]]))
  }

  /** The object's keys, which `for k in d` visits. */
  function KeyStrings(ms: seq<(string, Json)>): (ks: seq<Json>)
    ensures |ks| == |ms| && forall i :: 0 <= i < |ms| ==> ks[i] == Str(ms[i].0)
  {
    seq(|ms|, i requires 0 <= i < |ms| => Str(ms[i].0))
  }

  /** What `for x in v` visits; `None` when `v` is not iterable (a TypeError). */
  function Iterate(v: Json): (r: Option<seq<Json>>)
    ensures r.None? <==> (v.Null? || v.Bool? || v.Num?)
    ensures v.Arr? ==> r == Some(v.items)
  {
    match v
    case Arr(xs) => Some(xs)
    case Obj(ms) => Some(KeyStrings(ms))
    case Str(s) => Some(Chars(s))
    case _ => None
  }
}
