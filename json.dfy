/**
 * The JSON data model that serde serialises into: the tree of values that
 * `serde_json` writes as text. Object members keep the order in which the
 * serialiser emits them.
 */
module Json {
  import opened Wrappers

  /** A JSON number that carries a binary float, kept by its IEEE-754 bits. */
  datatype FloatBits = Single(bits32: bv32) | Double(bits64: bv64)

  datatype Json =
    | Null
    | Bool(b: bool)
    | Integer(i: int)
    | Float(f: FloatBits)
    | Str(s: string)
    | Array(items: seq<Json>)
    | Object(members: seq<(string, Json)>)

  function Keys(ms: seq<(string, Json)>): (ks: seq<string>)
    ensures |ks| == |ms|
    ensures forall i :: 0 <= i < |ms| ==> ks[i] == ms[i].0
  {
    seq(|ms|, i requires 0 <= i < |ms| => ms[i].0)
  }

  predicate Distinct<T(==)>(s: seq<T>)
  {
    forall i, j :: 0 <= i < j < |s| ==> s[i] != s[j]
  }

  /** The value of the first member named `k`, as a reader of the object finds it. */
  function Lookup(ms: seq<(string, Json)>, k: string): Option<Json>
  {
    if ms == [] then None
    else if ms[0].0 == k then Some(ms[0].1)
    else Lookup(ms[1..], k)
  }

  lemma {:induction false} LookupAbsent(ms: seq<(string, Json)>, k: string)
    requires forall i :: 0 <= i < |ms| ==> ms[i].0 != k
    ensures Lookup(ms, k) == None
  {
    if ms != [] {
      LookupAbsent(ms[1..], k);
    }
  }

  /** In an object whose keys are distinct, looking a member's key up finds that member's value. */
  lemma {:induction false} LookupDistinct(ms: seq<(string, Json)>, i: nat)
    requires Distinct(Keys(ms))
    requires i < |ms|
    ensures Lookup(ms, ms[i].0) == Some(ms[i].1)
  {
    if i > 0 {
      assert Keys(ms)[0] != Keys(ms)[i];
      assert Keys(ms[1..]) == Keys(ms)[1..];
      LookupDistinct(ms[1..], i - 1);
    }
  }
}
