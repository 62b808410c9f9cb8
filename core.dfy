// Shared value types: optional values, results standing in for Python
// exceptions, and the real-valued 3-vectors / quaternions / wrenches that
// travel between the host engine and the remote fluid solver.

module Core {

  datatype Option<+T> = None | Some(value: T)
  {
    function GetOr(default: T): T
    {
      if Some? then value else default
    }
  }

  /** A Python call that either returns a value or raises. */
  datatype Outcome<+T> = Returned(value: T) | Raised

  datatype Vec3 = Vec3(x: real, y: real, z: real)

  const Zero3: Vec3 := Vec3(0.0, 0.0, 0.0)

  function Add3(a: Vec3, b: Vec3): Vec3
  {
    Vec3(a.x + b.x, a.y + b.y, a.z + b.z)
  }

  function Neg3(a: Vec3): Vec3
  {
    Vec3(-a.x, -a.y, -a.z)
  }

  /** Quaternion in (w, x, y, z) order, as the engine and the remote both use. */
  datatype Quat = Quat(w: real, x: real, y: real, z: real)

  const IdentityQuat: Quat := Quat(1.0, 0.0, 0.0, 0.0)

  /** A force together with a torque, the unit the host accumulates per site. */
  datatype Wrench = Wrench(force: Vec3, torque: Vec3)

  const ZeroWrench: Wrench := Wrench(Zero3, Zero3)

  function AddW(a: Wrench, b: Wrench): Wrench
  {
    Wrench(Add3(a.force, b.force), Add3(a.torque, b.torque))
  }

  function NegW(a: Wrench): Wrench
  {
    Wrench(Neg3(a.force), Neg3(a.torque))
  }

  lemma AddZero(a: Wrench)
    ensures AddW(a, ZeroWrench) == a
  {
  }

  lemma NegZeroAdd(a: Wrench)
    ensures AddW(NegW(ZeroWrench), a) == a
  {
    NegZeroAddAt(ZeroWrench, a);
  }

  // Stated over a variable: with the literal zero the solver gets lost
  // evaluating the negation.
  lemma NegZeroAddAt(z: Wrench, a: Wrench)
    requires z == ZeroWrench
    ensures AddW(NegW(z), a) == a
  {
  }

  lemma AddNegCancels(l: Wrench, a: Wrench)
    ensures AddW(AddW(l, NegW(l)), a) == a
  {
  }

  // ---------------------------------------------------------------------
  // Python dictionaries: insertion-ordered association lists

  /** `d.get(k)`: the value stored for `k` (the last pair for `k`, which is
      the only one in a list built by `DictPut`). */
  function DictGet<K(==), V>(d: seq<(K, V)>, k: K): Option<V>
  {
    if d == [] then None
    else if d[|d| - 1].0 == k then Some(d[|d| - 1].1)
    else DictGet(d[..|d| - 1], k)
  }

  function DictKeys<K, V>(d: seq<(K, V)>): (r: seq<K>)
    ensures |r| == |d|
    ensures forall i :: 0 <= i < |d| ==> r[i] == d[i].0
  {
    if d == [] then [] else DictKeys(d[..|d| - 1]) + [d[|d| - 1].0]
  }

  /** `d[k] = v`: an existing key keeps its place, a new key goes last. */
  function DictPut<K(==,!new), V>(d: seq<(K, V)>, k: K, v: V): (r: seq<(K, V)>)
    ensures DictGet(r, k) == Some(v)
    ensures forall j :: j != k ==> DictGet(r, j) == DictGet(d, j)
    ensures DictKeys(r) == if k in DictKeys(d) then DictKeys(d) else DictKeys(d) + [k]
  {
    if d == [] then [(k, v)]
    else
      var init, last := d[..|d| - 1], d[|d| - 1];
      assert d == init + [last];
      assert DictKeys(d) == DictKeys(init) + [last.0];
      if k !in DictKeys(d) then
        assert (d + [(k, v)])[..|d|] == d;
        d + [(k, v)]
      else if last.0 == k then
        assert (init + [(k, v)])[..|d| - 1] == init;
        init + [(k, v)]
      else
        var r' := DictPut(init, k, v);
        assert (r' + [last])[..|r'|] == r';
        assert DictKeys(r' + [last]) == DictKeys(r') + [last.0];
        r' + [last]
  }

  /** The dictionary built by assigning the pairs in order. */
  function DictOf<K(==,!new), V>(pairs: seq<(K, V)>): seq<(K, V)>
  {
    if pairs == [] then [] else DictPut(DictOf(pairs[..|pairs| - 1]), pairs[|pairs| - 1].0, pairs[|pairs| - 1].1)
  }

  /** Building a dictionary keeps, for every key, the value of its last
      assignment, and every key once. */
  lemma {:induction false} DictOfLastWins<K(!new), V>(pairs: seq<(K, V)>, k: K)
    ensures DictGet(DictOf(pairs), k) == DictGet(pairs, k)
    decreases |pairs|
  {
    if pairs != [] {
      DictOfLastWins(pairs[..|pairs| - 1], k);
    }
  }

  predicate DistinctKeys<K(==), V>(d: seq<(K, V)>)
  {
    forall i, j :: 0 <= i < j < |d| ==> d[i].0 != d[j].0
  }

  /** With distinct keys, each pair is what its key looks up. */
  lemma {:induction false} DictGetDistinct<K, V>(d: seq<(K, V)>, i: nat)
    requires DistinctKeys(d) && i < |d|
    ensures DictGet(d, d[i].0) == Some(d[i].1)
    decreases |d|
  {
    if i < |d| - 1 {
      DictGetDistinct(d[..|d| - 1], i);
    }
  }

  lemma DictOfSnoc<K(!new), V>(pairs: seq<(K, V)>, p: (K, V))
    ensures DictOf(pairs + [p]) == DictPut(DictOf(pairs), p.0, p.1)
    ensures DictKeys(pairs + [p]) == DictKeys(pairs) + [p.0]
  {
    assert (pairs + [p])[..|pairs|] == pairs;
  }

  /** Looking a key up in a concatenation: the later part wins. */
  lemma {:induction false} DictGetAppend<K(!new), V>(a: seq<(K, V)>, b: seq<(K, V)>, k: K)
    ensures DictGet(a + b, k) == if DictGet(b, k).Some? then DictGet(b, k) else DictGet(a, k)
    decreases |b|
  {
    if b == [] {
      assert a + b == a;
    } else {
      assert (a + b)[..|a + b| - 1] == a + b[..|b| - 1];
      DictGetAppend(a, b[..|b| - 1], k);
    }
  }

  // ---------------------------------------------------------------------
  // JSON configuration values

  /** A decoded JSON value; objects keep their key order. */
  datatype Json =
    | JNull
    | JBool(b: bool)
    | JNum(n: int)
    | JStr(s: string)
    | JList(items: seq<Json>)
    | JObj(fields: seq<(string, Json)>)

  /** `d.get(key, default)` on a JSON object. */
  function Get(fields: seq<(string, Json)>, key: string, default: Json): Json
  {
    DictGet(fields, key).GetOr(default)
  }

  /** Python truthiness of a JSON value: null, false, zero and empty
      texts, lists and objects are false. */
  predicate Truthy(j: Json)
  {
    match j
    case JNull => false
    case JBool(b) => b
    case JNum(n) => n != 0
    case JStr(s) => s != []
    case JList(items) => items != []
    case JObj(fields) => fields != []
  }

  lemma ConcatAssoc<T>(a: seq<T>, b: seq<T>, c: seq<T>)
    ensures a + (b + c) == (a + b) + c
  {
  }
}
