/** Insertion-ordered maps with string keys, the shape of a JavaScript object
    literal whose keys are enumerated in insertion order. A map is a sequence
    of key/value pairs; `Assign` is the JavaScript `obj[key] = value`. */
module OrderedMap {
  import opened Wrappers

  type OMap<V> = seq<(string, V)>

  /** The set of keys bound in `m`. */
  function KeySet<V>(m: OMap<V>): set<string> {
    set i | 0 <= i < |m| :: m[i].0
  }

  /** No key is bound twice. */
  predicate UniqueKeys<V>(m: OMap<V>) {
    forall i, j :: 0 <= i < j < |m| ==> m[i].0 != m[j].0
  }

  /** Reading `m[key]`: the value of the first binding of `key`. */
  function Get<V>(m: OMap<V>, key: string): Option<V> {
    if |m| == 0 then None
    else if m[0].0 == key then Some(m[0].1)
    else Get(m[1..], key)
  }

  /** The position of the first binding of `key`. */
  function IndexOf<V>(m: OMap<V>, key: string): (r: Option<nat>)
    ensures r.None? <==> key !in KeySet(m)
    ensures r.Some? ==> r.value < |m| && m[r.value].0 == key
    ensures r.Some? ==> forall j :: 0 <= j < r.value ==> m[j].0 != key
    decreases |m|
  {
    if |m| == 0 then None
    else if m[0].0 == key then Some(0)
    else
      KeySetCons(m[0], m[1..]);
      assert [m[0]] + m[1..] == m;
      match IndexOf(m[1..], key)
      case None => None
      case Some(j) => Some(j + 1)
  }

  /** `m[key] = value`: a key already present keeps its position and takes
      the new value; a new key is appended at the end. */
  function Assign<V>(m: OMap<V>, key: string, value: V): (r: OMap<V>)
    ensures KeySet(r) == KeySet(m) + {key}
    ensures key in KeySet(m) ==> |r| == |m|
    ensures key !in KeySet(m) ==> r == m + [(key, value)]
    ensures forall i :: 0 <= i < |m| && m[i].0 != key ==> r[i] == m[i]
    ensures forall i :: 0 <= i < |r| ==> r[i] == (key, value) || (i < |m| && r[i] == m[i])
    ensures UniqueKeys(m) ==> UniqueKeys(r)
  {
    match IndexOf(m, key)
    case None =>
      var r := m + [(key, value)];
      assert KeySet(r) == KeySet(m) + {key} by {
        forall k | k in KeySet(r) ensures k in KeySet(m) + {key} {
          var i :| 0 <= i < |r| && r[i].0 == k;
          if i < |m| { assert m[i].0 == k; }
        }
        assert r[|m|].0 == key;
        forall k | k in KeySet(m) ensures k in KeySet(r) {
          var i :| 0 <= i < |m| && m[i].0 == k;
          assert r[i].0 == k;
        }
      }
      r
    case Some(i) =>
      var r := m[i := (key, value)];
      assert KeySet(r) == KeySet(m) by {
        forall k | k in KeySet(r) ensures k in KeySet(m) {
          var j :| 0 <= j < |r| && r[j].0 == k;
          assert m[j].0 == k;
        }
        forall k | k in KeySet(m) ensures k in KeySet(r) {
          var j :| 0 <= j < |m| && m[j].0 == k;
          assert r[j].0 == k;
        }
      }
      r
  }

  lemma KeySetCons<V>(p: (string, V), m: OMap<V>)
    ensures KeySet([p] + m) == {p.0} + KeySet(m)
  {
    var r := [p] + m;
    forall k | k in KeySet(r) ensures k in {p.0} + KeySet(m) {
      var i :| 0 <= i < |r| && r[i].0 == k;
      if i > 0 { assert m[i - 1].0 == k; }
    }
    forall k | k in KeySet(m) ensures k in KeySet(r) {
      var i :| 0 <= i < |m| && m[i].0 == k;
      assert r[i + 1].0 == k;
    }
    assert r[0].0 == p.0;
  }

  /** After `m[key] = value`, reading `key` gives `value` and every other
      key reads as before. */
  lemma {:induction false} GetIndexOf<V>(m: OMap<V>, key: string)
    ensures Get(m, key) == (match IndexOf(m, key) case None => None case Some(i) => Some(m[i].1))
    decreases |m|
  {
    if |m| > 0 && m[0].0 != key {
      GetIndexOf(m[1..], key);
    }
  }

  lemma AssignThenGet<V>(m: OMap<V>, key: string, value: V, other: string)
    ensures Get(Assign(m, key, value), key) == Some(value)
    ensures other != key ==> Get(Assign(m, key, value), other) == Get(m, other)
  {
    var r := Assign(m, key, value);
    GetIndexOf(r, key);
    GetIndexOf(m, other);
    GetIndexOf(r, other);
    var ik := IndexOf(m, key);
    var rk := IndexOf(r, key);
    if ik.Some? {
      assert rk.Some? && rk.value == ik.value;
    } else {
      assert rk.Some? && rk.value == |m|;
    }
    if other != key {
      var io := IndexOf(m, other);
      var ro := IndexOf(r, other);
      if io.Some? {
        assert ro.Some? && ro.value == io.value;
      } else {
        assert ro.None?;
      }
    }
  }
}
