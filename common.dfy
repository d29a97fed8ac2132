/** Small value types shared by every part of the lighting model: optional values,
    configuration values that may be a scalar or a list, and sequence helpers. */
module Common {

  datatype Option<+T> = None | Some(value: T) {
    function GetOr(default: T): T {
      match this
      case Some(v) => v
      case None => default
    }
  }

  /** A light or switch is either on or off; commands and echo expectations use the same words. */
  datatype Power = On | Off

  /** A configuration entry as the configuration file delivers it: missing, a single
      value, or a list of values (apps/lights.py:10-15 accepts all three). */
  datatype ConfigValue<T> = Absent | Scalar(item: T) | Items(items: seq<T>)

  /** `x` is one of the values the configuration entry names. */
  predicate Names<T(==)>(v: ConfigValue<T>, x: T) {
    match v
    case Absent => false
    case Scalar(y) => x == y
    case Items(xs) => x in xs
  }

  /** `_as_list`: the list holds exactly the values the entry names; a list is
      kept as it is (order and repetitions included), and anything else gives
      at most one element. */
  function AsList<T(==,!new)>(v: ConfigValue<T>): (r: seq<T>)
    ensures forall x :: x in r <==> Names(v, x)
    ensures v.Items? ==> r == v.items
    ensures !v.Items? ==> |r| <= 1
  {
    match v
    case Absent => []
    case Scalar(x) => [x]
    case Items(xs) => xs
  }

  /** Python truthiness of a textual configuration value: missing, the empty
      string and the empty list are false. */
  predicate TruthyText(v: ConfigValue<string>) {
    match v
    case Absent => false
    case Scalar(s) => s != ""
    case Items(xs) => xs != []
  }

  /** A truthy textual value always normalises to a non-empty list. */
  lemma TruthyTextNonEmpty(v: ConfigValue<string>)
    requires TruthyText(v)
    ensures AsList(v) != []
  {
  }

  /** Python truthiness of an optional string setting (`if self._al_switch:`). */
  predicate Configured(o: Option<string>) {
    o.Some? && o.value != ""
  }

  /** The value stored under `k`, as `dict.get` returns it. */
  function Get<K, V>(m: map<K, V>, k: K): (r: Option<V>)
    ensures r.Some? <==> k in m
    ensures r.Some? ==> r.value == m[k]
  {
    if k in m then Some(m[k]) else None
  }

  predicate NoDups<T(==)>(s: seq<T>) {
    forall i, j :: 0 <= i < j < |s| ==> s[i] != s[j]
  }

  /** Position of the first occurrence of `x` in `s`. */
  function FirstIndex<T(==)>(s: seq<T>, x: T): (k: nat)
    requires x in s
    ensures k < |s| && s[k] == x
    ensures forall j :: 0 <= j < k ==> s[j] != x
  {
    if s[0] == x then 0 else 1 + FirstIndex(s[1..], x)
  }

  /** `list(dict.fromkeys(s))`: the distinct elements of `s` in the order of
      their first occurrence. */
  function Dedup<T(==)>(s: seq<T>): (r: seq<T>)
    ensures NoDups(r)
    ensures forall i :: 0 <= i < |r| ==> r[i] in s
    ensures forall i :: 0 <= i < |s| ==> s[i] in r
    ensures |r| <= |s|
  {
    if s == [] then []
    else
      var r0 := Dedup(s[..|s| - 1]);
      if s[|s| - 1] in r0 then r0 else r0 + [s[|s| - 1]]
  }

  /** A sequence without repetitions is left as it is. */
  lemma {:induction false} DedupOfDistinct<T>(s: seq<T>)
    requires NoDups(s)
    ensures Dedup(s) == s
  {
    if s != [] {
      var p := s[..|s| - 1];
      assert NoDups(p);
      DedupOfDistinct(p);
      assert s[|s| - 1] !in p;
      assert p + [s[|s| - 1]] == s;
    }
  }

  lemma {:induction false} FirstIndexInPrefix<T>(s: seq<T>, k: nat, x: T)
    requires k <= |s| && x in s[..k]
    ensures x in s && FirstIndex(s, x) == FirstIndex(s[..k], x) < k
  {
    if s[0] != x {
      assert s[1..][..k - 1] == s[..k][1..];
      FirstIndexInPrefix(s[1..], k - 1, x);
    }
  }

  /** The distinct elements keep the order of their first occurrences. */
  lemma {:induction false} DedupKeepsFirstOccurrenceOrder<T>(s: seq<T>)
    ensures forall i, j :: 0 <= i < j < |Dedup(s)| ==> FirstIndex(s, Dedup(s)[i]) < FirstIndex(s, Dedup(s)[j])
  {
    if s != [] {
      var n := |s|;
      var p := s[..n - 1];
      var r0 := Dedup(p);
      DedupKeepsFirstOccurrenceOrder(p);
      assert s[..n - 1] == p;
      forall x | x in r0
        ensures FirstIndex(s, x) == FirstIndex(p, x) < n - 1
      {
        FirstIndexInPrefix(s, n - 1, x);
      }
      var r := Dedup(s);
      forall i, j | 0 <= i < j < |r|
        ensures FirstIndex(s, r[i]) < FirstIndex(s, r[j])
      {
        assert r[i] == r0[i] && r0[i] in r0;
        if j < |r0| {
          assert r[j] == r0[j] && r0[j] in r0;
        } else {
          assert s[n - 1] !in p;
          assert FirstIndex(s, s[n - 1]) == n - 1;
        }
      }
    }
  }

  /** `for l in ls: m[l] = v`: every key of `ls` now maps to `v`. */
  function Assign<K, V>(m: map<K, V>, ls: seq<K>, v: V): map<K, V> {
    if ls == [] then m else Assign(m, ls[..|ls| - 1], v)[ls[|ls| - 1] := v]
  }

  /** After the assignment loop every listed key maps to the value, and every
      other key keeps its old entry (or its absence). */
  lemma {:induction false} AssignLookup<K, V>(m: map<K, V>, ls: seq<K>, v: V, k: K)
    ensures k in ls ==> k in Assign(m, ls, v) && Assign(m, ls, v)[k] == v
    ensures k !in ls ==> (k in Assign(m, ls, v) <==> k in m)
    ensures k !in ls && k in m ==> Assign(m, ls, v)[k] == m[k]
  {
    if ls != [] {
      var p := ls[..|ls| - 1];
      AssignLookup(m, p, v, k);
      assert k in ls <==> k in p || k == ls[|ls| - 1];
    }
  }

  /** Removing a key never adds a value. */
  lemma ValuesOfRemoval<K, V>(m: map<K, V>, k: K)
    ensures (m - {k}).Values <= m.Values
  {
    forall v | v in (m - {k}).Values ensures v in m.Values {
      var j :| j in m - {k} && (m - {k})[j] == v;
      assert m[j] == v;
    }
  }

  /** Setting a key adds at most the new value. */
  lemma ValuesOfUpdate<K, V>(m: map<K, V>, k: K, v: V)
    ensures m[k := v].Values <= m.Values + {v}
  {
    forall x | x in m[k := v].Values ensures x in m.Values + {v} {
      var j :| j in m[k := v] && m[k := v][j] == x;
      if j != k {
        assert m[j] == x;
      }
    }
  }
}
