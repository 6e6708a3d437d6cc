/** Small vocabulary shared by the models. */
module Common {

  datatype Option<+T> = None | Some(value: T)

  /** A channel, identified by its full dotted name. */
  datatype Channel = Channel(name: string)

  function Max(a: int, b: int): int {
    if a < b then b else a
  }

  predicate NoDuplicates<T(==)>(xs: seq<T>) {
    forall i, j :: 0 <= i < j < |xs| ==> xs[i] != xs[j]
  }

  function Elements<T>(xs: seq<T>): set<T> {
    set x | x in xs
  }

  lemma {:induction false} AppendFresh<T>(xs: seq<T>, x: T)
    requires NoDuplicates(xs) && x !in xs
    ensures NoDuplicates(xs + [x])
    ensures Elements(xs + [x]) == Elements(xs) + {x}
  {
  }

  /** Go's iteration over a set: every element once, in an arbitrary order. */
  method ListOf<T(==)>(s: set<T>) returns (result: seq<T>)
    ensures NoDuplicates(result) && Elements(result) == s
  {
    result := [];
    var todo := s;
    while todo != {}
      invariant NoDuplicates(result) && Elements(result) !! todo && Elements(result) + todo == s
    {
      var x :| x in todo;
      assert x !in Elements(result);
      AppendFresh(result, x);
      result := result + [x];
      todo := todo - {x};
    }
  }

  /** The keys whose value satisfies `p`. */
  function Where<K, V>(m: map<K, V>, p: V -> bool): set<K> {
    set k | k in m && p(m[k])
  }

  function One(b: bool): nat {
    if b then 1 else 0
  }

  /** Updating one key moves the count by what the old and the new value contribute. */
  lemma {:induction false} WhereUpdate<K, V>(m: map<K, V>, p: V -> bool, k: K, v: V)
    ensures |Where(m[k := v], p)| == |Where(m, p)| - One(k in m && p(m[k])) + One(p(v))
  {
    var before, after := Where(m, p), Where(m[k := v], p);
    forall x ensures x in after - {k} <==> x in before - {k} {
    }
    assert after - {k} == before - {k};
    SizeWithout(before, k);
    SizeWithout(after, k);
  }

  lemma {:induction false} SizeWithout<T>(s: set<T>, x: T)
    ensures |s| == |s - {x}| + One(x in s)
  {
    if x in s {
      assert s == (s - {x}) + {x};
    } else {
      assert s == s - {x};
    }
  }

  lemma {:induction false} NothingLeft<T>(a: set<T>, b: set<T>)
    requires a - b == {}
    ensures a <= b
  {
    forall x | x in a ensures x in b {
      assert x in b || x in a - b;
    }
  }

  function Image<K, V>(keys: set<K>, m: map<K, V>): set<V>
    requires keys <= m.Keys
  {
    set k | k in keys :: m[k]
  }

  /** The image of a set of keys has one element per key when the map is injective on them. */
  lemma {:induction false} ImageSize<K, V>(keys: set<K>, m: map<K, V>)
    requires keys <= m.Keys
    requires forall j, k :: j in keys && k in keys && m[j] == m[k] ==> j == k
    ensures |Image(keys, m)| == |keys|
  {
    if keys == {} {
    } else {
      var k :| k in keys;
      ImageSize(keys - {k}, m);
      assert Image(keys, m) == Image(keys - {k}, m) + {m[k]};
    }
  }
}
