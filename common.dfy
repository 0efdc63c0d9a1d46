/** Shared vocabulary of the publisher model: optional values, the insertion
    order of JavaScript `Set` and `Map`, and comma-joined request parameters. */
module Common {

  datatype Option<T> = None | Some(value: T)

  /** The outcome of a call that either returns a value or throws. */
  datatype Result<T, E> = Ok(value: T) | Err(error: E)

  /** A map lookup that yields `undefined` (here `None`) for a missing key. */
  function Lookup<K(==), V>(m: map<K, V>, k: K): Option<V> {
    if k in m then Some(m[k]) else None
  }

  function Abs(x: int): nat { if x < 0 then -x else x }

  /** A non-zero multiple of `b` is at least as far from zero as `b`. */
  lemma MulAbsAtLeast(k: int, b: int)
    requires k != 0
    ensures Abs(k * b) >= Abs(b)
  {
    var m: nat, n: nat := Abs(k), Abs(b);
    assert m * n == (m - 1) * n + n;
    assert (m - 1) * n >= 0;
    if k < 0 && b < 0 {
      assert k * b == m * n;
    } else if k < 0 {
      assert k * b == -(m * n);
    } else if b < 0 {
      assert k * b == -(m * n);
    } else {
      assert k * b == m * n;
    }
  }

  /** Euclidean division is determined by its remainder's range. */
  lemma DivModUnique(a: int, b: int, q: int, r: int)
    requires b > 0 && 0 <= r < b && a == q * b + r
    ensures a / b == q && a % b == r
  {
    var q0, r0 := a / b, a % b;
    assert (q - q0) * b == r0 - r;
    if q != q0 {
      MulAbsAtLeast(q - q0, b);
    }
  }

  predicate Distinct<T(==)>(s: seq<T>) {
    forall i, j :: 0 <= i < j < |s| ==> s[i] != s[j]
  }

  /** Position of the first occurrence of `x` in `s`. */
  function IndexOf<T(==)>(s: seq<T>, x: T): (i: nat)
    requires x in s
    ensures i < |s| && s[i] == x && x !in s[..i]
  {
    if x in s[..|s| - 1] then IndexOf(s[..|s| - 1], x) else |s| - 1
  }

  /** The elements of `s`, each once, in the order a JavaScript `Set` built
      from `s` iterates them (first occurrence first). */
  function Dedup<T(==)>(s: seq<T>): (r: seq<T>)
  {
    if s == [] then []
    else
      var d := Dedup(s[..|s| - 1]);
      if s[|s| - 1] in d then d else d + [s[|s| - 1]]
  }

  /** `Dedup` keeps every element of its input and adds none. */
  lemma {:induction false} DedupElems<T>(s: seq<T>)
    ensures forall x :: x in Dedup(s) ==> x in s
    ensures forall x :: x in s ==> x in Dedup(s)
  {
    if s != [] {
      var p := s[..|s| - 1];
      DedupElems(p);
      assert s == p + [s[|s| - 1]];
    }
  }

  /** `Dedup` repeats no element. */
  lemma {:induction false} DedupDistinct<T>(s: seq<T>)
    ensures Distinct(Dedup(s))
  {
    if s != [] {
      var p := s[..|s| - 1];
      DedupDistinct(p);
      var d := Dedup(p);
      if s[|s| - 1] !in d {
        var r := d + [s[|s| - 1]];
        forall i, j | 0 <= i < j < |r| ensures r[i] != r[j] {
          if j == |r| - 1 { assert r[i] in d; }
        }
      }
    }
  }

  /** `Dedup` lists elements in the order of their first occurrence. */
  lemma {:induction false} DedupOrder<T>(s: seq<T>, i: nat, j: nat)
    requires i < j < |Dedup(s)|
    ensures Dedup(s)[i] in s && Dedup(s)[j] in s
    ensures IndexOf(s, Dedup(s)[i]) < IndexOf(s, Dedup(s)[j])
  {
    var p := s[..|s| - 1];
    assert s == p + [s[|s| - 1]];
    var d := Dedup(p);
    if j < |d| {
      DedupOrder(p, i, j);
    } else {
      DedupElems(p);
      assert d[i] in Dedup(p);
      assert IndexOf(s, s[|s| - 1]) == |s| - 1;
    }
  }

  /** `Array.prototype.join(sep)` over strings. */
  function Join(xs: seq<string>, sep: char): string
  {
    if |xs| == 0 then ""
    else if |xs| == 1 then xs[0]
    else xs[0] + [sep] + Join(xs[1..], sep)
  }

  /** `String.prototype.split(sep)` for a one-character separator: the pieces
      between separators, so never an empty list. */
  function Split(s: string, sep: char): (r: seq<string>)
    ensures |r| >= 1
  {
    if s == [] then [""]
    else if s[0] == sep then [""] + Split(s[1..], sep)
    else
      var rest := Split(s[1..], sep);
      [[s[0]] + rest[0]] + rest[1..]
  }

  lemma {:induction false} SplitPiece(a: string, b: string, sep: char)
    requires sep !in a
    ensures Split(a + [sep] + b, sep) == [a] + Split(b, sep)
  {
    if a == [] {
      assert a + [sep] + b == [sep] + b;
    } else {
      assert a[0] in a;
      assert (a + [sep] + b)[0] == a[0] != sep;
      assert (a + [sep] + b)[1..] == a[1..] + [sep] + b;
      SplitPiece(a[1..], b, sep);
      assert [a[0]] + a[1..] == a;
    }
  }

  lemma {:induction false} SplitWhole(a: string, sep: char)
    requires sep !in a
    ensures Split(a, sep) == [a]
  {
    if a != [] {
      assert a[0] in a;
      SplitWhole(a[1..], sep);
      assert [a[0]] + a[1..] == a;
    }
  }

  /** A comma-joined parameter list is read back as the same list, provided
      there is at least one element and no element holds the separator. */
  lemma {:induction false} SplitJoin(xs: seq<string>, sep: char)
    requires |xs| > 0
    requires forall x :: x in xs ==> sep !in x
    ensures Split(Join(xs, sep), sep) == xs
  {
    if |xs| == 1 {
      SplitWhole(xs[0], sep);
    } else {
      SplitPiece(xs[0], Join(xs[1..], sep), sep);
      SplitJoin(xs[1..], sep);
    }
  }

  /** A JavaScript `Map`: lookups by key, iteration in first-insertion order. */
  datatype OrderedMap<K(==), V> = OrderedMap(keys: seq<K>, values: map<K, V>)
  {
    predicate Valid() {
      Distinct(keys) && values.Keys == set k | k in keys
    }

    /** `Map.prototype.set`: a new key goes to the end of the iteration
        order; an existing key keeps its place and takes the new value. */
    function Set(k: K, v: V): OrderedMap<K, V> {
      OrderedMap(if k in values then keys else keys + [k], values[k := v])
    }

    function Get(k: K): Option<V> {
      if k in values then Some(values[k]) else None
    }

    /** `Array.from(m.values())`. */
    function Values(): (vs: seq<V>)
      requires Valid()
      ensures |vs| == |keys|
      ensures forall i :: 0 <= i < |keys| ==> vs[i] == values[keys[i]]
    {
      seq(|keys|, i requires 0 <= i < |keys| => values[keys[i]])
    }
  }

  function EmptyMap<K(==), V>(): OrderedMap<K, V> {
    OrderedMap([], map[])
  }

  function Firsts<K, V>(es: seq<(K, V)>): (ks: seq<K>)
    ensures |ks| == |es| && forall i :: 0 <= i < |es| ==> ks[i] == es[i].0
  {
    seq(|es|, i requires 0 <= i < |es| => es[i].0)
  }

  /** The map obtained by `set`-ting the entries of `es` one after another. */
  function FromEntries<K(==), V>(es: seq<(K, V)>): OrderedMap<K, V>
  {
    if es == [] then EmptyMap()
    else FromEntries(es[..|es| - 1]).Set(es[|es| - 1].0, es[|es| - 1].1)
  }

  /** Filling one more entry of a prefix is one `set`. */
  lemma FromEntriesPrefix<K, V>(es: seq<(K, V)>, i: nat)
    requires i < |es|
    ensures FromEntries(es[..i + 1]) == FromEntries(es[..i]).Set(es[i].0, es[i].1)
  {
    assert es[..i + 1][..i] == es[..i];
  }

  /** Filling a map entry by entry keeps the keys in first-insertion order. */
  lemma {:induction false} FromEntriesKeys<K, V>(es: seq<(K, V)>)
    ensures FromEntries(es).Valid()
    ensures FromEntries(es).keys == Dedup(Firsts(es))
  {
    if es != [] {
      var p := es[..|es| - 1];
      FromEntriesKeys(p);
      DedupElems(Firsts(p));
      assert Firsts(es)[..|es| - 1] == Firsts(p);
      var m := FromEntries(p);
      var k := es[|es| - 1].0;
      assert k in m.values <==> k in m.keys;
      if k !in m.keys {
        var ks := m.keys + [k];
        assert Distinct(ks) by {
          forall i, j | 0 <= i < j < |ks| ensures ks[i] != ks[j] {
            if j == |ks| - 1 { assert ks[i] in m.keys; }
          }
        }
        assert (set x | x in ks) == (set x | x in m.keys) + {k};
      }
    }
  }

  /** Filling a map entry by entry leaves each key holding the value of its
      LAST entry. */
  lemma {:induction false} FromEntriesLast<K, V>(es: seq<(K, V)>, i: nat)
    requires i < |es|
    requires forall j :: i < j < |es| ==> es[j].0 != es[i].0
    ensures es[i].0 in FromEntries(es).values
    ensures FromEntries(es).values[es[i].0] == es[i].1
  {
    if i < |es| - 1 {
      var p := es[..|es| - 1];
      assert es[i] == p[i];
      forall j | i < j < |p| ensures p[j].0 != p[i].0 {
        assert p[j] == es[j];
      }
      FromEntriesLast(p, i);
    }
  }
}
