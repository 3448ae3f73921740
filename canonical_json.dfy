/** The part of json.Marshal that the cache key relies on: a map is written
    with its keys in ascending order, so the text depends only on the map's
    value. The model keeps the ordered entry list itself, not its JSON text. */
module CanonicalJson {
  import opened Classifiers

  /** Go's `<` on strings: byte order of the UTF-8 encoding, which is the
      order of the code points compared one by one. */
  predicate Below(a: string, b: string)
    decreases |a|
  {
    if |a| == 0 then |b| > 0
    else if |b| == 0 then false
    else if a[0] == b[0] then Below(a[1..], b[1..])
    else a[0] < b[0]
  }

  lemma {:induction false} BelowTotal(a: string, b: string)
    ensures a == b || Below(a, b) || Below(b, a)
    ensures !(Below(a, b) && Below(b, a))
    decreases |a|
  {
    if |a| > 0 && |b| > 0 && a[0] == b[0] {
      BelowTotal(a[1..], b[1..]);
      assert a == [a[0]] + a[1..] && b == [b[0]] + b[1..];
    }
  }

  lemma {:induction false} BelowTransitive(a: string, b: string, c: string)
    requires Below(a, b) && Below(b, c)
    ensures Below(a, c)
    decreases |a|
  {
    if |a| > 0 && |b| > 0 && |c| > 0 && a[0] == b[0] && b[0] == c[0] {
      BelowTransitive(a[1..], b[1..], c[1..]);
    }
  }

  /** k is the smallest member of s. */
  predicate IsLeast(k: string, s: set<string>) {
    k in s && forall j :: j in s && j != k ==> Below(k, j)
  }

  lemma {:induction false} LeastExists(s: set<string>)
    requires s != {}
    ensures exists k :: IsLeast(k, s)
    decreases |s|
  {
    var x :| x in s;
    if s == {x} {
      assert IsLeast(x, s);
    } else {
      LeastExists(s - {x});
      var y :| IsLeast(y, s - {x});
      BelowTotal(x, y);
      if Below(x, y) {
        forall j | j in s && j != x
          ensures Below(x, j)
        {
          if j != y {
            BelowTransitive(x, y, j);
          }
        }
        assert IsLeast(x, s);
      } else {
        assert IsLeast(y, s);
      }
    }
  }

  lemma LeastUnique(s: set<string>)
    ensures forall a, b :: IsLeast(a, s) && IsLeast(b, s) ==> a == b
  {
    forall a, b | IsLeast(a, s) && IsLeast(b, s)
      ensures a == b
    {
      BelowTotal(a, b);
    }
  }

  function LeastKey(s: set<string>): (k: string)
    requires s != {}
    ensures IsLeast(k, s)
  {
    LeastExists(s);
    LeastUnique(s);
    var k :| IsLeast(k, s); k
  }

  /** The keys of es strictly ascend. */
  predicate StrictlySorted(es: seq<(string, Value)>) {
    forall i, j :: 0 <= i < j < |es| ==> Below(es[i].0, es[j].0)
  }

  /** The entries of m, ordered by key: what json.Marshal writes for m. */
  function Canonical(m: ClassifierData): (es: seq<(string, Value)>)
    ensures |es| == |m.Keys|
    ensures forall i :: 0 <= i < |es| ==> es[i].0 in m && es[i].1 == m[es[i].0]
    decreases m.Keys
  {
    if m.Keys == {} then []
    else
      var k := LeastKey(m.Keys);
      [(k, m[k])] + Canonical(m - {k})
  }

  /** Rebuilds a map from an entry list (the decoding side). */
  function ToMap(es: seq<(string, Value)>): ClassifierData {
    if es == [] then map[] else ToMap(es[1..])[es[0].0 := es[0].1]
  }

  lemma {:induction false} CanonicalSorted(m: ClassifierData)
    ensures StrictlySorted(Canonical(m))
    decreases m.Keys
  {
    if m.Keys != {} {
      var k := LeastKey(m.Keys);
      var rest := Canonical(m - {k});
      CanonicalSorted(m - {k});
      forall j | 0 <= j < |rest|
        ensures Below(k, rest[j].0)
      {
        assert rest[j].0 in m.Keys - {k};
      }
      SortedCons(k, m[k], rest);
    }
  }

  /** A key below every key of a sorted list can go in front of it. */
  lemma SortedCons(k: string, v: Value, rest: seq<(string, Value)>)
    requires StrictlySorted(rest)
    requires forall j :: 0 <= j < |rest| ==> Below(k, rest[j].0)
    ensures StrictlySorted([(k, v)] + rest)
  {
    var es := [(k, v)] + rest;
    forall i, j | 0 <= i < j < |es|
      ensures Below(es[i].0, es[j].0)
    {
      assert es[j] == rest[j - 1];
      if i > 0 {
        assert es[i] == rest[i - 1];
      }
    }
  }

  /** Decoding the entry list gives back the map. */
  lemma {:induction false} CanonicalRoundTrip(m: ClassifierData)
    ensures ToMap(Canonical(m)) == m
    decreases m.Keys
  {
    if m.Keys != {} {
      var k := LeastKey(m.Keys);
      CanonicalRoundTrip(m - {k});
      var es := Canonical(m);
      assert es[1..] == Canonical(m - {k});
      assert ToMap(es) == (m - {k})[k := m[k]];
      assert (m - {k})[k := m[k]] == m;
    }
  }

  /** Equal maps give equal entry lists whatever order they were built in, and
      different maps give different lists. */
  lemma CanonicalInjective(a: ClassifierData, b: ClassifierData)
    ensures Canonical(a) == Canonical(b) <==> a == b
  {
    if Canonical(a) == Canonical(b) {
      CanonicalRoundTrip(a);
      CanonicalRoundTrip(b);
    }
  }
}
