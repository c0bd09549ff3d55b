/** Text in Python's ordering: code point by code point, a prefix first. `sorted(...)` over a set of
    names is a function of the set, and every list the repository publishes is such a list. */
module Names {

  predicate Le(a: string, b: string) {
    a == [] || (b != [] && (a[0] < b[0] || (a[0] == b[0] && Le(a[1..], b[1..]))))
  }

  predicate Lt(a: string, b: string) {
    a != b && Le(a, b)
  }

  /** The same order stated without recursion: wherever the texts agree up to n, the first ends there, or
      its next character is not above the other's. */
  ghost predicate NotAbove(a: string, b: string) {
    forall n :: 0 <= n <= |a| && n <= |b| && a[..n] == b[..n] ==> n == |a| || (n < |b| && a[n] <= b[n])
  }

  lemma {:induction false} LeByCharacter(a: string, b: string)
    ensures Le(a, b) <==> NotAbove(a, b)
  {
    if a != [] && b != [] && a[0] == b[0] {
      LeByCharacter(a[1..], b[1..]);
      TailNotAbove(a, b);
    } else {
      assert a[..0] == b[..0] == [];
      forall n | 0 < n <= |a| && n <= |b| ensures a[..n] != b[..n] {
        assert a[..n][0] == a[0] && b[..n][0] == b[0];
      }
    }
  }

  lemma {:induction false} TailNotAbove(a: string, b: string)
    requires a != [] && b != [] && a[0] == b[0]
    ensures NotAbove(a, b) <==> NotAbove(a[1..], b[1..])
  {
    forall n | 0 <= n <= |a| - 1 && n <= |b| - 1
      ensures a[..n + 1] == b[..n + 1] <==> a[1..][..n] == b[1..][..n]
    {
      assert a[..n + 1] == [a[0]] + a[1..][..n] && b[..n + 1] == [b[0]] + b[1..][..n];
      assert a[..n + 1][1..] == a[1..][..n] && b[..n + 1][1..] == b[1..][..n];
    }
    if NotAbove(a[1..], b[1..]) {
      forall n | 0 <= n <= |a| && n <= |b| && a[..n] == b[..n] ensures n == |a| || (n < |b| && a[n] <= b[n]) {
        if n > 0 { assert a[1..][..n - 1] == b[1..][..n - 1]; }
      }
    }
    if NotAbove(a, b) {
      forall n | 0 <= n <= |a| - 1 && n <= |b| - 1 && a[1..][..n] == b[1..][..n]
        ensures n == |a| - 1 || (n < |b| - 1 && a[1..][n] <= b[1..][n])
      {
        assert a[..n + 1] == b[..n + 1];
      }
    }
  }

  /** Of texts whose equally long beginnings differ, these decide; otherwise the ends do. */
  lemma {:induction false} LeByParts(a: string, b: string, x: string, y: string)
    requires |a| == |b|
    ensures Le(a + x, b + y) <==> if a == b then Le(x, y) else Le(a, b)
  {
    if a == [] {
      assert a + x == x && b + y == y;
    } else {
      assert (a + x)[1..] == a[1..] + x && (b + y)[1..] == b[1..] + y;
      assert a == [a[0]] + a[1..] && b == [b[0]] + b[1..];
      LeByParts(a[1..], b[1..], x, y);
    }
  }

  ghost predicate Ascending(s: seq<string>) {
    forall i, j :: 0 <= i < j < |s| ==> Lt(s[i], s[j])
  }

  lemma {:induction false} LeTotal(a: string, b: string)
    ensures Le(a, b) || Le(b, a)
  {
    if a != [] && b != [] && a[0] == b[0] {
      LeTotal(a[1..], b[1..]);
    }
  }

  lemma {:induction false} LeAntisymmetric(a: string, b: string)
    requires Le(a, b) && Le(b, a)
    ensures a == b
  {
    if a != [] && b != [] {
      LeAntisymmetric(a[1..], b[1..]);
      assert a == [a[0]] + a[1..] && b == [b[0]] + b[1..];
    }
  }

  lemma {:induction false} LeTransitive(a: string, b: string, c: string)
    requires Le(a, b) && Le(b, c)
    ensures Le(a, c)
  {
    if a != [] && a[0] == b[0] && b[0] == c[0] {
      LeTransitive(a[1..], b[1..], c[1..]);
    }
  }

  lemma {:induction false} LeReflexive(a: string)
    ensures Le(a, a)
  {
    if a != [] { LeReflexive(a[1..]); }
  }

  lemma {:induction false} LtTransitive(a: string, b: string, c: string)
    requires Lt(a, b) && Lt(b, c)
    ensures Lt(a, c)
  {
    LeTransitive(a, b, c);
    if a == c { LeAntisymmetric(a, b); }
  }

  lemma {:induction false} LtTrichotomy(a: string, b: string)
    ensures a == b || Lt(a, b) || Lt(b, a)
    ensures !(Lt(a, b) && Lt(b, a))
    ensures !Lt(a, a)
  {
    LeTotal(a, b);
    if Lt(a, b) && Lt(b, a) { LeAntisymmetric(a, b); }
  }

  lemma {:induction false} LeastExists(s: set<string>)
    requires s != {}
    ensures exists m :: m in s && forall x :: x in s ==> Le(m, x)
  {
    var x :| x in s;
    var rest := s - {x};
    if rest == {} {
      LeReflexive(x);
      assert s == {x};
    } else {
      LeastExists(rest);
      var m :| m in rest && forall y :: y in rest ==> Le(m, y);
      LeTotal(m, x);
      LeReflexive(x);
      if Le(m, x) {
        assert m in s && forall y :: y in s ==> Le(m, y);
      } else {
        forall y | y in s ensures Le(x, y) {
          if y != x { LeTransitive(x, m, y); }
        }
        assert x in s;
      }
    }
  }

  function Least(s: set<string>): (m: string)
    requires s != {}
    ensures m in s && forall x :: x in s ==> Le(m, x)
  {
    LeastExists(s);
    UniqueLeast(s);
    var m :| m in s && forall x | x in s :: Le(m, x);
    m
  }

  /** `sorted(s)`: the elements of the set, each once, in ascending order. */
  function SortedNames(s: set<string>): (r: seq<string>)
    ensures Ascending(r)
    ensures forall x :: x in r <==> x in s
    ensures |r| == |s|
  {
    if s == {} then [] else
      var m := Least(s);
      [m] + SortedNames(s - {m})
  }

  lemma {:induction false} UniqueLeast(s: set<string>)
    ensures forall m, n ::
      m in s && n in s && (forall x | x in s :: Le(m, x)) && (forall x | x in s :: Le(n, x)) ==> m == n
  {
    forall m, n | m in s && n in s && (forall x | x in s :: Le(m, x)) && (forall x | x in s :: Le(n, x))
      ensures m == n
    {
      LeAntisymmetric(m, n);
    }
  }

  lemma {:induction false} NonEmptyHasElement(a: seq<string>)
    requires a != []
    ensures exists x :: x in a
  {
    assert a[0] in a;
  }

  lemma {:induction false} HeadIsLeast(a: seq<string>, x: string)
    requires Ascending(a) && x in a
    ensures Le(a[0], x)
    ensures x != a[0] ==> x in a[1..]
    ensures a[0] !in a[1..]
  {
    var i :| 0 <= i < |a| && a[i] == x;
    LeReflexive(x);
    if i > 0 { assert Lt(a[0], a[i]); assert a[1..][i - 1] == x; }
    LtTrichotomy(a[0], a[0]);
  }

  /** An ascending list is determined by its elements. */
  lemma {:induction false} AscendingUnique(a: seq<string>, b: seq<string>)
    requires Ascending(a) && Ascending(b)
    requires forall x :: x in a <==> x in b
    ensures a == b
  {
    if a != [] && b != [] {
      assert a[0] in b && b[0] in a;
      HeadIsLeast(b, a[0]);
      HeadIsLeast(a, b[0]);
      LeAntisymmetric(a[0], b[0]);
      forall x ensures x in a[1..] <==> x in b[1..] {
        if x in a { HeadIsLeast(a, x); HeadIsLeast(b, x); }
      }
      AscendingUnique(a[1..], b[1..]);
      assert a == [a[0]] + a[1..] && b == [b[0]] + b[1..];
    } else {
      if a != [] { NonEmptyHasElement(a); }
      if b != [] { NonEmptyHasElement(b); }
    }
  }

  lemma {:induction false} SortedNamesInjective(a: set<string>, b: set<string>)
    requires SortedNames(a) == SortedNames(b)
    ensures a == b
  {
    forall x ensures x in a <==> x in b { assert x in SortedNames(a) <==> x in SortedNames(b); }
  }

  /** `[m[key] for key in sorted(m)]`. */
  function ValuesInOrder<T>(m: map<string, T>): (r: seq<T>)
    ensures |r| == |m|
    ensures forall i :: 0 <= i < |r| ==> SortedNames(m.Keys)[i] in m && r[i] == m[SortedNames(m.Keys)[i]]
  {
    var keys := SortedNames(m.Keys);
    assert forall i :: 0 <= i < |keys| ==> keys[i] in keys;
    seq(|keys|, i requires 0 <= i < |keys| => m[keys[i]])
  }
}
