/** Several observations of a changing set of identities: which were seen more than once, which once. */
module Windows {
  import opened Common

  function Max(a: int, b: int): int { if a < b then b else a }

  function Gap(a: int, b: int): int { if a < b then b - a else a - b }

  function Ratio(part: int, whole: nat): real
    requires whole > 0
  {
    part as real / whole as real
  }

  // ---------------------------------------------------------------- ratios without division

  lemma {:induction false} RatioAtLeast(part: nat, whole: nat, x: real)
    requires whole > 0
    ensures Ratio(part, whole) >= x <==> part as real >= x * whole as real
  {
    var r := Ratio(part, whole);
    assert r * whole as real == part as real;
    Scaled(r, x, whole as real);
  }

  lemma {:induction false} RatioAtMost(part: int, whole: nat, x: real)
    requires whole > 0
    ensures Ratio(part, whole) <= x <==> part as real <= x * whole as real
  {
    var r := Ratio(part, whole);
    assert r * whole as real == part as real;
    Scaled(x, r, whole as real);
  }

  lemma {:induction false} Scaled(a: real, b: real, f: real)
    requires f > 0.0
    ensures a >= b <==> a * f >= b * f
  {
    if a >= b { assert (a - b) * f >= 0.0; } else { assert (b - a) * f > 0.0; }
  }

  lemma {:induction false} GapMeans(m: nat, n: nat, x: real)
    requires m > 0 || n > 0
    ensures Ratio(Gap(m, n), Max(Max(m, n), 1)) <= x <==>
            && (m >= n ==> m as real - n as real <= x * m as real)
            && (n >= m ==> n as real - m as real <= x * n as real)
  {
    RatioAtMost(Gap(m, n), Max(m, n), x);
  }

  // ---------------------------------------------------------------- what a window saw

  function Union(w: seq<set<string>>): set<string> {
    if w == [] then {} else Union(w[..|w| - 1]) + w[|w| - 1]
  }

  function Count(w: seq<set<string>>, k: string): nat {
    if w == [] then 0 else Count(w[..|w| - 1], k) + if k in w[|w| - 1] then 1 else 0
  }

  function Repeated(w: seq<set<string>>): set<string> {
    set k | k in Union(w) && Count(w, k) >= 2
  }

  function Lone(w: seq<set<string>>): set<string> {
    set k | k in Union(w) && Count(w, k) == 1
  }

  lemma {:induction false} CountsCover(w: seq<set<string>>, k: string)
    ensures k in Union(w) <==> Count(w, k) >= 1
  {
    if w != [] { CountsCover(w[..|w| - 1], k); }
  }

  /** Accepted and quarantined identities partition everything the window saw. */
  lemma {:induction false} Partition(w: seq<set<string>>)
    ensures Repeated(w) !! Lone(w) && Repeated(w) + Lone(w) == Union(w)
    ensures |Repeated(w)| + |Lone(w)| == |Union(w)|
  {
    forall k ensures k in Union(w) <==> k in Repeated(w) + Lone(w) { CountsCover(w, k); }
    assert Repeated(w) + Lone(w) == Union(w);
  }

  lemma {:induction false} MemberOfUnion(w: seq<set<string>>, i: nat)
    requires i < |w|
    ensures w[i] <= Union(w)
  {
    if i < |w| - 1 { MemberOfUnion(w[..|w| - 1], i); }
  }

  lemma {:induction false} CommonIsRepeated(w: seq<set<string>>, k: string)
    requires |w| >= 2 && k in w[0] && k in w[1]
    ensures k in Repeated(w)
  {
    if |w| == 2 {
      assert w[..1][..0] == [];
      assert Count(w[..1], k) == 1;
    } else {
      CommonIsRepeated(w[..|w| - 1], k);
    }
  }
}
