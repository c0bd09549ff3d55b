/** Values shared by the components. */
module Common {
  datatype Option<+T> = None | Some(value: T)

  /** The terminal statuses of a step (`OutcomeStatus`). */
  datatype OutcomeStatus = SUCCEEDED | CANCELLED | FAILED | INCOMPLETE | WAITING_FOR_USER

  /** What verification concluded about one URL (`VerificationVerdict`). */
  datatype Verdict = BLOCKED | ACCESSIBLE | UNKNOWN

  predicate Distinct<T(==)>(s: seq<T>) {
    forall i, j :: 0 <= i < j < |s| ==> s[i] != s[j]
  }

  function Elements<T>(s: seq<T>): set<T> {
    set x | x in s
  }

  lemma {:induction false} SubsetSize<T>(a: set<T>, b: set<T>)
    requires a <= b
    ensures |a| <= |b|
    ensures |a| == |b| ==> a == b
  {
    assert b == a + (b - a);
  }
}
