/** Shared result types, and facts about sequences and sets. */
module Basics {

  datatype Option<+T> = None | Some(value: T) {
    function GetOr(other: T): T {
      if Some? then value else other
    }
  }

  /** The outcome of a fallible store or messaging call; the error carries no detail the model needs. */
  datatype Result<+T> = Success(value: T) | Failure

  datatype Unit = Unit

  ghost predicate NoRepeats<T>(ts: seq<T>) {
    forall i, j | 0 <= i < j < |ts| :: ts[i] != ts[j]
  }

  lemma SubsetSize<T>(a: set<T>, b: set<T>)
    requires a <= b
    ensures |a| <= |b|
  {
    assert b == a + (b - a);
  }
}
