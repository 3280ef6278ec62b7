/** Small result types shared by every module of the model. */
module Basics {

  /** A JavaScript value that may be `undefined`/`null` (None) or present (Some). */
  datatype Option<+T> = None | Some(value: T) {

    /** The value, or `fallback` when absent (the `??` operator). */
    function GetOr(fallback: T): T {
      match this
      case Some(v) => v
      case None => fallback
    }
  }

  /** The outcome of a JavaScript expression that may throw: it either raised an
      exception or returned a value. */
  datatype Try<+T> = Raised | Returned(value: T)

  /** Where the elements of a sequence land once one more is appended. Proofs
      about traces call it so that the solver sees the appended sequence's
      shape directly. */
  lemma Snoc<T>(s: seq<T>, x: T)
    ensures |s + [x]| == |s| + 1 && (s + [x])[|s|] == x
    ensures forall i | 0 <= i < |s| :: (s + [x])[i] == s[i]
  {
  }

  /** `s` opens with `head` and closes with `last`. */
  ghost predicate Bracketed<T>(s: seq<T>, head: seq<T>, last: T) {
    |s| > 0 && |s| >= |head| && s[..|head|] == head && s[|s| - 1] == last
  }

  /** A three-part concatenation opens with its first part and closes with the
      last element of its last part. Stated over parameters, so that long
      literal parts never reach the solver. */
  lemma Ends<T>(head: seq<T>, body: seq<T>, tail: seq<T>)
    requires |tail| > 0
    ensures Bracketed(head + body + tail, head, tail[|tail| - 1])
  {
    var s := head + body + tail;
    assert s[..|head|] == head;
  }
}
