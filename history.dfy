/** The history queries: `Model.find({ field: id }).sort({ createdAt: -1 })` over an append-only
    log kept oldest first. */
module History {

  /** The records of `log` that `keep` selects, newest first. */
  function NewestFirst<T(==)>(log: seq<T>, keep: T -> bool): (r: seq<T>)
    ensures |r| <= |log|
    ensures forall k :: 0 <= k < |r| ==> r[k] in log && keep(r[k])
    ensures forall k :: 0 <= k < |log| && keep(log[k]) ==> log[k] in r
  {
    if log == [] then []
    else
      var last := log[|log| - 1];
      var older := NewestFirst(log[..|log| - 1], keep);
      (if keep(last) then [last] else []) + older
  }

  /** A record appended to the log comes first in the answer when it is selected, and the
      answer is otherwise the one before the append. */
  lemma {:induction false} NewestFirstAppend<T>(log: seq<T>, t: T, keep: T -> bool)
    ensures NewestFirst(log + [t], keep) == (if keep(t) then [t] else []) + NewestFirst(log, keep)
  {
    assert (log + [t])[..|log|] == log;
  }

  /** The answer keeps every selected record as many times as the log holds it, and no
      other record: identical records are neither merged nor dropped. */
  lemma {:induction false} NewestFirstCounts<T>(log: seq<T>, keep: T -> bool, x: T)
    ensures multiset(NewestFirst(log, keep))[x] == if keep(x) then multiset(log)[x] else 0
  {
    if log != [] {
      var older := log[..|log| - 1];
      NewestFirstCounts(older, keep, x);
      assert log == older + [log[|log| - 1]];
    }
  }

  /** The answer is empty exactly when no record of the log is selected. */
  lemma NewestFirstEmpty<T>(log: seq<T>, keep: T -> bool)
    ensures NewestFirst(log, keep) == [] <==> forall k :: 0 <= k < |log| ==> !keep(log[k])
  {
    if NewestFirst(log, keep) != [] {
      assert NewestFirst(log, keep)[0] in log;
    }
  }
}
