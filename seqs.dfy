/** Filtering a sequence, stated by positions: the reference against which the transcript scans that
    keep some records and skip the others are specified. */
module Seqs {
  /** The positions of `s` whose element satisfies `p`: exactly those, in increasing order. */
  function IndicesWhere<T>(s: seq<T>, p: T -> bool): (idx: seq<nat>)
    ensures forall k :: 0 <= k < |idx| ==> idx[k] < |s| && p(s[idx[k]])
    ensures forall k, m :: 0 <= k < m < |idx| ==> idx[k] < idx[m]
    ensures forall i :: 0 <= i < |s| && p(s[i]) ==> i in idx
  {
    if s == [] then []
    else
      var prefix := IndicesWhere(s[..|s| - 1], p);
      assert forall k :: 0 <= k < |prefix| ==> s[prefix[k]] == s[..|s| - 1][prefix[k]];
      if p(s[|s| - 1]) then prefix + [|s| - 1] else prefix
  }
}
