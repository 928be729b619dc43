/** Small helpers shared by the whole model. */
module Basics {

  /** Python's `None` / value. */
  datatype Option<+T> = None | Some(value: T)

  /** The newest `n` elements of `s` (all of `s` when it is shorter), in order. */
  function LastN<T>(s: seq<T>, n: nat): (r: seq<T>)
    ensures |r| == if |s| <= n then |s| else n
    ensures forall i :: 0 <= i < |r| ==> r[i] == s[|s| - |r| + i]
  {
    if |s| <= n then s else s[|s| - n..]
  }

  /** Keeping the newest `n` elements of a window, appending `more` and
      keeping the newest `n` again is the same as keeping the newest `n` of
      the whole history extended by `more`. */
  lemma {:induction false} LastNConcat<T>(s: seq<T>, more: seq<T>, n: nat)
    ensures LastN(LastN(s, n) + more, n) == LastN(s + more, n)
  {
    var w := LastN(s, n);
    var lhs := LastN(w + more, n);
    var rhs := LastN(s + more, n);
    assert |lhs| == |rhs|;
    forall i | 0 <= i < |lhs|
      ensures lhs[i] == rhs[i]
    {
      var k := |w + more| - |lhs| + i;
      if k < |w| {
        assert (w + more)[k] == w[k] == s[|s| - |w| + k];
      } else {
        assert (w + more)[k] == more[k - |w|];
      }
    }
  }
}
