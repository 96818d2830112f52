// Small helpers on the values the tensors hold, shared by the other modules.
module Tensors {

  function Min(a: real, b: real): real { if a <= b then a else b }

  /** A row of `n` zeros (`torch.zeros(n)`, `np.zeros(n)`). */
  function Zeros(n: nat): (r: seq<real>)
    ensures |r| == n && forall j :: 0 <= j < n ==> r[j] == 0.0
  {
    seq(n, _ => 0.0)
  }
}
