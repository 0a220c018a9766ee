/** Lists of preprocessors that QRegressor runs over states and Q-values. */
module Preprocessing {
  import opened Arrays

  /** A preprocessor maps one array to another. */
  type Preprocessor = NdArray -> NdArray

  /** `x` after every preprocessor of `ps`, the first one applied first. */
  function Chain(ps: seq<Preprocessor>, x: NdArray): NdArray
  {
    if ps == [] then x else ps[|ps| - 1](Chain(ps[..|ps| - 1], x))
  }

  /** Running two lists one after the other is running their concatenation. */
  lemma {:induction false} ChainAppend(ps: seq<Preprocessor>, qs: seq<Preprocessor>, x: NdArray)
    ensures Chain(ps + qs, x) == Chain(qs, Chain(ps, x))
  {
    if qs == [] {
      assert ps + qs == ps;
    } else {
      var n := |qs|;
      ChainAppend(ps, qs[..n - 1], x);
      var whole := ps + qs;
      assert whole[..|whole| - 1] == ps + qs[..n - 1];
      assert whole[|whole| - 1] == qs[n - 1];
    }
  }

  /** List order: the head of the list sees the raw input, the rest see its output. */
  lemma ChainFirst(ps: seq<Preprocessor>, x: NdArray)
    requires ps != []
    ensures Chain(ps, x) == Chain(ps[1..], ps[0](x))
  {
    ChainAppend([ps[0]], ps[1..], x);
    assert [ps[0]] + ps[1..] == ps;
    assert [ps[0]][..0] == [];
  }
}
