/** The regressor that Ensemble and QRegressor wrap. In the library it is any
    class with `fit`, `predict` and, optionally, `reset` and weight accessors;
    here one class whose behaviour is fixed by a `Family` of function values. */
module Regressors {
  import opened Common
  import opened Arrays

  type Weights = seq<real>

  /** What every instance built from one regressor class with one set of
      constructor parameters has in common. */
  datatype Family = Family(
    initial: Weights,                                 // weights right after construction or reset
    train: (Weights, seq<NdArray>) -> Weights,        // effect of one `fit(*z)`
    respond: (Weights, seq<NdArray>) -> NdArray,      // `predict(*z)` once fitted
    gradient: (Weights, NdArray, Option<NdArray>) -> NdArray,  // `diff(state, action)`
    length: Weights -> nat,                           // `len(model)`
    resettable: bool)                                 // whether the class defines `reset`

  class Regressor {
    const family: Family
    var fitted: bool
    var weights: Weights

    constructor (family: Family)
      ensures this.family == family
      ensures !fitted && weights == family.initial
    {
      this.family := family;
      fitted := false;
      weights := family.initial;
    }

    method Fit(z: seq<NdArray>)
      modifies this
      ensures fitted && weights == family.train(old(weights), z)
    {
      weights := family.train(weights, z);
      fitted := true;
    }

    /** An unfitted regressor raises NotFitted; a fitted one answers. */
    function Predict(z: seq<NdArray>): (r: Result<NdArray>)
      reads this
      ensures r.Err? <==> !fitted
      ensures r.Err? ==> r.error == NotFitted
    {
      if fitted then Ok(family.respond(weights, z)) else Err(NotFitted)
    }

    /** Restores the initial weights; a class without `reset` raises AttributeError. */
    method Reset() returns (r: Outcome)
      modifies this
      ensures r == (if family.resettable then Pass else Fail(AttributeError))
      ensures fitted == old(fitted)
      ensures weights == if family.resettable then family.initial else old(weights)
    {
      if family.resettable {
        weights := family.initial;
        r := Pass;
      } else {
        r := Fail(AttributeError);
      }
    }

    function WeightsSize(): nat
      reads this
    {
      |weights|
    }

    function GetWeights(): Weights
      reads this
    {
      weights
    }

    method SetWeights(w: Weights)
      modifies this
      ensures weights == w && fitted == old(fitted)
    {
      weights := w;
    }

    function Diff(state: NdArray, action: Option<NdArray>): NdArray
      reads this
    {
      family.gradient(weights, state, action)
    }

    function Length(): nat
      reads this
    {
      family.length(weights)
    }
  }
}
