/** A regressor adapted to Q-learning: it predicts all action values of a
    state, or the value of the given action, after running its lists of
    input and output preprocessors. */
module QRegressors {
  import opened Common
  import opened Arrays
  import opened Regressors
  import opened Preprocessing
  import opened ActionSelection

  /** What preprocessing hands back: the state alone when no Q-values were
      given, the pair of state and Q-values otherwise. */
  datatype Preprocessed = StateOnly(state: NdArray) | StateAndQ(state: NdArray, q: NdArray)

  class QRegressor {
    const inputPreprocessor: seq<Preprocessor>
    const outputPreprocessor: seq<Preprocessor>
    const model: Regressor

    /** Keeps the two preprocessor lists (empty unless given) and builds the
        wrapped regressor from the remaining parameters. */
    constructor (approximator: Family,
                 inputPreprocessor: seq<Preprocessor> := [],
                 outputPreprocessor: seq<Preprocessor> := [])
      ensures this.inputPreprocessor == inputPreprocessor
      ensures this.outputPreprocessor == outputPreprocessor
      ensures fresh(model) && model.family == approximator
      ensures !model.fitted && model.weights == approximator.initial
    {
      this.inputPreprocessor := inputPreprocessor;
      this.outputPreprocessor := outputPreprocessor;
      model := new Regressor(approximator);
    }

    /** Runs the input preprocessors over the state and, when Q-values are
        given, the output preprocessors over them, each list in its order. */
    method Preprocess(state: NdArray, q: Option<NdArray> := None) returns (r: Preprocessed)
      ensures q.None? ==> r == StateOnly(Chain(inputPreprocessor, state))
      ensures q.Some? ==>
        r == StateAndQ(Chain(inputPreprocessor, state), Chain(outputPreprocessor, q.value))
    {
      var s := state;
      for k := 0 to |inputPreprocessor|
        invariant s == Chain(inputPreprocessor[..k], state)
      {
        assert inputPreprocessor[..k + 1][..k] == inputPreprocessor[..k];
        s := inputPreprocessor[k](s);
      }
      assert inputPreprocessor[..|inputPreprocessor|] == inputPreprocessor;
      if q.None? {
        return StateOnly(s);
      }
      var v := q.value;
      for k := 0 to |outputPreprocessor|
        invariant v == Chain(outputPreprocessor[..k], q.value)
      {
        assert outputPreprocessor[..k + 1][..k] == outputPreprocessor[..k];
        v := outputPreprocessor[k](v);
      }
      assert outputPreprocessor[..|outputPreprocessor|] == outputPreprocessor;
      r := StateAndQ(s, v);
    }

    /** Fits the wrapped regressor on the preprocessed state and Q-values and
        the action exactly as given. */
    method Fit(state: NdArray, action: NdArray, q: NdArray)
      modifies model
      ensures model.fitted
      ensures model.weights == model.family.train(old(model.weights),
        [Chain(inputPreprocessor, state), action, Chain(outputPreprocessor, q)])
    {
      var p := Preprocess(state, Some(q));
      model.Fit([p.state, action, p.q]);
    }

    /** With one argument, the Q-values the regressor predicts for the
        preprocessed state; with two, those values at the given actions;
        with any other count, a failed assertion. */
    method Predict(z: seq<NdArray>) returns (r: Result<NdArray>)
      ensures |z| != 1 && |z| != 2 ==> r == Err(AssertionError)
      ensures |z| == 1 ==> r == model.Predict([Chain(inputPreprocessor, z[0])])
      ensures |z| == 2 ==>
        r == match model.Predict([Chain(inputPreprocessor, z[0])])
             case Err(e) => Err(e)
             case Ok(q) => SelectActions(q, z[1])
      ensures (|z| == 1 || |z| == 2) && !model.fitted ==> r == Err(NotFitted)
    {
      if |z| != 1 && |z| != 2 {
        return Err(AssertionError);
      }
      var p := Preprocess(z[0]);
      var q := model.Predict([p.state]);
      if q.Err? {
        return Err(q.error);
      }
      if |z| == 2 {
        r := SelectActions(q.value, z[1]);
      } else {
        r := q;
      }
    }

    /** Resets the wrapped regressor; one without `reset` gives NotImplemented. */
    method Reset() returns (r: Outcome)
      modifies model
      ensures r == if model.family.resettable then Pass else Fail(NotImplemented)
      ensures model.fitted == old(model.fitted)
      ensures model.weights ==
        if model.family.resettable then model.family.initial else old(model.weights)
    {
      var outcome := model.Reset();
      r := if outcome.Fail? then Fail(NotImplemented) else Pass;
    }

    function WeightsSize(): (n: nat)
      reads model
      ensures n == model.WeightsSize()
    {
      model.WeightsSize()
    }

    function GetWeights(): (w: Weights)
      reads model
      ensures w == model.GetWeights()
    {
      model.GetWeights()
    }

    method SetWeights(w: Weights)
      modifies model
      ensures model.weights == w && model.fitted == old(model.fitted)
    {
      model.SetWeights(w);
    }

    function Diff(state: NdArray, action: Option<NdArray> := None): (d: NdArray)
      reads model
      ensures d == model.Diff(state, action)
    {
      model.Diff(state, action)
    }

    function Len(): (n: nat)
      reads model
      ensures n == model.Length()
    {
      model.Length()
    }
  }
}
