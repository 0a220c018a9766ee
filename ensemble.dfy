/** An ensemble of regressors: a fixed list of members built alike, trained
    one at a time, whose predictions are combined by mean or sum. */
module Ensembles {
  import opened Common
  import opened Arrays
  import opened Regressors
  import opened Aggregation

  class Ensemble {
    const family: Family
    const prediction: string
    const members: seq<Regressor>

    /** The members are distinct objects, all built from the ensemble's family. */
    ghost predicate Valid()
    {
      && (forall i, j :: 0 <= i < j < |members| ==> members[i] != members[j])
      && (forall i :: 0 <= i < |members| ==> members[i].family == family)
    }

    /** Builds `nModels` fresh, unfitted members (none when `nModels <= 0`). */
    constructor (family: Family, nModels: int, prediction: string := "mean")
      ensures Valid()
      ensures this.family == family && this.prediction == prediction
      ensures |members| == RangeLength(nModels)
      ensures forall i :: 0 <= i < |members| ==> fresh(members[i])
      ensures forall i :: 0 <= i < |members| ==>
        !members[i].fitted && members[i].weights == family.initial
    {
      var built: seq<Regressor> := [];
      while |built| < nModels
        invariant nModels > 0 ==> |built| <= nModels
        invariant nModels <= 0 ==> built == []
        invariant forall i, j :: 0 <= i < j < |built| ==> built[i] != built[j]
        invariant forall i :: 0 <= i < |built| ==>
          fresh(built[i]) && built[i].family == family &&
          !built[i].fitted && built[i].weights == family.initial
        decreases nModels - |built|
      {
        var m := new Regressor(family);
        built := built + [m];
      }
      this.family := family;
      this.prediction := prediction;
      members := built;
    }

    /** Trains exactly one member: member `idx` when an index is given (read
        as a Python list index), otherwise a member chosen at random. The
        chosen position is returned; every other member is left as it was.
        Choosing at random among no members is a ValueError. */
    method Fit(z: seq<NdArray>, idx: Option<int> := None) returns (r: Result<nat>)
      requires Valid()
      modifies members
      ensures r.Ok? ==> r.value < |members|
      ensures r.Ok? ==>
        members[r.value].fitted &&
        members[r.value].weights == family.train(old(members[r.value].weights), z)
      ensures forall j :: 0 <= j < |members| && !(r.Ok? && j == r.value) ==> unchanged(members[j])
      ensures idx.None? ==> (r.Ok? <==> |members| > 0)
      ensures idx.None? && r.Err? ==> r.error == ValueError
      ensures idx.Some? ==>
        r == match NormIndex(|members|, idx.value)
             case None => Err(IndexError)
             case Some(k) => Ok(k)
    {
      var k: nat;
      if idx.None? {
        if |members| == 0 {
          return Err(ValueError);
        }
        k :| 0 <= k < |members|;
      } else {
        var position := NormIndex(|members|, idx.value);
        if position.None? {
          return Err(IndexError);
        }
        k := position.value;
      }
      members[k].Fit(z);
      r := Ok(k);
    }

    /** What the first `k` members answer to `predict(*z)`, in order. */
    function Outcomes(z: seq<NdArray>, k: nat): (r: seq<Result<NdArray>>)
      requires k <= |members|
      reads members
      ensures |r| == k
      ensures forall i :: 0 <= i < k ==> r[i] == members[i].Predict(z)
    {
      if k == 0 then [] else Outcomes(z, k - 1) + [members[k - 1].Predict(z)]
    }

    /** Asks every member in order and keeps the predictions of those that
        answer; a member's only failure is NotFitted, which is skipped. */
    method CollectPredictions(z: seq<NdArray>) returns (predictions: seq<NdArray>)
      ensures predictions == Survivors(Outcomes(z, |members|))
      ensures |predictions| <= |members|
    {
      predictions := [];
      ghost var outcomes: seq<Result<NdArray>> := [];
      for i := 0 to |members|
        invariant outcomes == Outcomes(z, i)
        invariant predictions == Survivors(outcomes)
      {
        var outcome := members[i].Predict(z);
        SurvivorsAppend(outcomes, outcome);
        outcomes := outcomes + [outcome];
        if outcome.Ok? {
          predictions := predictions + [outcome.value];
        }
      }
    }

    /** Without an index: the fitted members' predictions, in member order,
        combined by the ensemble's mode; NotFitted exactly when no member is
        fitted, and a ValueError for an unknown mode only once one is. With an
        index: that member's own answer, NotFitted included. */
    method Predict(z: seq<NdArray>, idx: Option<int> := None) returns (r: Result<NdArray>)
      ensures idx.None? ==>
        r == (var survivors := Survivors(Outcomes(z, |members|));
              if survivors == [] then Err(NotFitted) else Combine(prediction, survivors))
      ensures idx.None? ==>
        (r == Err(NotFitted) <==> forall i :: 0 <= i < |members| ==> !members[i].fitted)
      ensures (idx.None? && prediction != "mean" && prediction != "sum" &&
               exists i :: 0 <= i < |members| && members[i].fitted) ==> r == Err(ValueError)
      ensures idx.Some? ==>
        r == match NormIndex(|members|, idx.value)
             case None => Err(IndexError)
             case Some(k) => members[k].Predict(z)
    {
      if idx.None? {
        var predictions := CollectPredictions(z);
        SurvivorsIffFitted(z);
        if |predictions| == 0 {
          return Err(NotFitted);
        }
        r := Combine(prediction, predictions);
      } else {
        var position := NormIndex(|members|, idx.value);
        if position.None? {
          return Err(IndexError);
        }
        r := members[position.value].Predict(z);
      }
    }

    /** Some prediction survives exactly when some member is fitted. */
    lemma SurvivorsIffFitted(z: seq<NdArray>)
      ensures Survivors(Outcomes(z, |members|)) == [] <==>
        forall i :: 0 <= i < |members| ==> !members[i].fitted
    {
      var outcomes := Outcomes(z, |members|);
      NoSurvivors(outcomes);
      assert forall i :: 0 <= i < |members| ==> (outcomes[i].Err? <==> !members[i].fitted);
    }

    /** With exactly one fitted member and mode "mean" or "sum", the ensemble
        answers what that member answers. */
    lemma OneFittedMember(z: seq<NdArray>, k: nat)
      requires k < |members| && members[k].fitted
      requires forall i :: 0 <= i < |members| && i != k ==> !members[i].fitted
      requires prediction == "mean" || prediction == "sum"
      ensures Survivors(Outcomes(z, |members|)) == [members[k].Predict(z).value]
      ensures Combine(prediction, Survivors(Outcomes(z, |members|))) == members[k].Predict(z)
    {
      SoleSurvivor(Outcomes(z, |members|), k);
      CombineOne(prediction, members[k].Predict(z).value);
    }

    /** Resets the members in order; a family without `reset` raises
        NotImplemented at the first member, before anything changes. */
    method Reset() returns (r: Outcome)
      requires Valid()
      modifies members
      ensures r == if |members| == 0 || family.resettable then Pass else Fail(NotImplemented)
      ensures forall i :: 0 <= i < |members| ==> members[i].fitted == old(members[i].fitted)
      ensures forall i :: 0 <= i < |members| ==>
        members[i].weights == if family.resettable then family.initial else old(members[i].weights)
    {
      for i := 0 to |members|
        invariant i > 0 ==> family.resettable
        invariant forall j :: 0 <= j < |members| ==> members[j].fitted == old(members[j].fitted)
        invariant forall j :: 0 <= j < i ==> members[j].weights == family.initial
        invariant forall j :: i <= j < |members| ==> members[j].weights == old(members[j].weights)
      {
        var outcome := members[i].Reset();
        if outcome.Fail? {
          return Fail(NotImplemented);
        }
      }
      r := Pass;
    }

    /** The list of members. */
    function Model(): (ms: seq<Regressor>)
      ensures ms == members
    {
      members
    }

    /** Number of members; `members` is constant, so fit, predict and reset
        leave it at what the constructor made. */
    function Len(): (n: nat)
      ensures n == |members|
    {
      |members|
    }

    /** The member at a Python list index; outside `[-Len(), Len())` an IndexError. */
    function GetItem(idx: int): (r: Result<Regressor>)
      ensures r.Ok? <==> -(Len() as int) <= idx < Len()
      ensures r.Ok? ==> r.value in members
      ensures 0 <= idx < Len() ==> r == Ok(members[idx])
      ensures -(Len() as int) <= idx < 0 ==> r == Ok(members[Len() + idx])
    {
      match NormIndex(|members|, idx)
      case None => Err(IndexError)
      case Some(k) => Ok(members[k])
    }
  }
}
