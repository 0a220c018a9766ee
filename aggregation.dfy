/** How Ensemble combines the predictions of its members: keep the ones that
    did not fail, then take their elementwise mean or sum. */
module Aggregation {
  import opened Common
  import opened Arrays

  /** Values of the successful outcomes, in the order of the outcomes. */
  function Survivors(outcomes: seq<Result<NdArray>>): (r: seq<NdArray>)
    ensures |r| <= |outcomes|
  {
    if outcomes == [] then []
    else
      var last := outcomes[|outcomes| - 1];
      Survivors(outcomes[..|outcomes| - 1]) + (if last.Ok? then [last.value] else [])
  }

  /** One more outcome adds its value to the survivors when it succeeded. */
  lemma SurvivorsAppend(outcomes: seq<Result<NdArray>>, next: Result<NdArray>)
    ensures Survivors(outcomes + [next]) ==
      Survivors(outcomes) + (if next.Ok? then [next.value] else [])
  {
    assert (outcomes + [next])[..|outcomes|] == outcomes;
  }

  /** Nothing survives exactly when every outcome failed. */
  lemma {:induction false} NoSurvivors(outcomes: seq<Result<NdArray>>)
    ensures Survivors(outcomes) == [] <==> forall i :: 0 <= i < |outcomes| ==> outcomes[i].Err?
  {
    if outcomes != [] {
      var init := outcomes[..|outcomes| - 1];
      NoSurvivors(init);
      assert forall i :: 0 <= i < |init| ==> init[i] == outcomes[i];
    }
  }

  /** A prediction survives exactly when some outcome delivered it. */
  lemma {:induction false} SurvivorIsOutcome(outcomes: seq<Result<NdArray>>, p: NdArray)
    ensures p in Survivors(outcomes) <==> exists i :: 0 <= i < |outcomes| && outcomes[i] == Ok(p)
  {
    if outcomes != [] {
      var n := |outcomes|;
      var init := outcomes[..n - 1];
      var last := outcomes[n - 1];
      SurvivorIsOutcome(init, p);
      assert Survivors(outcomes) == Survivors(init) + (if last.Ok? then [last.value] else []);
      if p in Survivors(outcomes) {
        if p in Survivors(init) {
          var i :| 0 <= i < |init| && init[i] == Ok(p);
          assert outcomes[i] == Ok(p);
        } else {
          assert last == Ok(p);
        }
      }
      if exists i :: 0 <= i < n && outcomes[i] == Ok(p) {
        var i :| 0 <= i < n && outcomes[i] == Ok(p);
        if i < n - 1 {
          assert init[i] == Ok(p);
        }
      }
    }
  }

  /** When only the outcome at `k` succeeded, its value is the only survivor. */
  lemma {:induction false} SoleSurvivor(outcomes: seq<Result<NdArray>>, k: nat)
    requires k < |outcomes| && outcomes[k].Ok?
    requires forall i :: 0 <= i < |outcomes| && i != k ==> outcomes[i].Err?
    ensures Survivors(outcomes) == [outcomes[k].value]
  {
    var n := |outcomes|;
    var init := outcomes[..n - 1];
    if k == n - 1 {
      NoSurvivors(init);
    } else {
      SoleSurvivor(init, k);
    }
  }

  /** The `t`-th elements of the arrays, in order. */
  function Column(arrays: seq<NdArray>, t: nat): (c: seq<real>)
    requires forall i :: 0 <= i < |arrays| ==> t < |arrays[i].data|
    ensures |c| == |arrays|
    ensures forall i :: 0 <= i < |arrays| ==> c[i] == arrays[i].data[t]
  {
    seq(|arrays|, i requires 0 <= i < |arrays| => arrays[i].data[t])
  }

  /** Sum of the values, added in order. */
  function Total(xs: seq<real>): real
  {
    if xs == [] then 0.0 else Total(xs[..|xs| - 1]) + xs[|xs| - 1]
  }

  /** Totals add up over a split of the values. */
  lemma {:induction false} TotalSplit(xs: seq<real>, ys: seq<real>)
    ensures Total(xs + ys) == Total(xs) + Total(ys)
  {
    if ys == [] {
      assert xs + ys == xs;
    } else {
      var n := |ys|;
      TotalSplit(xs, ys[..n - 1]);
      var whole := xs + ys;
      assert whole[..|whole| - 1] == xs + ys[..n - 1];
    }
  }

  /** Elementwise sum of arrays of one shape: `np.sum(arrays, axis=0)`. */
  function Sum(arrays: seq<NdArray>): (r: NdArray)
    requires |arrays| > 0 && SameShape(arrays)
    ensures r.shape == arrays[0].shape
  {
    var w := |arrays[0].data|;
    Raw(arrays[0].shape, seq(w, t requires 0 <= t < w => Total(Column(arrays, t))))
  }

  /** Elementwise mean of arrays of one shape: `np.mean(arrays, axis=0)`. */
  function Mean(arrays: seq<NdArray>): (r: NdArray)
    requires |arrays| > 0 && SameShape(arrays)
    ensures r.shape == arrays[0].shape
  {
    var w := |arrays[0].data|;
    Raw(arrays[0].shape, seq(w, t requires 0 <= t < w => Total(Column(arrays, t)) / (|arrays| as real)))
  }

  /** Combines the surviving predictions according to the ensemble's mode
      string; stacking arrays of different shapes is a ValueError, and so is
      any mode other than "mean" and "sum". */
  function Combine(mode: string, predictions: seq<NdArray>): (r: Result<NdArray>)
    requires |predictions| > 0
    ensures r.Err? ==> r.error == ValueError
    ensures r.Ok? <==> (mode == "mean" || mode == "sum") && SameShape(predictions)
    ensures r.Ok? ==> r.value.shape == predictions[0].shape
  {
    if mode == "mean" then
      if SameShape(predictions) then Ok(Mean(predictions)) else Err(ValueError)
    else if mode == "sum" then
      if SameShape(predictions) then Ok(Sum(predictions)) else Err(ValueError)
    else Err(ValueError)
  }

  /** With one prediction, either mode gives that prediction back. */
  lemma CombineOne(mode: string, p: NdArray)
    requires mode == "mean" || mode == "sum"
    ensures Combine(mode, [p]) == Ok(p)
  {
    assert SameShape([p]);
    forall t | 0 <= t < |p.data|
      ensures Total(Column([p], t)) == p.data[t]
    {
      assert Column([p], t) == [p.data[t]];
      assert [p.data[t]][..0] == [];
    }
    if mode == "mean" {
      assert Mean([p]).data == p.data;
    } else {
      assert Sum([p]).data == p.data;
    }
  }

  /** Two predictions of one shape: "sum" gives `a + b`, "mean" gives `(a + b) / 2`. */
  lemma CombineTwo(a: NdArray, b: NdArray)
    requires a.shape == b.shape
    ensures Combine("sum", [a, b]).Ok? && Combine("mean", [a, b]).Ok?
    ensures forall t :: 0 <= t < |a.data| ==>
      Combine("sum", [a, b]).value.data[t] == a.data[t] + b.data[t] &&
      Combine("mean", [a, b]).value.data[t] == (a.data[t] + b.data[t]) / 2.0
  {
    assert SameShape([a, b]);
    forall t | 0 <= t < |a.data|
      ensures Total(Column([a, b], t)) == a.data[t] + b.data[t]
    {
      var c := [a.data[t], b.data[t]];
      assert Column([a, b], t) == c;
      assert Total([a.data[t]]) == a.data[t] by { assert [a.data[t]][..0] == []; }
      assert c[..1] == [a.data[t]];
    }
  }

  /** The order in which the predictions were collected does not matter:
      any reordering of them leaves both modes' result, or error, unchanged. */
  lemma CombineReorder(mode: string, ps: seq<NdArray>, qs: seq<NdArray>)
    requires |ps| > 0 && multiset(ps) == multiset(qs)
    ensures |qs| > 0 && Combine(mode, ps) == Combine(mode, qs)
  {
    assert |qs| == |multiset(qs)| == |multiset(ps)| == |ps|;
    SameShapeOfMembers(ps, qs);
    SameShapeOfMembers(qs, ps);
    if SameShape(ps) {
      assert qs[0] in multiset(ps);
      var w := |ps[0].data|;
      assert forall i :: 0 <= i < |ps| ==> |ps[i].data| == w;
      assert forall i :: 0 <= i < |qs| ==> |qs[i].data| == w;
      forall t | 0 <= t < w
        ensures Total(Column(ps, t)) == Total(Column(qs, t))
      {
        ColumnReorder(ps, qs, t);
      }
      assert Sum(ps).data == Sum(qs).data;
      assert Mean(ps).data == Mean(qs).data;
    }
  }

  /** The arrays without the one at position `j`. */
  function Without(qs: seq<NdArray>, j: nat): (rest: seq<NdArray>)
    requires j < |qs|
    ensures |rest| == |qs| - 1
    ensures forall i :: 0 <= i < |rest| ==> rest[i] == qs[if i < j then i else i + 1]
    ensures multiset(qs) == multiset(rest) + multiset{qs[j]}
  {
    assert qs == qs[..j] + [qs[j]] + qs[j + 1..];
    qs[..j] + qs[j + 1..]
  }

  /** Taking the value at `j` out of a sequence takes it out of the total. */
  lemma TotalWithout(xs: seq<real>, j: nat)
    requires j < |xs|
    ensures Total(xs) == Total(xs[..j] + xs[j + 1..]) + xs[j]
  {
    var before, after, x := xs[..j], xs[j + 1..], xs[j];
    assert xs == before + [x] + after;
    TotalSplit(before + [x], after);
    TotalSplit(before, [x]);
    TotalSplit(before, after);
    assert Total([x]) == x by { assert [x][..0] == []; }
  }

  /** Taking one array out of a stack takes its value out of the column total. */
  lemma ColumnWithout(qs: seq<NdArray>, j: nat, t: nat)
    requires j < |qs|
    requires forall i :: 0 <= i < |qs| ==> t < |qs[i].data|
    ensures Total(Column(qs, t)) == Total(Column(Without(qs, j), t)) + qs[j].data[t]
  {
    var c := Column(qs, t);
    TotalWithout(c, j);
    assert Column(Without(qs, j), t) == c[..j] + c[j + 1..];
  }

  /** The last array adds its value to the column total of the others. */
  lemma ColumnLast(ps: seq<NdArray>, t: nat)
    requires ps != []
    requires forall i :: 0 <= i < |ps| ==> t < |ps[i].data|
    ensures Total(Column(ps, t)) == Total(Column(ps[..|ps| - 1], t)) + ps[|ps| - 1].data[t]
  {
    var c := Column(ps, t);
    assert c[..|ps| - 1] == Column(ps[..|ps| - 1], t);
  }

  /** Where a reordering put the last array; the others are a reordering of
      what remains. */
  lemma MatchLast(ps: seq<NdArray>, qs: seq<NdArray>) returns (j: nat)
    requires ps != [] && multiset(ps) == multiset(qs)
    ensures j < |qs| && qs[j] == ps[|ps| - 1]
    ensures multiset(ps[..|ps| - 1]) == multiset(Without(qs, j))
  {
    var n := |ps|;
    var p, init := ps[n - 1], ps[..n - 1];
    assert ps == init + [p];
    assert p in multiset(qs);
    j :| 0 <= j < |qs| && qs[j] == p;
    assert multiset(init) == multiset(ps) - multiset{p};
    assert multiset(Without(qs, j)) == multiset(qs) - multiset{p};
  }

  /** One column's total does not depend on the order of the arrays. */
  lemma {:induction false} ColumnReorder(ps: seq<NdArray>, qs: seq<NdArray>, t: nat)
    requires multiset(ps) == multiset(qs)
    requires forall i :: 0 <= i < |ps| ==> t < |ps[i].data|
    requires forall i :: 0 <= i < |qs| ==> t < |qs[i].data|
    ensures Total(Column(ps, t)) == Total(Column(qs, t))
  {
    if ps == [] {
      assert |qs| == |multiset(qs)| == 0;
    } else {
      var j := MatchLast(ps, qs);
      var rest := Without(qs, j);
      assert forall i :: 0 <= i < |rest| ==> t < |rest[i].data|;
      ColumnReorder(ps[..|ps| - 1], rest, t);
      ColumnWithout(qs, j, t);
      ColumnLast(ps, t);
    }
  }

  /** Arrays drawn from a stack of one shape share that shape. */
  lemma SameShapeOfMembers(whole: seq<NdArray>, part: seq<NdArray>)
    requires |whole| > 0 && |part| > 0
    requires multiset(part) == multiset(whole)
    ensures SameShape(whole) ==> SameShape(part)
  {
    if SameShape(whole) {
      forall i | 0 <= i < |part|
        ensures part[i].shape == whole[0].shape
      {
        assert part[i] in multiset(whole);
      }
    }
  }
}
