/** numpy arrays of floats, as a shape and the row-major list of their elements. */
module Arrays {

  /** Number of elements of an array of the given shape (1 for a scalar). */
  function Size(shape: seq<nat>): nat
  {
    if shape == [] then 1 else shape[0] * Size(shape[1..])
  }

  datatype Raw = Raw(shape: seq<nat>, data: seq<real>)

  /** A well-formed array: exactly as many elements as its shape calls for. */
  type NdArray = a: Raw | |a.data| == Size(a.shape) witness Raw([], [0.0])

  /** Number of dimensions (`ndim`). */
  function Rank(a: NdArray): nat
  {
    |a.shape|
  }

  /** Arrays that numpy can stack into one: all of the same shape. */
  predicate SameShape(arrays: seq<NdArray>)
  {
    forall i :: 0 <= i < |arrays| ==> arrays[i].shape == arrays[0].shape
  }

  /** A vector (1-D array) holding the given values. */
  function Vector(values: seq<real>): (v: NdArray)
    ensures Rank(v) == 1 && v.data == values
  {
    assert [|values|][1..] == [];
    assert Size([|values|]) == |values| * Size([]);
    Raw([|values|], values)
  }

  /** Size of an array whose two leading dimensions are `b` and `n`. */
  lemma SizeOfLeading(b: nat, n: nat, rest: seq<nat>)
    ensures Size([b, n] + rest) == b * (n * Size(rest))
  {
    assert ([b, n] + rest)[1..] == [n] + rest;
    assert ([n] + rest)[1..] == rest;
  }
}
