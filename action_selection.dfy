/** Picking one Q-value per action out of a model's output, as numpy's
    integer-array indexing does it: `q[action]` for a vector and
    `q[arange(q.shape[0]), action]` for a batch. */
module ActionSelection {
  import opened Common
  import opened Arrays

  /** `action.ravel()`: the elements in row-major order. */
  function Ravel(action: NdArray): (flat: seq<real>)
    ensures |flat| == Size(action.shape)
  {
    action.data
  }

  /** Entries usable as array indices. */
  predicate Integral(xs: seq<real>)
  {
    forall j :: 0 <= j < |xs| ==> xs[j].Floor as real == xs[j]
  }

  function Indices(xs: seq<real>): (idx: seq<int>)
    requires Integral(xs)
    ensures |idx| == |xs| && forall j :: 0 <= j < |xs| ==> idx[j] as real == xs[j]
  {
    seq(|xs|, j requires 0 <= j < |xs| => xs[j].Floor)
  }

  /** Every index addresses one of `n` positions, counting from either end. */
  predicate InBounds(n: nat, idx: seq<int>)
  {
    forall j :: 0 <= j < |idx| ==> -(n as int) <= idx[j] < n
  }

  /** Whether index arrays of lengths `b` and `m` broadcast together. */
  predicate Broadcastable(b: nat, m: nat)
  {
    b == m || b == 1 || m == 1
  }

  /** Length of the broadcast of index arrays of lengths `b` and `m`. */
  function Broadcast(b: nat, m: nat): nat
  {
    if b == m then b else if b == 1 then m else b
  }

  lemma SizeOfVector(n: nat)
    ensures Size([n]) == n
  {
    assert [n][1..] == [];
  }

  /** The entries of a vector, one per position along its only axis. */
  function Entries(q: NdArray): (v: seq<real>)
    requires Rank(q) == 1
    ensures |v| == q.shape[0]
  {
    assert q.shape == [q.shape[0]];
    SizeOfVector(q.shape[0]);
    q.data
  }

  /** `q[idx]` for a vector `q`: the entries at the indices, in index order. */
  function Take(q: NdArray, idx: seq<int>): (r: Result<NdArray>)
    requires Rank(q) == 1
    ensures r.Ok? <==> InBounds(q.shape[0], idx)
    ensures r.Err? ==> r.error == IndexError
    ensures r.Ok? ==> r.value.shape == [|idx|] && |r.value.data| == |idx|
    ensures r.Ok? ==> forall j :: 0 <= j < |idx| ==>
      (idx[j] >= 0 ==> r.value.data[j] == Entries(q)[idx[j]]) &&
      (idx[j] < 0 ==> r.value.data[j] == Entries(q)[q.shape[0] + idx[j]])
  {
    var n, v := q.shape[0], Entries(q);
    if InBounds(n, idx) then
      Ok(Vector(seq(|idx|, j requires 0 <= j < |idx| => v[NormIndex(n, idx[j]).value])))
    else Err(IndexError)
  }

  lemma MulMono(x: nat, y: nat, c: nat)
    requires x <= y
    ensures x * c <= y * c
  {}

  /** Size of an array of rank two or more, from its leading dimensions. */
  lemma LeadingSize(q: NdArray)
    requires Rank(q) >= 2
    ensures |q.data| == q.shape[0] * (q.shape[1] * Size(q.shape[2..]))
  {
    assert q.shape == [q.shape[0], q.shape[1]] + q.shape[2..];
    SizeOfLeading(q.shape[0], q.shape[1], q.shape[2..]);
  }

  /** Where the block at row `row`, column `col` starts in the row-major data
      of an array of shape `[b, n] + rest` with blocks of `blk` elements. */
  function Offset(b: nat, n: nat, blk: nat, row: nat, col: nat): (start: nat)
    requires row < b && col < n
    ensures start + blk <= b * (n * blk)
  {
    var c := row * n + col;
    assert c + 1 <= (row + 1) * n;
    MulMono(row + 1, b, n);
    MulMono(c + 1, b * n, blk);
    assert (c + 1) * blk == c * blk + blk;
    assert (b * n) * blk == b * (n * blk);
    c * blk
  }

  /** `q[row, col]` for `q` of rank two or more: a block of the size of the
      trailing dimensions (a single element for a matrix). */
  function Block(q: NdArray, row: nat, col: nat): (cell: seq<real>)
    requires Rank(q) >= 2 && row < q.shape[0] && col < q.shape[1]
    ensures |cell| == Size(q.shape[2..])
  {
    var blk := Size(q.shape[2..]);
    LeadingSize(q);
    var start := Offset(q.shape[0], q.shape[1], blk, row, col);
    q.data[start .. start + blk]
  }

  /** The row and column that position `k` of `q[arange(b), idx]` takes:
      row `k` (row 0 when there is one row) at column `idx[k]` (`idx[0]` when
      there is one index), a negative column counting from the back. */
  function Pick(q: NdArray, idx: seq<int>, k: nat): (cell: seq<real>)
    requires Rank(q) >= 2 && Broadcastable(q.shape[0], |idx|) && InBounds(q.shape[1], idx)
    requires k < Broadcast(q.shape[0], |idx|)
    ensures |cell| == Size(q.shape[2..])
  {
    var row := if q.shape[0] == 1 then 0 else k;
    var j := if |idx| == 1 then 0 else k;
    var col := NormIndex(q.shape[1], idx[j]);
    Block(q, row, col.value)
  }

  /** The blocks `q[arange(b), idx]` picks, in broadcast order. */
  function PickedBlocks(q: NdArray, idx: seq<int>): (blocks: seq<seq<real>>)
    requires Rank(q) >= 2 && Broadcastable(q.shape[0], |idx|) && InBounds(q.shape[1], idx)
    ensures |blocks| == Broadcast(q.shape[0], |idx|)
    ensures forall k :: 0 <= k < |blocks| ==> |blocks[k]| == Size(q.shape[2..])
  {
    var len := Broadcast(q.shape[0], |idx|);
    seq(len, k requires 0 <= k < len => Pick(q, idx, k))
  }

  /** The blocks laid end to end. */
  function Flatten(blocks: seq<seq<real>>): seq<real>
  {
    if blocks == [] then [] else Flatten(blocks[..|blocks| - 1]) + blocks[|blocks| - 1]
  }

  lemma {:induction false} FlattenLength(blocks: seq<seq<real>>, w: nat)
    requires forall k :: 0 <= k < |blocks| ==> |blocks[k]| == w
    ensures |Flatten(blocks)| == |blocks| * w
  {
    if blocks != [] {
      FlattenLength(blocks[..|blocks| - 1], w);
      assert (|blocks| - 1) * w + w == |blocks| * w;
    }
  }

  /** Laying single elements end to end lists them in order. */
  lemma {:induction false} FlattenSingletons(blocks: seq<seq<real>>)
    requires forall k :: 0 <= k < |blocks| ==> |blocks[k]| == 1
    ensures |Flatten(blocks)| == |blocks|
    ensures forall k :: 0 <= k < |blocks| ==> Flatten(blocks)[k] == blocks[k][0]
  {
    if blocks != [] {
      FlattenSingletons(blocks[..|blocks| - 1]);
    }
  }

  /** `q[arange(q.shape[0]), idx]` for `q` of rank two or more. */
  function RowGather(q: NdArray, idx: seq<int>): (r: Result<NdArray>)
    requires Rank(q) >= 2
    ensures r.Ok? <==> Broadcastable(q.shape[0], |idx|) && InBounds(q.shape[1], idx)
    ensures r.Err? ==> r.error == IndexError
    ensures r.Ok? ==> r.value.shape == [Broadcast(q.shape[0], |idx|)] + q.shape[2..]
  {
    var b, n, rest := q.shape[0], q.shape[1], q.shape[2..];
    if !Broadcastable(b, |idx|) || !InBounds(n, idx) then Err(IndexError)
    else
      var blocks := PickedBlocks(q, idx);
      FlattenLength(blocks, Size(rest));
      assert ([|blocks|] + rest)[1..] == rest;
      Ok(Raw([|blocks|] + rest, Flatten(blocks)))
  }

  /** QRegressor's action selection on the model output `q`: the raveled
      action array indexes a vector directly and a batch row by row. */
  function SelectActions(q: NdArray, action: NdArray): (r: Result<NdArray>)
    ensures r.Err? ==> r.error == IndexError
    ensures !Integral(Ravel(action)) ==> r.Err?
    ensures Rank(q) == 0 ==> r.Err?
    ensures Rank(q) == 1 && Integral(Ravel(action)) ==>
      (r.Ok? <==> InBounds(q.shape[0], Indices(Ravel(action)))) &&
      (r.Ok? ==> r.value.shape == [|Ravel(action)|])
    ensures Rank(q) >= 2 && Integral(Ravel(action)) ==>
      (r.Ok? <==> Broadcastable(q.shape[0], |Ravel(action)|) &&
                  InBounds(q.shape[1], Indices(Ravel(action)))) &&
      (r.Ok? ==> r.value.shape == [Broadcast(q.shape[0], |Ravel(action)|)] + q.shape[2..])
  {
    var flat := Ravel(action);
    if !Integral(flat) then Err(IndexError)
    else if Rank(q) == 1 then Take(q, Indices(flat))
    else if Rank(q) == 0 then Err(IndexError)
    else RowGather(q, Indices(flat))
  }

  /** `data` cut into `b` consecutive rows of `n` elements. */
  function Chunks(data: seq<real>, b: nat, n: nat): (rows: seq<seq<real>>)
    requires |data| == b * n
    ensures |rows| == b
    ensures forall i :: 0 <= i < b ==> |rows[i]| == n
  {
    if b == 0 then []
    else
      assert |data| >= n by { MulMono(1, b, n); }
      assert |data[n..]| == (b - 1) * n;
      [data[..n]] + Chunks(data[n..], b - 1, n)
  }

  /** Element `j` of row `i` is element `i * n + j` of the row-major data. */
  lemma {:induction false} ChunkAt(data: seq<real>, b: nat, n: nat, i: nat, j: nat)
    requires |data| == b * n && i < b && j < n
    ensures i * n + j < |data| && Chunks(data, b, n)[i][j] == data[i * n + j]
  {
    assert |data| >= n by { MulMono(1, b, n); }
    if i > 0 {
      assert |data[n..]| == (b - 1) * n;
      ChunkAt(data[n..], b - 1, n, i - 1, j);
      assert (i - 1) * n + j + n == i * n + j;
    }
  }

  /** The rows of a matrix. */
  function Rows(q: NdArray): (rows: seq<seq<real>>)
    requires Rank(q) == 2
    ensures |rows| == q.shape[0]
    ensures forall i :: 0 <= i < |rows| ==> |rows[i]| == q.shape[1]
  {
    MatrixSize(q);
    Chunks(q.data, q.shape[0], q.shape[1])
  }

  lemma MatrixSize(q: NdArray)
    requires Rank(q) == 2
    ensures |q.data| == q.shape[0] * q.shape[1]
  {
    var b, n := q.shape[0], q.shape[1];
    assert q.shape == [b, n] + [];
    SizeOfLeading(b, n, []);
    assert Size([]) == 1;
  }

  /** On a matrix, the block `q[row, col]` is the single value in row `row`
      at column `col`. */
  lemma MatrixBlock(q: NdArray, row: nat, col: nat)
    requires Rank(q) == 2 && row < q.shape[0] && col < q.shape[1]
    ensures Block(q, row, col) == [Rows(q)[row][col]]
  {
    var b, n := q.shape[0], q.shape[1];
    assert q.shape[2..] == [] && Size([]) == 1;
    assert Offset(b, n, 1, row, col) == row * n + col;
    MatrixSize(q);
    ChunkAt(q.data, b, n, row, col);
  }

  /** On a matrix, position `k` of `q[arange(b), idx]` is the single value
      of its row at its action. */
  lemma MatrixPick(q: NdArray, idx: seq<int>, k: nat)
    requires Rank(q) == 2 && Broadcastable(q.shape[0], |idx|) && InBounds(q.shape[1], idx)
    requires k < Broadcast(q.shape[0], |idx|)
    ensures var row := if q.shape[0] == 1 then 0 else k;
      var a := idx[if |idx| == 1 then 0 else k];
      Pick(q, idx, k) == [Rows(q)[row][if a >= 0 then a else q.shape[1] + a]]
  {
    var n := q.shape[1];
    var row := if q.shape[0] == 1 then 0 else k;
    var a := idx[if |idx| == 1 then 0 else k];
    var col := if a >= 0 then a else n + a;
    assert Pick(q, idx, k) == Block(q, row, col);
    MatrixBlock(q, row, col);
  }

  /** On a batch of `b` rows with `b` in-range actions, element `i` of the
      result is `q[i][action[i]]`: one value per row, at that row's action. */
  lemma {:induction false} GatherPerRow(q: NdArray, action: NdArray)
    requires Rank(q) == 2 && Integral(Ravel(action))
    requires |Ravel(action)| == q.shape[0]
    requires InBounds(q.shape[1], Indices(Ravel(action)))
    ensures SelectActions(q, action).Ok?
    ensures SelectActions(q, action).value.shape == [q.shape[0]]
    ensures forall i :: 0 <= i < q.shape[0] ==>
      var a := Indices(Ravel(action))[i];
      SelectActions(q, action).value.data[i] ==
        Rows(q)[i][if a >= 0 then a else q.shape[1] + a]
  {
    var b, n := q.shape[0], q.shape[1];
    var idx := Indices(Ravel(action));
    var r := SelectActions(q, action).value;
    assert q.shape[2..] == [] && Size([]) == 1;
    assert r.shape == [b] && |r.data| == b by { SizeOfVector(b); }
    var blocks := PickedBlocks(q, idx);
    assert r.data == Flatten(blocks);
    FlattenSingletons(blocks);
    forall i | 0 <= i < b
      ensures r.data[i] == Rows(q)[i][if idx[i] >= 0 then idx[i] else n + idx[i]]
    {
      assert blocks[i] == Pick(q, idx, i);
      MatrixPick(q, idx, i);
    }
  }

  /** A single action broadcasts over the batch: every row yields its value
      at that one action. */
  lemma {:induction false} GatherOneAction(q: NdArray, action: NdArray)
    requires Rank(q) == 2 && Integral(Ravel(action))
    requires |Ravel(action)| == 1
    requires InBounds(q.shape[1], Indices(Ravel(action)))
    ensures SelectActions(q, action).Ok?
    ensures SelectActions(q, action).value.shape == [q.shape[0]]
    ensures forall i :: 0 <= i < q.shape[0] ==>
      var a := Indices(Ravel(action))[0];
      SelectActions(q, action).value.data[i] ==
        Rows(q)[i][if a >= 0 then a else q.shape[1] + a]
  {
    var b, n := q.shape[0], q.shape[1];
    var idx := Indices(Ravel(action));
    var r := SelectActions(q, action).value;
    assert q.shape[2..] == [] && Size([]) == 1;
    assert r.shape == [b] && |r.data| == b by { SizeOfVector(b); }
    var blocks := PickedBlocks(q, idx);
    assert r.data == Flatten(blocks);
    FlattenSingletons(blocks);
    forall i | 0 <= i < b
      ensures r.data[i] == Rows(q)[i][if idx[0] >= 0 then idx[0] else n + idx[0]]
    {
      assert blocks[i] == Pick(q, idx, i);
      MatrixPick(q, idx, i);
    }
  }
}
