/** The numpy arrays of a trajectory batch, reduced to what the core inspects:
    the two leading axes `(batch, length)`, an explicit third axis where the core
    adds or removes one, and the contents indexed by batch row and timestep. */
module Arrays {
  import opened PySlices

  /** An array of shape `(batch, length) + trailing`; each cell is a `T`, which
      holds whatever trailing axes the array has. */
  datatype Grid<T> = Grid(batch: nat, length: nat, rows: seq<seq<T>>)

  predicate Rectangular<T>(g: Grid<T>)
  {
    |g.rows| == g.batch && forall i :: 0 <= i < |g.rows| ==> |g.rows[i]| == g.length
  }

  /** Arrays are rectangular: every batch row has `length` timesteps. */
  type Array<T> = g: Grid<T> | Rectangular(g) witness Grid(0, 0, [])

  /** An array of shape `(batch, length, depth)`. The depth is kept explicitly so
      that the shape is exact even when the array has no elements. */
  datatype Box<T> = Box(batch: nat, length: nat, depth: nat, cells: seq<seq<seq<T>>>)

  predicate Solid<T>(b: Box<T>)
  {
    && |b.cells| == b.batch
    && (forall i :: 0 <= i < |b.cells| ==> |b.cells[i]| == b.length)
    && (forall i, j :: 0 <= i < |b.cells| && 0 <= j < |b.cells[i]| ==> |b.cells[i][j]| == b.depth)
  }

  type Array3<T> = b: Box<T> | Solid(b) witness Box(0, 0, 0, [])

  /** `a[:, :, None]`: insert a trailing axis of size 1. */
  function AddDepth<T>(a: Array<T>): (r: Array3<T>)
    ensures r.batch == a.batch && r.length == a.length && r.depth == 1
    ensures forall i, j :: 0 <= i < a.batch && 0 <= j < a.length ==> r.cells[i][j] == [a.rows[i][j]]
  {
    Box(a.batch, a.length, 1,
        seq(a.batch, i requires 0 <= i < a.batch =>
          seq(a.length, j requires 0 <= j < a.length => [a.rows[i][j]])))
  }

  /** `np.squeeze(v, axis=2)` on an array whose third axis has size 1. */
  function Squeeze<T>(v: Array3<T>): (r: Array<T>)
    requires v.depth == 1
    ensures r.batch == v.batch && r.length == v.length
    ensures forall i, j :: 0 <= i < v.batch && 0 <= j < v.length ==> [r.rows[i][j]] == v.cells[i][j]
  {
    Grid(v.batch, v.length,
         seq(v.batch, i requires 0 <= i < v.batch =>
           seq(v.length, j requires 0 <= j < v.length => v.cells[i][j][0])))
  }

  /** Squeezing undoes adding the trailing axis. */
  lemma SqueezeAddDepth<T>(a: Array<T>)
    ensures Squeeze(AddDepth(a)) == a
  {
    var r := Squeeze(AddDepth(a));
    forall i | 0 <= i < a.batch
      ensures r.rows[i] == a.rows[i]
    {
    }
  }

  /** Adding the trailing axis undoes squeezing an array of depth 1. */
  lemma AddDepthSqueeze<T>(v: Array3<T>)
    requires v.depth == 1
    ensures AddDepth(Squeeze(v)) == v
  {
    var r := AddDepth(Squeeze(v));
    forall i | 0 <= i < v.batch
      ensures r.cells[i] == v.cells[i]
    {
      forall j | 0 <= j < v.length
        ensures r.cells[i][j] == v.cells[i][j]
      {
        assert |v.cells[i][j]| == 1;
      }
    }
  }

  /** `a[:, :-td] if td > 0 else a`: drop the last `td` timesteps of every row. */
  function DropLastSteps<T>(a: Array<T>, td: int): (r: Array<T>)
    ensures td <= 0 ==> r == a
    ensures r.batch == a.batch
    ensures td > 0 ==> r.length == if td <= a.length then a.length - td else 0
    ensures forall i :: 0 <= i < r.batch ==> r.rows[i] == a.rows[i][..r.length]
  {
    if td <= 0 then a
    else
      Grid(a.batch, Bound(-td, a.length),
           seq(a.batch, i requires 0 <= i < a.batch => Slice(a.rows[i], 0, -td)))
  }

  /** `x.shape[0:2] == y.shape` for a 2-D `y`. */
  predicate SameLeadingShape<T, U>(x: Array<T>, y: Array<U>)
  {
    x.batch == y.batch && x.length == y.length
  }
}
