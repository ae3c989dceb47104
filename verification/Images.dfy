/** The two reshapes of the image data: bytes of a file to images of rows and columns, and images to flat rows.

    An array is its shape and its elements in row-major order, so a reshape keeps the elements and changes the shape. */
module Images {
  import opened Common
  import OneHot

  datatype Tensor<T> = Tensor(shape: seq<nat>, flat: seq<T>)

  const IMAGE_MAGIC := 2051

  function Volume(shape: seq<nat>): nat {
    if shape == [] then 1 else shape[0] * Volume(shape[1..])
  }

  predicate Inside(shape: seq<nat>, index: seq<nat>) {
    |index| == |shape| && forall i :: 0 <= i < |index| ==> index[i] < shape[i]
  }

  /** Where the element with this index stands. */
  function Offset(shape: seq<nat>, index: seq<nat>): nat
    requires Inside(shape, index)
  {
    if shape == [] then 0 else index[0] * Volume(shape[1..]) + Offset(shape[1..], index[1..])
  }

  function At<T>(t: Tensor<T>, index: seq<nat>): Option<T> {
    if Inside(t.shape, index) && Offset(t.shape, index) < |t.flat| then Some(t.flat[Offset(t.shape, index)]) else None
  }

  /** Reshaping to another number of elements raises. */
  function Reshape<T>(flat: seq<T>, shape: seq<nat>): Option<Tensor<T>> {
    if Volume(shape) == |flat| then Some(Tensor(shape, flat)) else None
  }

  /** `bytes` is what follows the header of the file. */
  function ExtractImages<T>(magic: nat, n: nat, rows: nat, cols: nat, bytes: seq<T>): Option<Tensor<T>> {
    if magic != IMAGE_MAGIC then None
    else
      var size := rows * cols * n;
      Reshape(if size < |bytes| then bytes[..size] else bytes, [n, rows, cols, 1])
  }

  /** The data set's own reshape, to one row for each image. */
  function FlattenImages<T>(t: Tensor<T>): Option<Tensor<T>>
    requires |t.shape| == 4
  {
    if t.shape[3] != 1 then None else Reshape(t.flat, [t.shape[0], t.shape[1] * t.shape[2]])
  }

  /** The column of pixel (r, c) in the row of its image. */
  function Column(cols: nat, r: nat, c: nat): nat {
    r * cols + c
  }

  lemma Shapes(n: nat, rows: nat, cols: nat)
    ensures Volume([cols, 1]) == cols && Volume([rows, cols, 1]) == rows * cols
    ensures Volume([n, rows, cols, 1]) == Volume([n, rows * cols]) == n * (rows * cols)
  {
    assert [1][1..] == [] && Volume([1]) == 1 * 1;
    assert [cols, 1][1..] == [1] && [rows, cols, 1][1..] == [cols, 1] && [n, rows, cols, 1][1..] == [rows, cols, 1];
    assert [rows * cols][1..] == [] && Volume([rows * cols]) == rows * cols * 1;
    assert [n, rows * cols][1..] == [rows * cols];
  }

  lemma Commutes(n: nat, rows: nat, cols: nat)
    ensures n * (rows * cols) == rows * cols * n == n * rows * cols
  {
  }

  lemma PixelOffset(n: nat, rows: nat, cols: nat, k: nat, r: nat, c: nat)
    requires k < n && r < rows && c < cols
    ensures Inside([n, rows, cols, 1], [k, r, c, 0])
    ensures Offset([n, rows, cols, 1], [k, r, c, 0]) == k * (rows * cols) + Column(cols, r, c)
  {
    var s, i := [n, rows, cols, 1], [k, r, c, 0];
    Shapes(n, rows, cols);
    assert s[1..] == [rows, cols, 1] && s[1..][1..] == [cols, 1] && s[1..][1..][1..] == [1];
    assert i[1..] == [r, c, 0] && i[1..][1..] == [c, 0] && i[1..][1..][1..] == [0];
    assert Offset([1], [0]) == 0 by { assert [1][1..] == [] && [0][1..] == []; }
    assert Volume([1]) == 1 by { assert [1][1..] == []; }
    assert Offset([cols, 1], [c, 0]) == c * 1;
    assert Offset([rows, cols, 1], [r, c, 0]) == r * cols + c;
  }

  lemma CellOffset(n: nat, width: nat, k: nat, j: nat)
    requires k < n && j < width
    ensures Inside([n, width], [k, j]) && Offset([n, width], [k, j]) == k * width + j
  {
    assert [n, width][1..] == [width] && [width][1..] == [] && [k, j][1..] == [j] && [j][1..] == [];
    assert Volume([]) == 1 && Offset([], []) == 0;
    assert Volume([width]) == width * 1;
    assert Offset([width], [j]) == j * 1 + 0;
  }

  lemma Nested(rows: nat, cols: nat, r: nat, c: nat)
    requires r < rows && c < cols
    ensures r * cols + c < rows * cols
  {
    OneHot.RowsApart(r, rows, cols);
  }

  /** Extraction succeeds if and only if the file is an image file with enough bytes, and then the data set's reshape
      succeeds too. */
  lemma ExtractsIff<T>(magic: nat, n: nat, rows: nat, cols: nat, bytes: seq<T>)
    ensures var t := ExtractImages(magic, n, rows, cols, bytes);
            && (t.Some? <==> magic == 2051 && n * rows * cols <= |bytes|)
            && (t.Some? ==>
                  && t.value == Tensor([n, rows, cols, 1], bytes[..n * rows * cols])
                  && FlattenImages(t.value) == Some(Tensor([n, rows * cols], bytes[..n * rows * cols])))
  {
    Shapes(n, rows, cols);
    Commutes(n, rows, cols);
    hide Volume;
    if n * rows * cols == |bytes| { assert bytes == bytes[..n * rows * cols]; }
  }

  /** Pixel (k, r, c) keeps its place: it is in row k, column r * cols + c, and is byte
      k * rows * cols + r * cols + c of the file. */
  lemma PixelPlace<T>(magic: nat, n: nat, rows: nat, cols: nat, bytes: seq<T>, k: nat, r: nat, c: nat)
    requires ExtractImages(magic, n, rows, cols, bytes).Some? && k < n && r < rows && c < cols
    ensures var t := ExtractImages(magic, n, rows, cols, bytes).value;
            && |t.shape| == 4 && FlattenImages(t).Some? && 0 <= k * rows * cols + r * cols + c < |bytes|
            && At(t, [k, r, c, 0]) == At(FlattenImages(t).value, [k, Column(cols, r, c)]) ==
                 Some(bytes[k * rows * cols + r * cols + c])
            && Column(cols, r, c) == r * cols + c
  {
    ExtractsIff(magic, n, rows, cols, bytes);
    PixelOffset(n, rows, cols, k, r, c);
    Nested(rows, cols, r, c);
    Nested(n, rows * cols, k, Column(cols, r, c));
    CellOffset(n, rows * cols, k, Column(cols, r, c));
    Commutes(n, rows, cols);
    Commutes(k, rows, cols);
    hide Offset, Volume, Inside;
  }

  /** Every column of a row is the place of exactly one pixel of its image. */
  lemma CellIsPixel(rows: nat, cols: nat, j: nat) returns (r: nat, c: nat)
    requires j < rows * cols
    ensures r < rows && c < cols && j == Column(cols, r, c)
    ensures forall r': nat, c': nat :: c' < cols && j == Column(cols, r', c') ==> r' == r && c' == c
  {
    assert cols > 0;
    r, c := Divide(j, cols);
    if r >= rows { RowsBelow(rows, r, cols); }
    forall r': nat, c': nat | c' < cols && j == Column(cols, r', c') ensures r' == r && c' == c {
      OneHot.SameRow(cols, r, c, r', c');
    }
  }

  lemma RowsBelow(a: nat, b: nat, cols: nat)
    requires a <= b
    ensures a * cols <= b * cols
  {
    if a < b { OneHot.RowsApart(a, b, cols); }
  }

  lemma Divide(j: nat, cols: nat) returns (r: nat, c: nat)
    requires cols > 0
    ensures c < cols && j == r * cols + c
  {
    r, c := j / cols, j % cols;
  }
}
