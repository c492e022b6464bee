/**
 * The read-out path of `show`: numpy's `fliplr`, `flipud` and `rot90` on the stored
 * buffer, the row-major `flatten`, and the packer that puts two 4-bit pixels in a byte.
 * None of these change the buffer they read; they build new values.
 */
module Frame {

  /** A numpy 2-D `uint8` array as its list of rows. */
  type Grid = seq<seq<bv8>>

  /** The row length of `g` (that of its first row). */
  function Cols(g: Grid): nat
  {
    if |g| == 0 then 0 else |g[0]|
  }

  /** `g` has `rows` rows of `cols` cells each. */
  predicate IsGrid(g: Grid, rows: nat, cols: nat)
  {
    |g| == rows && forall i :: 0 <= i < |g| ==> |g[i]| == cols
  }

  /** Every row of `g` is as long as the first: `g` is a 2-D array. */
  predicate IsRect(g: Grid)
  {
    IsGrid(g, |g|, Cols(g))
  }

  /** numpy.fliplr: mirror left-right, reversing every row. */
  function FlipLR(g: Grid): (r: Grid)
    ensures |r| == |g| && Cols(r) == Cols(g)
    ensures IsRect(g) ==> IsRect(r)
  {
    seq(|g|, i requires 0 <= i < |g| =>
      seq(|g[i]|, j requires 0 <= j < |g[i]| => g[i][|g[i]| - 1 - j]))
  }

  /** numpy.flipud: mirror top-bottom, reversing the order of the rows. */
  function FlipUD(g: Grid): (r: Grid)
    ensures |r| == |g|
    ensures IsRect(g) ==> IsRect(r) && Cols(r) == Cols(g)
  {
    seq(|g|, i requires 0 <= i < |g| => g[|g| - 1 - i])
  }

  /** numpy.transpose of a 2-D array: rows become columns. */
  function Transpose(g: Grid): (r: Grid)
    requires IsRect(g)
    ensures IsRect(r) && |r| == Cols(g)
    ensures |r| > 0 ==> Cols(r) == |g|
  {
    seq(Cols(g), i requires 0 <= i < Cols(g) =>
      seq(|g|, j requires 0 <= j < |g| => g[j][i]))
  }

  /**
   * numpy.rot90(g, k): `k` is taken modulo 4 (Python's `%`, which agrees with Dafny's
   * for the divisor 4), and each case is built the way numpy builds it.
   */
  function Rot90(g: Grid, k: int): (r: Grid)
    requires IsRect(g)
    ensures IsRect(r)
  {
    var quarter := k % 4;
    if quarter == 0 then g
    else if quarter == 1 then Transpose(FlipLR(g))
    else if quarter == 2 then FlipLR(FlipUD(g))
    else FlipLR(Transpose(g))
  }

  /** A reference quarter turn counter-clockwise, one pixel at a time: `r[i][j] == g[j][cols - 1 - i]`. */
  function Turn(g: Grid): (r: Grid)
    requires IsRect(g)
    ensures IsRect(r) && |r| == Cols(g)
    ensures |r| > 0 ==> Cols(r) == |g|
  {
    seq(Cols(g), i requires 0 <= i < Cols(g) =>
      seq(|g|, j requires 0 <= j < |g| => g[j][Cols(g) - 1 - i]))
  }

  /** `n` reference quarter turns. */
  function Turns(g: Grid, n: nat): (r: Grid)
    requires IsRect(g)
    ensures IsRect(r)
  {
    if n == 0 then g else Turn(Turns(g, n - 1))
  }

  /**
   * The orientation `show` applies before flattening, in its order: `v_flip` mirrors
   * left-right, then `h_flip` mirrors top-bottom, then a non-zero `rotation` turns
   * by `rotation // 90` quarter turns (a floor division, as Dafny's `/` by 90 is).
   */
  function Orient(g: Grid, vFlip: bool, hFlip: bool, rotation: int): Grid
    requires IsRect(g)
  {
    var mirrored := if vFlip then FlipLR(g) else g;
    var flipped := if hFlip then FlipUD(mirrored) else mirrored;
    if rotation != 0 then Rot90(flipped, rotation / 90) else flipped
  }

  /** numpy's row-major `flatten`: the rows one after the other. */
  function Flatten(g: Grid): (v: seq<bv8>)
    ensures IsRect(g) ==> |v| == |g| * Cols(g)
  {
    if g == [] then []
    else
      var rest := Flatten(g[1..]);
      assert IsRect(g) && |g| > 1 ==> IsRect(g[1..]) && Cols(g[1..]) == Cols(g);
      assert |g| * Cols(g) == Cols(g) + (|g| - 1) * Cols(g);
      g[0] + rest
  }

  lemma IndexBound(i: nat, j: nat, rows: nat, cols: nat)
    requires i < rows && j < cols
    ensures i * cols + j < rows * cols
  {
    var d := rows - (i + 1);
    assert d * cols >= 0;
    assert rows * cols == (i + 1) * cols + d * cols;
    assert (i + 1) * cols == i * cols + cols;
  }

  /** numpy's `reshape((rows, cols))` of a flat array: row `i` holds cells `i * cols` to `i * cols + cols - 1`. */
  function Reshape(v: seq<bv8>, rows: nat, cols: nat): (g: Grid)
    requires |v| == rows * cols
    ensures IsGrid(g, rows, cols)
  {
    seq(rows, i requires 0 <= i < rows =>
      seq(cols, j requires 0 <= j < cols => IndexBound(i, j, rows, cols); v[i * cols + j]))
  }

  /** One output byte of the packer: `((hi << 4) & 0xF0) | (lo & 0x0F)` on `uint8`. */
  function PackPair(hi: bv8, lo: bv8): (b: bv8)
    ensures b >> 4 == hi & 0x0F && b & 0x0F == lo & 0x0F
  {
    ((hi << 4) & 0xF0) | (lo & 0x0F)
  }

  /** The high nibble of a packed byte. */
  function High(b: bv8): bv8
  {
    b >> 4
  }

  /** The low nibble of a packed byte. */
  function Low(b: bv8): bv8
  {
    b & 0x0F
  }

  /** `((v[::2] << 4) & 0xF0) | (v[1::2] & 0x0F)` on a `uint8` array of even length. */
  function Pack(v: seq<bv8>): (r: seq<bv8>)
    requires |v| % 2 == 0
    ensures |r| == |v| / 2
    ensures forall i :: 0 <= i < |r| ==> r[i] >> 4 == v[2 * i] & 0x0F && r[i] & 0x0F == v[2 * i + 1] & 0x0F
  {
    seq(|v| / 2, i requires 0 <= i < |v| / 2 => PackPair(v[2 * i], v[2 * i + 1]))
  }

  /** What the panel reads back from packed bytes: the high nibble, then the low nibble, of each. */
  function Unpack(b: seq<bv8>): (v: seq<bv8>)
    ensures |v| == 2 * |b|
  {
    seq(2 * |b|, k requires 0 <= k < 2 * |b| => if k % 2 == 0 then High(b[k / 2]) else Low(b[k / 2]))
  }

  /** The bytes `show` hands to `_update` for this buffer and orientation. */
  function RenderFrame(g: Grid, vFlip: bool, hFlip: bool, rotation: int): (frame: seq<bv8>)
    requires IsRect(g) && (|g| * Cols(g)) % 2 == 0
    ensures |frame| == |g| * Cols(g) / 2
  {
    var oriented := Orient(g, vFlip, hFlip, rotation);
    OrientShape(g, vFlip, hFlip, rotation);
    Pack(Flatten(oriented))
  }

  /** numpy's `tolist()` of a `uint8` array: the same values as Python ints, each a byte. */
  function ToList(v: seq<bv8>): (r: seq<int>)
    ensures |r| == |v|
    ensures forall k :: 0 <= k < |v| ==> 0 <= r[k] < 256 && r[k] as bv8 == v[k]
  {
    seq(|v|, k requires 0 <= k < |v| => v[k] as int)
  }

  /** Every cell of `g` lies in `lo..hi`. */
  predicate CellsWithin(g: Grid, lo: bv8, hi: bv8)
  {
    forall i, j :: 0 <= i < |g| && 0 <= j < |g[i]| ==> lo <= g[i][j] <= hi
  }

  // ---------------------------------------------------------------------------
  // Flatten and reshape

  /** Row-major flattening puts cell (i, j) at position `i * cols + j`. */
  lemma {:induction false} FlattenCell(g: Grid, rows: nat, cols: nat, i: nat, j: nat)
    requires IsGrid(g, rows, cols) && i < rows && j < cols
    ensures |Flatten(g)| == rows * cols
    ensures i * cols + j < rows * cols && Flatten(g)[i * cols + j] == g[i][j]
  {
    assert IsRect(g) && Cols(g) == cols;
    IndexBound(i, j, rows, cols);
    if i > 0 {
      var rest := g[1..];
      assert IsGrid(rest, rows - 1, cols);
      FlattenCell(rest, rows - 1, cols, i - 1, j);
      assert i * cols + j == cols + ((i - 1) * cols + j);
      assert rest[i - 1] == g[i];
    }
  }

  /** Integer division by a positive row length splits a position below `rows * cols` into a row below `rows` and a column. */
  lemma SplitIndex(k: nat, rows: nat, cols: nat)
    requires k < rows * cols
    ensures cols > 0 && k / cols < rows && k == (k / cols) * cols + k % cols
  {
    assert cols > 0;
  }

  /** The inverse reading of `FlattenCell`: flat position `k` holds cell `(k / cols, k % cols)`. */
  lemma FlattenIndex(g: Grid, rows: nat, cols: nat, k: nat) returns (i: nat, j: nat)
    requires IsGrid(g, rows, cols) && k < rows * cols
    ensures i == k / cols && j == k % cols
    ensures i < rows && j < cols && k == i * cols + j
    ensures k < |Flatten(g)| && Flatten(g)[k] == g[i][j]
  {
    SplitIndex(k, rows, cols);
    i, j := k / cols, k % cols;
    FlattenCell(g, rows, cols, i, j);
  }

  /** Flattening undoes a reshape: `reshape(...).flatten()` is the original row-major data. */
  lemma FlattenReshape(v: seq<bv8>, rows: nat, cols: nat)
    requires |v| == rows * cols
    ensures Flatten(Reshape(v, rows, cols)) == v
  {
    var g := Reshape(v, rows, cols);
    var flat := Flatten(g);
    if rows > 0 {
      assert IsRect(g) && Cols(g) == cols;
    }
    assert |flat| == |v|;
    forall k | 0 <= k < |v|
      ensures flat[k] == v[k]
    {
      var i, j := FlattenIndex(g, rows, cols, k);
      assert g[i][j] == v[i * cols + j];
    }
  }

  /** A reshape of a flattened grid gives the grid back. */
  lemma ReshapeFlatten(g: Grid, rows: nat, cols: nat)
    requires IsGrid(g, rows, cols)
    ensures |Flatten(g)| == rows * cols
    ensures Reshape(Flatten(g), rows, cols) == g
  {
    if rows > 0 {
      assert IsRect(g) && Cols(g) == cols;
    }
    var r := Reshape(Flatten(g), rows, cols);
    forall i | 0 <= i < rows
      ensures r[i] == g[i]
    {
      forall j | 0 <= j < cols
        ensures r[i][j] == g[i][j]
      {
        FlattenCell(g, rows, cols, i, j);
      }
    }
  }

  /** Flattening a grid whose cells lie in `lo..hi` gives values in `lo..hi`. */
  lemma FlattenWithin(g: Grid, lo: bv8, hi: bv8)
    requires IsRect(g) && CellsWithin(g, lo, hi)
    ensures forall k :: 0 <= k < |Flatten(g)| ==> lo <= Flatten(g)[k] <= hi
  {
    var v := Flatten(g);
    forall k | 0 <= k < |v|
      ensures lo <= v[k] <= hi
    {
      var i, j := FlattenIndex(g, |g|, Cols(g), k);
    }
  }

  // ---------------------------------------------------------------------------
  // Flips and rotations

  /** Mirroring left-right twice gives the grid back. */
  lemma FlipLRInvolutive(g: Grid)
    ensures FlipLR(FlipLR(g)) == g
  {
    forall i | 0 <= i < |g|
      ensures FlipLR(FlipLR(g))[i] == g[i]
    {
    }
  }

  /** Mirroring top-bottom twice gives the grid back. */
  lemma FlipUDInvolutive(g: Grid)
    ensures FlipUD(FlipUD(g)) == g
  {
  }

  /** The two mirrors commute. */
  lemma FlipsCommute(g: Grid)
    ensures FlipLR(FlipUD(g)) == FlipUD(FlipLR(g))
  {
  }

  /** A half turn (both mirrors) undone by another one. */
  lemma HalfTurnInvolutive(g: Grid)
    ensures FlipLR(FlipUD(FlipLR(FlipUD(g)))) == g
  {
    FlipsCommute(FlipLR(FlipUD(g)));
    FlipLRInvolutive(FlipUD(g));
    FlipUDInvolutive(g);
  }

  /** numpy's one-quarter rotation is the reference quarter turn. */
  lemma RotOneIsTurn(g: Grid)
    requires IsRect(g)
    ensures Rot90(g, 1) == Turn(g)
  {
    var r, t := Rot90(g, 1), Turn(g);
    forall i | 0 <= i < |t|
      ensures r[i] == t[i]
    {
    }
  }

  /** Two reference quarter turns mirror the grid both ways (when it has cells). */
  lemma TurnTwice(g: Grid)
    requires IsRect(g) && |g| > 0 && Cols(g) > 0
    ensures Turn(Turn(g)) == FlipLR(FlipUD(g))
  {
    var r, t := FlipLR(FlipUD(g)), Turn(Turn(g));
    forall i | 0 <= i < |g|
      ensures t[i] == r[i]
    {
    }
  }

  /** Three reference quarter turns are numpy's clockwise quarter turn. */
  lemma TurnThrice(g: Grid)
    requires IsRect(g) && |g| > 0 && Cols(g) > 0
    ensures Turn(Turn(Turn(g))) == FlipLR(Transpose(g))
  {
    TurnTwice(g);
    var h := Turn(Turn(g));
    var r, t := FlipLR(Transpose(g)), Turn(h);
    assert |h| == |g| && Cols(h) == Cols(g);
    forall i | 0 <= i < Cols(g)
      ensures t[i] == r[i]
    {
    }
  }

  /**
   * numpy's `rot90(g, k)` agrees with `k % 4` reference quarter turns counter-clockwise,
   * pixel for pixel.
   */
  lemma RotIsTurns(g: Grid, k: int)
    requires IsRect(g) && |g| > 0 && Cols(g) > 0
    ensures Rot90(g, k) == Turns(g, k % 4)
  {
    var quarter := k % 4;
    assert Turns(g, 1) == Turn(g);
    assert Turns(g, 2) == Turn(Turn(g));
    if quarter == 1 {
      RotOneIsTurn(g);
    } else if quarter == 2 {
      TurnTwice(g);
    } else if quarter == 3 {
      TurnThrice(g);
      assert Turns(g, 3) == Turn(Turn(Turn(g)));
    }
  }

  /** Two quarter turns on top of two quarter turns give the grid back. */
  lemma FourTurns(g: Grid)
    requires IsRect(g) && |g| > 0 && Cols(g) > 0
    ensures Turn(Turn(Turn(Turn(g)))) == g
  {
    var h := Turn(Turn(g));
    TurnTwice(g);
    assert h == FlipLR(FlipUD(g));
    assert IsRect(h) && |h| == |g| && Cols(h) == Cols(g);
    TurnTwice(h);
    HalfTurnInvolutive(g);
  }

  /** Four quarter turns are the identity, so `rot90(g, k)` depends only on `k % 4`. */
  lemma FullTurn(g: Grid)
    requires IsRect(g) && |g| > 0 && Cols(g) > 0
    ensures Turns(g, 4) == g
  {
    var t1 := Turns(g, 1);
    var t2 := Turns(g, 2);
    var t3 := Turns(g, 3);
    assert Turns(g, 0) == g;
    assert t1 == Turn(g);
    assert t2 == Turn(t1);
    assert t3 == Turn(t2);
    assert Turns(g, 4) == Turn(t3);
    FourTurns(g);
  }

  /** Every rotation keeps a grid rectangular and keeps its number of cells. */
  lemma RotShape(g: Grid, k: int)
    requires IsRect(g)
    ensures |Rot90(g, k)| * Cols(Rot90(g, k)) == |g| * Cols(g)
  {
    var quarter := k % 4;
    if quarter == 1 || quarter == 3 {
      var t := Transpose(if quarter == 1 then FlipLR(g) else g);
      assert |Rot90(g, k)| == |t| && Cols(Rot90(g, k)) == Cols(t);
      if |t| > 0 {
        assert |t| * Cols(t) == Cols(g) * |g|;
      }
    }
  }

  /** Orientation keeps a grid rectangular and keeps its number of cells. */
  lemma OrientShape(g: Grid, vFlip: bool, hFlip: bool, rotation: int)
    requires IsRect(g)
    ensures IsRect(Orient(g, vFlip, hFlip, rotation))
    ensures |Orient(g, vFlip, hFlip, rotation)| * Cols(Orient(g, vFlip, hFlip, rotation)) == |g| * Cols(g)
  {
    var mirrored := if vFlip then FlipLR(g) else g;
    var flipped := if hFlip then FlipUD(mirrored) else mirrored;
    assert IsRect(flipped) && |flipped| == |g| && Cols(flipped) == Cols(g);
    if rotation != 0 {
      RotShape(flipped, rotation / 90);
    }
  }

  /** Without flips, a rotation of a whole number of turns (0, 360, or less than 90 degrees) is the identity. */
  lemma OrientIdentity(g: Grid, rotation: int)
    requires IsRect(g)
    requires (rotation / 90) % 4 == 0
    ensures Orient(g, false, false, rotation) == g
  {
  }

  /** Both flips followed by a half turn give the stored buffer back. */
  lemma OrientBothFlipsHalfTurn(g: Grid)
    requires IsRect(g)
    ensures Orient(g, true, true, 180) == g
  {
    calc {
      Orient(g, true, true, 180);
      FlipLR(FlipUD(FlipUD(FlipLR(g))));
      { FlipUDInvolutive(FlipLR(g)); }
      FlipLR(FlipLR(g));
      { FlipLRInvolutive(g); }
      g;
    }
  }

  lemma FlipLRWithin(g: Grid, lo: bv8, hi: bv8)
    requires CellsWithin(g, lo, hi)
    ensures CellsWithin(FlipLR(g), lo, hi)
  {
    var r := FlipLR(g);
    forall i, j | 0 <= i < |r| && 0 <= j < |r[i]|
      ensures lo <= r[i][j] <= hi
    {
      assert r[i][j] == g[i][|g[i]| - 1 - j];
    }
  }

  lemma FlipUDWithin(g: Grid, lo: bv8, hi: bv8)
    requires CellsWithin(g, lo, hi)
    ensures CellsWithin(FlipUD(g), lo, hi)
  {
    var r := FlipUD(g);
    forall i, j | 0 <= i < |r| && 0 <= j < |r[i]|
      ensures lo <= r[i][j] <= hi
    {
      assert r[i] == g[|g| - 1 - i];
    }
  }

  /** Row `i` of the transpose is column `i` of `g`, so its cells lie in `lo..hi` too. */
  lemma TransposeRowWithin(g: Grid, lo: bv8, hi: bv8, i: nat)
    requires IsRect(g) && CellsWithin(g, lo, hi) && i < Cols(g)
    ensures forall j :: 0 <= j < |Transpose(g)[i]| ==> lo <= Transpose(g)[i][j] <= hi
  {
    forall j | 0 <= j < |g|
      ensures lo <= g[j][i] <= hi
    {
      assert i < |g[j]|;
    }
  }

  lemma TransposeWithin(g: Grid, lo: bv8, hi: bv8)
    requires IsRect(g) && CellsWithin(g, lo, hi)
    ensures CellsWithin(Transpose(g), lo, hi)
  {
    forall i | 0 <= i < Cols(g)
      ensures forall j :: 0 <= j < |Transpose(g)[i]| ==> lo <= Transpose(g)[i][j] <= hi
    {
      TransposeRowWithin(g, lo, hi, i);
    }
  }

  /** Orientation moves cells and never changes one: bounds on the cells survive it. */
  lemma OrientWithin(g: Grid, lo: bv8, hi: bv8, vFlip: bool, hFlip: bool, rotation: int)
    requires IsRect(g) && CellsWithin(g, lo, hi)
    ensures CellsWithin(Orient(g, vFlip, hFlip, rotation), lo, hi)
  {
    var mirrored := if vFlip then FlipLR(g) else g;
    if vFlip { FlipLRWithin(g, lo, hi); }
    var flipped := if hFlip then FlipUD(mirrored) else mirrored;
    if hFlip { FlipUDWithin(mirrored, lo, hi); }
    if rotation != 0 {
      var quarter := (rotation / 90) % 4;
      if quarter == 1 {
        FlipLRWithin(flipped, lo, hi);
        TransposeWithin(FlipLR(flipped), lo, hi);
      } else if quarter == 2 {
        FlipUDWithin(flipped, lo, hi);
        FlipLRWithin(FlipUD(flipped), lo, hi);
      } else if quarter == 3 {
        TransposeWithin(flipped, lo, hi);
        FlipLRWithin(Transpose(flipped), lo, hi);
      }
    }
  }

  // ---------------------------------------------------------------------------
  // Packing

  /** Two nibbles per byte lose nothing: unpacking recovers every nibble-sized pixel. */
  lemma PackUnpack(v: seq<bv8>)
    requires |v| % 2 == 0
    requires forall k :: 0 <= k < |v| ==> v[k] <= 0x0F
    ensures Unpack(Pack(v)) == v
  {
    var r := Unpack(Pack(v));
    forall k | 0 <= k < |v|
      ensures r[k] == v[k]
    {
      if k % 2 == 0 {
        assert 2 * (k / 2) == k;
      } else {
        assert 2 * (k / 2) + 1 == k;
      }
    }
  }

  /** Packing what was unpacked gives every byte back. */
  lemma UnpackPack(b: seq<bv8>)
    ensures Pack(Unpack(b)) == b
  {
    var u := Unpack(b);
    forall i | 0 <= i < |b|
      ensures Pack(u)[i] == b[i]
    {
      var x := b[i];
      assert u[2 * i] == High(x) && u[2 * i + 1] == Low(x);
      assert PackPair(High(x), Low(x)) == x;
    }
  }

  /** A run of one value packs to a run of one byte, that value in both nibbles. */
  lemma PackUniform(v: seq<bv8>, c: bv8)
    requires |v| % 2 == 0
    requires forall k :: 0 <= k < |v| ==> v[k] == c
    ensures Pack(v) == seq(|v| / 2, _ => PackPair(c, c))
  {
  }

  /** With every flag cleared (or a rotation of whole turns) the frame is the packed row-major buffer. */
  lemma RenderIdentity(g: Grid, rotation: int)
    requires IsRect(g) && (|g| * Cols(g)) % 2 == 0
    requires (rotation / 90) % 4 == 0
    ensures |Flatten(g)| % 2 == 0
    ensures RenderFrame(g, false, false, rotation) == Pack(Flatten(g))
  {
    OrientIdentity(g, rotation);
  }

  /** Whatever the orientation, the panel can unpack the frame into the oriented buffer. */
  lemma RenderRoundTrip(g: Grid, vFlip: bool, hFlip: bool, rotation: int)
    requires IsRect(g) && (|g| * Cols(g)) % 2 == 0 && CellsWithin(g, 0, 0x0F)
    ensures Unpack(RenderFrame(g, vFlip, hFlip, rotation)) == Flatten(Orient(g, vFlip, hFlip, rotation))
  {
    var o := Orient(g, vFlip, hFlip, rotation);
    OrientShape(g, vFlip, hFlip, rotation);
    OrientWithin(g, 0, 0x0F, vFlip, hFlip, rotation);
    FlattenWithin(o, 0, 0x0F);
    PackUnpack(Flatten(o));
  }

  /** An all-RED buffer (colour index 4) is sent as bytes 0x44, whatever the orientation. */
  lemma RenderAllRed(g: Grid, vFlip: bool, hFlip: bool, rotation: int)
    requires IsRect(g) && (|g| * Cols(g)) % 2 == 0 && CellsWithin(g, 4, 4)
    ensures RenderFrame(g, vFlip, hFlip, rotation) == seq(|g| * Cols(g) / 2, _ => 0x44)
  {
    var o := Orient(g, vFlip, hFlip, rotation);
    OrientShape(g, vFlip, hFlip, rotation);
    OrientWithin(g, 4, 4, vFlip, hFlip, rotation);
    FlattenWithin(o, 4, 4);
    PackUniform(Flatten(o), 4);
    assert PackPair(4, 4) == 0x44;
  }

  /** Flips and rotations do not commute, so their order in `show` matters. */
  lemma RotationAfterFlipMatters()
    ensures Orient([[1, 2]], true, false, 90) != FlipLR(Rot90([[1, 2]], 1))
  {
    assert Orient([[1, 2]], true, false, 90)[0] == [1];
    assert FlipLR(Rot90([[1, 2]], 1))[0] == [2];
  }
}
