/** The ground plane of the viewer: `get_checkerboard_plane` (utils.py:520-546)
    lays num_boxes × num_boxes thin boxes out in a grid, row by row, and
    paints them in two alternating colours. A box is described by its size,
    the translation applied to it and its colour; building the mesh itself
    is left to the rendering library. */
module Checkerboard {
  import opened Wrappers
  import opened Geometry

  datatype Rgb = Rgb(r: real, g: real, b: real)

  /** `[230./255., 244./255., 244./255.]` */
  const White: Rgb := Rgb(230.0 / 255.0, 244.0 / 255.0, 244.0 / 255.0)

  /** `[int(150 / 1.3)/255., int(217 / 1.3)/255., int(217 / 1.3)/255.]`: the
      quotients are truncated to integers before scaling. */
  const Black: Rgb := Rgb((150.0 / 1.3).Floor as real / 255.0,
                          (217.0 / 1.3).Floor as real / 255.0,
                          (217.0 / 1.3).Floor as real / 255.0)

  /** Thickness of every box, `height=0.0002`. */
  const Thickness: real := 0.0002

  datatype Tile = Tile(width: real, height: real, depth: real, translation: Vec3, colour: Rgb)

  datatype PlaneError = ZeroDivision

  /** `pw = plane_width/num_boxes`. */
  function BoxWidth(planeWidth: real, numBoxes: int): real
    requires numBoxes != 0
  {
    planeWidth / numBoxes as real
  }

  /** The box of row i, column j. */
  function TileAt(planeWidth: real, numBoxes: int, center: bool, i: int, j: int): Tile
    requires numBoxes != 0
  {
    var pw := BoxWidth(planeWidth, numBoxes);
    var c0 := i as real * pw;
    var c1 := j as real * pw;
    var shift := if center then pw / 2.0 - planeWidth / 2.0 else 0.0;
    Tile(pw, Thickness, pw, Vec3(c0 + shift, 0.0, c1 + shift),
         if (i + j) % 2 == 0 then Black else White)
  }

  /** Columns 0 .. j-1 of row i. */
  function RowPrefix(planeWidth: real, numBoxes: int, center: bool, i: int, j: nat): seq<Tile>
    requires numBoxes != 0
  {
    seq(j, jj => TileAt(planeWidth, numBoxes, center, i, jj))
  }

  /** The first m complete rows, each of numBoxes tiles. */
  function Rows(planeWidth: real, numBoxes: int, center: bool, m: nat): seq<Tile>
    requires numBoxes > 0
  {
    if m == 0 then []
    else Rows(planeWidth, numBoxes, center, m - 1) + RowPrefix(planeWidth, numBoxes, center, m - 1, numBoxes)
  }

  /** The list of boxes returned for a non-zero box count. */
  function Grid(planeWidth: real, numBoxes: int, center: bool): seq<Tile>
    requires numBoxes != 0
  {
    if numBoxes < 0 then [] else Rows(planeWidth, numBoxes, center, numBoxes)
  }

  /** get_checkerboard_plane. A zero box count divides by zero; a negative
      one makes `range` empty, so no box is built. */
  method GetCheckerboardPlane(planeWidth: real, numBoxes: int, center: bool)
    returns (r: Result<seq<Tile>, PlaneError>)
    ensures numBoxes == 0 ==> r == Failure(ZeroDivision)
    ensures numBoxes != 0 ==> r == Success(Grid(planeWidth, numBoxes, center))
  {
    if numBoxes == 0 {
      return Failure(ZeroDivision);
    }
    var meshes: seq<Tile> := [];
    var i := 0;
    while i < numBoxes
      invariant numBoxes > 0 ==> 0 <= i <= numBoxes
      invariant numBoxes > 0 ==> meshes == Rows(planeWidth, numBoxes, center, i)
      invariant numBoxes < 0 ==> i == 0 && meshes == []
    {
      var j := 0;
      while j < numBoxes
        invariant 0 <= j <= numBoxes
        invariant meshes == Rows(planeWidth, numBoxes, center, i) + RowPrefix(planeWidth, numBoxes, center, i, j)
      {
        var ground := TileAt(planeWidth, numBoxes, center, i, j);
        assert RowPrefix(planeWidth, numBoxes, center, i, j + 1)
            == RowPrefix(planeWidth, numBoxes, center, i, j) + [ground];
        meshes := meshes + [ground];
        j := j + 1;
      }
      i := i + 1;
    }
    return Success(meshes);
  }

  /** Position of row i, column j in the row-major list. */
  function Index(numBoxes: int, i: int, j: int): int
  {
    i * numBoxes + j
  }

  lemma {:induction false} RowsLength(planeWidth: real, numBoxes: int, center: bool, m: nat)
    requires numBoxes > 0
    ensures |Rows(planeWidth, numBoxes, center, m)| == m * numBoxes
  {
    if m > 0 {
      RowsLength(planeWidth, numBoxes, center, m - 1);
      assert (m - 1) * numBoxes + numBoxes == m * numBoxes;
    }
  }

  /** Rows before row r end before position r·n. */
  lemma EarlierRowBound(numBoxes: int, i: int, j: int, r: int)
    requires 0 <= i < r && 0 <= j < numBoxes
    ensures 0 <= Index(numBoxes, i, j) < r * numBoxes
  {
    var d := r - i;
    assert r * numBoxes == i * numBoxes + d * numBoxes;
    MultipleAtLeast(d, numBoxes);
  }

  lemma {:induction false} MultipleAtLeast(d: int, n: int)
    requires d >= 1 && n > 0
    ensures d * n >= n
    decreases d
  {
    if d > 1 {
      MultipleAtLeast(d - 1, n);
      assert d * n == (d - 1) * n + n;
    }
  }

  lemma {:induction false} RowsAt(planeWidth: real, numBoxes: int, center: bool, m: nat, i: int, j: int)
    requires numBoxes > 0 && 0 <= i < m && 0 <= j < numBoxes
    ensures 0 <= Index(numBoxes, i, j) < |Rows(planeWidth, numBoxes, center, m)|
    ensures Rows(planeWidth, numBoxes, center, m)[Index(numBoxes, i, j)] == TileAt(planeWidth, numBoxes, center, i, j)
  {
    RowsLength(planeWidth, numBoxes, center, m);
    RowsLength(planeWidth, numBoxes, center, m - 1);
    var front := Rows(planeWidth, numBoxes, center, m - 1);
    if i < m - 1 {
      RowsAt(planeWidth, numBoxes, center, m - 1, i, j);
    } else {
      assert Index(numBoxes, i, j) == |front| + j;
    }
    EarlierRowBound(numBoxes, i, j, m);
  }

  /** There are num_boxes² boxes for a positive count, laid out row-major:
      row i, column j sits at position i·num_boxes + j. */
  lemma GridShape(planeWidth: real, numBoxes: int, center: bool)
    requires numBoxes > 0
    ensures |Grid(planeWidth, numBoxes, center)| == numBoxes * numBoxes
    ensures forall i, j | 0 <= i < numBoxes && 0 <= j < numBoxes ::
      0 <= Index(numBoxes, i, j) < numBoxes * numBoxes &&
      Grid(planeWidth, numBoxes, center)[Index(numBoxes, i, j)] == TileAt(planeWidth, numBoxes, center, i, j)
  {
    RowsLength(planeWidth, numBoxes, center, numBoxes);
    forall i, j | 0 <= i < numBoxes && 0 <= j < numBoxes
      ensures 0 <= Index(numBoxes, i, j) < numBoxes * numBoxes
      ensures Grid(planeWidth, numBoxes, center)[Index(numBoxes, i, j)] == TileAt(planeWidth, numBoxes, center, i, j)
    {
      RowsAt(planeWidth, numBoxes, center, numBoxes, i, j);
    }
  }

  /** Neighbouring boxes, along a row or along a column, differ in colour;
      box (i, j) is black exactly when i + j is even. */
  lemma ColoursAlternate(planeWidth: real, numBoxes: int, center: bool, i: nat, j: nat)
    requires numBoxes != 0
    ensures TileAt(planeWidth, numBoxes, center, i, j).colour == Black <==> (i + j) % 2 == 0
    ensures TileAt(planeWidth, numBoxes, center, i, j).colour != TileAt(planeWidth, numBoxes, center, i, j + 1).colour
    ensures TileAt(planeWidth, numBoxes, center, i, j).colour != TileAt(planeWidth, numBoxes, center, i + 1, j).colour
  {
    BlackIsNotWhite();
  }

  /** The truncated quotients are 115 and 166, so black differs from white. */
  lemma BlackIsNotWhite()
    ensures Black == Rgb(115.0 / 255.0, 166.0 / 255.0, 166.0 / 255.0)
    ensures Black != White
  {
    assert (150.0 / 1.3).Floor == 115;
    assert (217.0 / 1.3).Floor == 166;
  }

  /** Every box has width and depth plane_width/num_boxes and the fixed
      thickness; with center=True its translation is the uncentred one moved
      by pw/2 − plane_width/2 along x and z, and y stays 0. */
  lemma TilePlacement(planeWidth: real, numBoxes: int, i: int, j: int)
    requires numBoxes != 0
    ensures var pw := planeWidth / numBoxes as real;
      var plain := TileAt(planeWidth, numBoxes, false, i, j);
      var centred := TileAt(planeWidth, numBoxes, true, i, j);
      plain.width == plain.depth == pw && plain.height == Thickness &&
      plain.translation == Vec3(i as real * pw, 0.0, j as real * pw) &&
      centred.translation == Vec3(i as real * pw + pw / 2.0 - planeWidth / 2.0, 0.0,
                                  j as real * pw + pw / 2.0 - planeWidth / 2.0) &&
      centred == plain.(translation := Add(plain.translation,
                                           Vec3(pw / 2.0 - planeWidth / 2.0, 0.0, pw / 2.0 - planeWidth / 2.0)))
  {
  }
}
