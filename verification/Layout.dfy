/** Flat layouts of boxes and multi-face pieces (service/cost_dimension_extractor.go), in metres. */
module Layout {
  import opened Prelude

  datatype Layout = Layout(width: real, height: real, area: real)

  function Positive(a: real, b: real): real {
    if a <= 0.0 then b
    else if b <= 0.0 then a
    else Min(a, b)
  }

  /** The sheet a box is cut from: its four sides in a row, and the flaps; no layout for a side that is not positive. */
  function BoxLayout(w: real, d: real, h: real, closed: bool): Option<Layout> {
    if w <= 0.0 || d <= 0.0 || h <= 0.0 then None
    else
      var flap := if closed then Positive(w, d) * 2.0 else Positive(w, d);
      var width, height := 2.0 * (w + d), h + flap;
      Some(Layout(width, height, width * height))
  }

  /** The sheet is the four sides wide and one flap, or both, higher than the box; the flap is the shorter side. */
  lemma BoxLayoutIs(w: real, d: real, h: real, closed: bool)
    requires w > 0.0 && d > 0.0 && h > 0.0
    ensures BoxLayout(w, d, h, closed).Some?
    ensures var shorter, l := if w < d then w else d, BoxLayout(w, d, h, closed).value;
            && l.width == w + d + w + d
            && l.height == (if closed then h + shorter + shorter else h + shorter)
            && l.area == l.width * l.height
  {
  }

  /** Flaps as deep as the shorter side cover more than the two ends. */
  lemma FlapsCoverEnds(w: real, d: real, flap: real)
    requires w > 0.0 && d > 0.0 && flap >= Min(w, d)
    ensures (w + d) * flap > w * d
  {
    var m := Min(w, d);
    assert (w + d) * (flap - m) >= 0.0;
    assert (w + d) * m == w * d + m * m by {
      assert m == w ==> (w + d) * m == w * w + d * w;
      assert m == d ==> (w + d) * m == w * d + d * d;
    }
    assert m * m > 0.0;
  }

  lemma Expand(w: real, d: real, h: real, flap: real)
    ensures 2.0 * (w + d) * (h + flap) == 2.0 * (w * h + d * h) + 2.0 * ((w + d) * flap)
  {
  }

  /** Closed or not, the sheet is larger than all six faces of the box together. */
  lemma BoxLayoutExceedsSurface(w: real, d: real, h: real, closed: bool)
    ensures BoxLayout(w, d, h, closed).Some? <==> w > 0.0 && d > 0.0 && h > 0.0
    ensures BoxLayout(w, d, h, closed).Some? ==>
              BoxLayout(w, d, h, closed).value.area > 2.0 * (w * d + w * h + d * h)
  {
    if w > 0.0 && d > 0.0 && h > 0.0 {
      var flap := if closed then Positive(w, d) * 2.0 else Positive(w, d);
      Expand(w, d, h, flap);
      FlapsCoverEnds(w, d, flap);
    }
  }

  /** Columns and rows for a number of faces. */
  function Grid(faces: int): (int, int) {
    if faces <= 1 then (1, 1)
    else if faces == 2 then (2, 1)
    else if faces == 3 then (3, 1)
    else if faces == 4 then (4, 1)
    else if faces == 5 then (4, 2)
    else if faces == 6 then (4, 3)
    else (4, (faces + 3) / 4)
  }

  /** Up to four faces lie in one row; more lie four to a row in as few rows as hold them, six in one row more. */
  lemma GridIs(faces: int)
    requires faces >= 1
    ensures var (cols, rows) := Grid(faces);
            if faces <= 4 then cols == faces && rows == 1
            else cols == 4 && (if faces == 6 then rows == 3 else 4 * (rows - 1) < faces <= 4 * rows)
  {
  }

  function FaceLayout(w: real, h: real, faces: int): Option<Layout> {
    if w <= 0.0 || h <= 0.0 || faces <= 0 then None
    else
      var (cols, rows) := Grid(faces);
      var width, height := w * cols as real, h * rows as real;
      Some(Layout(width, height, width * height))
  }

  /** The sheet is the grid of faces laid out. */
  lemma FaceLayoutIs(w: real, h: real, faces: int)
    ensures FaceLayout(w, h, faces).Some? <==> w > 0.0 && h > 0.0 && faces >= 1
    ensures FaceLayout(w, h, faces).Some? ==>
              var l := FaceLayout(w, h, faces).value;
              && l.width == w * Grid(faces).0 as real && l.height == h * Grid(faces).1 as real
              && l.area == l.width * l.height
  {
  }

  /** The grid has a cell for every face, so the sheet covers all the faces. */
  lemma FaceLayoutCovers(w: real, h: real, faces: int)
    ensures Grid(faces).0 * Grid(faces).1 >= faces
    ensures FaceLayout(w, h, faces).Some? ==> FaceLayout(w, h, faces).value.area >= faces as real * (w * h)
  {
    if w > 0.0 && h > 0.0 && faces > 0 {
      var (cols, rows) := Grid(faces);
      Cells(w, h, cols, rows);
      Scaled(faces, cols * rows, w * h);
    }
  }

  lemma Cells(w: real, h: real, cols: int, rows: int)
    ensures (w * cols as real) * (h * rows as real) == (cols * rows) as real * (w * h)
  {
    assert (cols * rows) as real == cols as real * rows as real;
  }

  lemma Scaled(n: int, m: int, a: real)
    requires n <= m && a > 0.0
    ensures n as real * a <= m as real * a
  {
    assert (m as real - n as real) * a >= 0.0;
  }
}
