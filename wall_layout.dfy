/**
 * Where `updateImageWall` places tile number `index` on the curved wall.
 * The row and column are integers; the angle is kept as the fraction of the
 * arc and the offset in it, since `sin`, `cos` and pi are not modelled.
 */
module WallLayout {

  const Rows: nat := 4      // declared by the source, used nowhere
  const Cols: nat := 5
  const Spacing: nat := 5

  datatype Slot = Slot(row: nat, col: nat)

  /** `row = Math.floor(index / cols)`, `col = index % cols`, fixed when the load is issued. */
  function SlotOf(index: nat): (s: Slot)
    ensures s.col < Cols
    ensures s.row * Cols + s.col == index
  {
    Slot(index / Cols, index % Cols)
  }

  /** The grid position determines the index back: distinct indices never share a slot. */
  lemma {:induction false} SlotOfInjective(i: nat, j: nat)
    ensures SlotOf(i) == SlotOf(j) <==> i == j
  {
    if SlotOf(i) == SlotOf(j) {
      calc {
        i;
        SlotOf(i).row * Cols + SlotOf(i).col;
        SlotOf(j).row * Cols + SlotOf(j).col;
        j;
      }
    }
  }

  /** Rows are filled left to right: index `5r + c` lands in row `r`, column `c`. */
  lemma SlotOfGrid(row: nat, col: nat)
    requires col < Cols
    ensures SlotOf(row * Cols + col) == Slot(row, col)
  {
  }

  /** With the default 35 photos the wall spans rows 0..6, beyond the declared `rows = 4`. */
  lemma DefaultBatchRows(index: nat)
    requires index < 35
    ensures SlotOf(index).row <= 6
    ensures index >= 20 ==> SlotOf(index).row >= Rows
  {
  }

  /** `col / (cols - 1)`: how far along the arc the column sits. */
  function ArcFraction(col: nat): (f: real)
    requires col < Cols
    ensures 0.0 <= f <= 1.0
    ensures col == 0 ==> f == 0.0
    ensures col == Cols - 1 ==> f == 1.0
  {
    col as real / (Cols - 1) as real
  }

  /** `angleOffset = (col / (cols - 1)) * arcAngle - arcAngle / 2`, for an arc of `arc` radians. */
  function AngleOffset(col: nat, arc: real): (a: real)
    requires col < Cols && arc >= 0.0
    ensures -arc / 2.0 <= a <= arc / 2.0
  {
    Along(ArcFraction(col), arc) - arc / 2.0
  }

  /** The length `f * len` covered by a fraction `f` of a non-negative length. */
  function Along(f: real, len: real): (r: real)
    requires 0.0 <= f <= 1.0 && len >= 0.0
    ensures 0.0 <= r <= len
  {
    assert len - f * len == (1.0 - f) * len;
    f * len
  }

  /** Columns mirror around the middle one, so the wall is centred horizontally. */
  lemma AngleOffsetSymmetric(col: nat, arc: real)
    requires col < Cols && arc >= 0.0
    ensures AngleOffset(Cols - 1 - col, arc) == -AngleOffset(col, arc)
    ensures col == 2 ==> AngleOffset(col, arc) == 0.0
  {
  }

  /** `y = (row - 1.5) * spacing`. */
  function RowHeight(row: nat): (y: real)
    ensures row <= 1 ==> y < 0.0
    ensures row >= 2 ==> y > 0.0
  {
    (row as real - 1.5) * Spacing as real
  }

  /**
   * The vertical centring assumes four rows: the heights of rows 0..3 sum to
   * zero, while the seven rows the default batch fills sum to 52.5, so the
   * wall sits above its centre.
   */
  lemma RowCentring()
    ensures RowHeight(0) + RowHeight(1) + RowHeight(2) + RowHeight(3) == 0.0
    ensures RowHeight(0) + RowHeight(1) + RowHeight(2) + RowHeight(3) + RowHeight(4) + RowHeight(5) + RowHeight(6) == 52.5
  {
  }
}
