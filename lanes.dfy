/**
 * The two small pieces of the lane pipeline that are pure selection: picking
 * the lane box farthest to the right and returning its horizontal midpoint,
 * and cutting off the rows of an image above a given row index.
 */
module Lanes {
  import opened Wrappers

  /** A detection box as the detector reports it: `(y1, x1, y2, x2)`. */
  datatype Box = Box(y1: int, x1: int, y2: int, x2: int)

  /** The integer midpoint `(x1 + x2) // 2` of a box, rounded toward minus infinity. */
  function LaneCenter(b: Box): (c: int)
    ensures 2 * c <= b.x1 + b.x2 < 2 * c + 2
  {
    (b.x1 + b.x2) / 2
  }

  /** Integer division by 2 rounds down for negative sums too, as Python's `//` does. */
  lemma LaneCenterRoundsDown()
    ensures LaneCenter(Box(0, -3, 0, 0)) == -2
    ensures LaneCenter(Box(0, 3, 0, 0)) == 1
  {
  }

  /**
   * The index of the box with the largest `x1`; among equal largest `x1`
   * the first one, since only a strictly larger `x1` replaces the choice.
   */
  function RightmostIndex(boxes: seq<Box>): (k: nat)
    requires boxes != []
    ensures k < |boxes|
    ensures forall j :: 0 <= j < |boxes| ==> boxes[j].x1 <= boxes[k].x1
    ensures forall j :: 0 <= j < k ==> boxes[j].x1 < boxes[k].x1
    decreases |boxes|
  {
    if |boxes| == 1 then 0
    else
      var k := RightmostIndex(boxes[..|boxes| - 1]);
      assert forall j :: 0 <= j < |boxes| - 1 ==> boxes[..|boxes| - 1][j] == boxes[j];
      if boxes[|boxes| - 1].x1 > boxes[k].x1 then |boxes| - 1 else k
  }

  /** The box that is chosen is determined by the `x1` values alone: the first position of their maximum. */
  lemma RightmostIndexUnique(boxes: seq<Box>, k: nat)
    requires k < |boxes|
    requires forall j :: 0 <= j < |boxes| ==> boxes[j].x1 <= boxes[k].x1
    requires forall j :: 0 <= j < k ==> boxes[j].x1 < boxes[k].x1
    ensures RightmostIndex(boxes) == k
  {
    var r := RightmostIndex(boxes);
    assert boxes[r].x1 <= boxes[k].x1 && boxes[k].x1 <= boxes[r].x1;
  }

  /**
   * `detect_lane_center_x`: a running maximum over the boxes' `x1`, starting
   * below every value; the midpoint of the chosen box, or nothing when there
   * are no boxes.
   */
  method DetectLaneCenterX(boxes: seq<Box>) returns (center: Option<int>)
    ensures center.None? <==> boxes == []
    ensures boxes != [] ==> center == Some(LaneCenter(boxes[RightmostIndex(boxes)]))
  {
    var rightmostXMin: Option<int> := None;
    var rightmostXMax: Option<int> := None;
    var rightmostX: Option<int> := None;   // None stands for minus infinity
    ghost var chosen := 0;
    for i := 0 to |boxes|
      invariant rightmostX.None? <==> i == 0
      invariant rightmostXMin.Some? <==> i > 0
      invariant rightmostXMax.Some? <==> i > 0
      invariant i > 0 ==> chosen == RightmostIndex(boxes[..i])
      invariant i > 0 ==> rightmostX == Some(boxes[chosen].x1)
      invariant i > 0 ==> rightmostXMin == Some(boxes[chosen].x1) && rightmostXMax == Some(boxes[chosen].x2)
    {
      assert boxes[..i + 1][..i] == boxes[..i];
      var box := boxes[i];
      if rightmostX.None? || box.x1 > rightmostX.value {
        rightmostX := Some(box.x1);
        rightmostXMin := Some(box.x1);
        rightmostXMax := Some(box.x2);
        chosen := i;
      }
    }
    assert boxes[..|boxes|] == boxes;
    if rightmostXMin.Some? && rightmostXMax.Some? {
      return Some((rightmostXMin.value + rightmostXMax.value) / 2);
    }
    return None;
  }

  /** The start row of Python's `img[cutting_idx:]`: negative indices count from the end, and both ends clamp. */
  function SliceStart(rows: nat, cuttingIdx: int): (start: nat)
    ensures start <= rows
    ensures 0 <= cuttingIdx <= rows ==> start == cuttingIdx
    ensures cuttingIdx > rows ==> start == rows
    ensures -(rows as int) <= cuttingIdx < 0 ==> start == rows + cuttingIdx
    ensures cuttingIdx < -(rows as int) ==> start == 0
  {
    if cuttingIdx < 0 then (if rows + cuttingIdx < 0 then 0 else rows + cuttingIdx)
    else if cuttingIdx > rows then rows
    else cuttingIdx
  }

  /** `roi_rectangle_below`: every row from `cutting_idx` onward, each with all its columns. */
  function RoiRectangleBelow<T>(img: seq<seq<T>>, cuttingIdx: int): (r: seq<seq<T>>)
    ensures |r| == |img| - SliceStart(|img|, cuttingIdx)
    ensures forall i :: 0 <= i < |r| ==> r[i] == img[SliceStart(|img|, cuttingIdx) + i]
  {
    img[SliceStart(|img|, cuttingIdx)..]
  }

  /** Cutting at a row of the image keeps exactly the rows below it, and cutting at 0 keeps the whole image. */
  lemma RoiRectangleBelowInRange<T>(img: seq<seq<T>>, cuttingIdx: int)
    requires 0 <= cuttingIdx <= |img|
    ensures RoiRectangleBelow(img, cuttingIdx) == img[cuttingIdx..]
    ensures cuttingIdx == 0 ==> RoiRectangleBelow(img, cuttingIdx) == img
    ensures img == img[..cuttingIdx] + RoiRectangleBelow(img, cuttingIdx)
  {
  }

  /** Cutting below the last row leaves no rows; a negative index keeps that many rows from the bottom. */
  lemma RoiRectangleBelowOutOfRange<T>(img: seq<seq<T>>, cuttingIdx: int)
    ensures cuttingIdx >= |img| ==> RoiRectangleBelow(img, cuttingIdx) == []
    ensures -|img| <= cuttingIdx < 0 ==> |RoiRectangleBelow(img, cuttingIdx)| == -cuttingIdx
  {
  }
}
