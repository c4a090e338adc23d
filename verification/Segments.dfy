/** Splitting a tall image into overlapping horizontal bands. */
module Segments {
  import opened Basics

  datatype Segment = Segment(top: nat, height: nat) {
    predicate Has(row: nat) { top <= row < top + height }
  }

  function Step(maxHeight: nat, overlap: nat): (r: nat)
    ensures r >= 1
  {
    if maxHeight > overlap then maxHeight - overlap else 1
  }

  function CeilDiv(a: nat, b: nat): nat
    requires b > 0
  {
    (a + b - 1) / b
  }

  /** How many bands: one, or enough that the last starts less than an overlap before the end. */
  function Count(height: nat, maxHeight: nat, overlap: nat): nat {
    if height <= overlap then 1 else CeilDiv(height - overlap, Step(maxHeight, overlap))
  }

  function Top(i: nat, maxHeight: nat, overlap: nat): nat { i * Step(maxHeight, overlap) }

  function Min(a: nat, b: nat): nat { if a <= b then a else b }

  lemma CeilDivBounds(a: nat, b: nat)
    requires a > 0 && b > 0
    ensures CeilDiv(a, b) >= 1 && (CeilDiv(a, b) - 1) * b < a <= CeilDiv(a, b) * b
  {
    var q, r := (a + b - 1) / b, (a + b - 1) % b;
    assert a + b - 1 == q * b + r;
    assert (q - 1) * b == q * b - b;
  }

  lemma CeilDivUnique(a: nat, b: nat, n: nat)
    requires a > 0 && b > 0 && n >= 1 && (n - 1) * b < a <= n * b
    ensures n == CeilDiv(a, b)
  {
    CeilDivBounds(a, b);
    var m := CeilDiv(a, b);
    if n < m { Monotone(n, m - 1, b); }
    if m < n { Monotone(m, n - 1, b); }
  }

  lemma Monotone(i: nat, j: nat, step: nat)
    requires i <= j
    ensures i * step <= j * step
  {
    assert (j - i) * step >= 0;
    assert j * step == i * step + (j - i) * step;
  }

  /** An image within the limit, or without one, stays whole; a taller one is cut into bands. */
  method Split(height: nat, maxHeight: nat, overlap: nat) returns (segments: seq<Segment>)
    requires height <= MAX && overlap <= MAX
    ensures maxHeight == 0 || height <= maxHeight ==> segments == [Segment(0, height)]
    ensures 0 < maxHeight < height ==> IsSplit(segments, height, maxHeight, overlap)
  {
    if maxHeight == 0 || height <= maxHeight {
      return [Segment(0, height)];
    }
    var step := Step(maxHeight, overlap);
    segments := [];
    var y := 0;
    while y < height
      invariant y == |segments| * step
      invariant segments != [] ==> y + overlap < height
      invariant forall i :: 0 <= i < |segments| ==> Top(i, maxHeight, overlap) < height
      invariant forall i :: 0 <= i < |segments| ==>
        segments[i] == Segment(Top(i, maxHeight, overlap), Min(maxHeight, height - Top(i, maxHeight, overlap)))
      decreases height - y
    {
      ghost var n := |segments|;
      var segmentHeight := Min(maxHeight, height - y);
      segments := segments + [Segment(y, segmentHeight)];
      assert (n + 1) * step == n * step + step;
      y := Saturating(y, step);
      if Saturating(y, overlap) >= height {
        if height <= overlap {
          assert n == 0;
        } else {
          assert (n + 1 - 1) * step == n * step;
          CeilDivUnique(height - overlap, step, n + 1);
        }
        break;
      }
    }
  }

  ghost predicate IsSplit(segments: seq<Segment>, height: nat, maxHeight: nat, overlap: nat) {
    && |segments| == Count(height, maxHeight, overlap)
    && forall i :: 0 <= i < |segments| ==>
         && Top(i, maxHeight, overlap) < height
         && segments[i] == Segment(Top(i, maxHeight, overlap), Min(maxHeight, height - Top(i, maxHeight, overlap)))
  }

  /** Band by band: one step apart, cut off at the bottom, and no more of them once the next band would
      start within the overlap of the end. */
  lemma BandsAreExact(segments: seq<Segment>, height: nat, maxHeight: nat, overlap: nat, i: nat)
    requires 0 < maxHeight < height && IsSplit(segments, height, maxHeight, overlap)
    ensures
      var step := if overlap < maxHeight then maxHeight - overlap else 1;
      && |segments| >= 1 && |segments| * step + overlap >= height
      && (|segments| > 1 ==> (|segments| - 1) * step + overlap < height)
      && (i < |segments| ==>
            && segments[i].top == i * step
            && segments[i].height == if i * step + maxHeight <= height then maxHeight else height - i * step)
  {
    if height > overlap { CeilDivBounds(height - overlap, Step(maxHeight, overlap)); }
  }

  ghost predicate Covered(segments: seq<Segment>, row: nat) {
    exists i :: 0 <= i < |segments| && segments[i].Has(row)
  }

  ghost predicate Covers(segments: seq<Segment>, height: nat) {
    forall row :: 0 <= row < height ==> Covered(segments, row)
  }

  /** Where the last band ends. */
  lemma LastEnd(segments: seq<Segment>, height: nat, maxHeight: nat, overlap: nat)
    requires 0 < maxHeight < height && IsSplit(segments, height, maxHeight, overlap)
    ensures |segments| >= 1
    ensures var last := segments[|segments| - 1]; last.top + last.height == height <==> maxHeight > overlap
  {
    var n := |segments|;
    var step := Step(maxHeight, overlap);
    if height > overlap {
      CeilDivBounds(height - overlap, step);
      assert (n - 1) * step == n * step - step;
      assert Top(n - 1, maxHeight, overlap) == (n - 1) * step;
    }
  }

  /** With a real step the bands cover every row, and the band of a row is found by division. */
  lemma RowIsCovered(segments: seq<Segment>, height: nat, maxHeight: nat, overlap: nat, row: nat) returns (i: nat)
    requires 0 < maxHeight < height && overlap < maxHeight && IsSplit(segments, height, maxHeight, overlap)
             && row < height
    ensures i < |segments| && segments[i].Has(row)
  {
    LastEnd(segments, height, maxHeight, overlap);
    var step := Step(maxHeight, overlap);
    var last := |segments| - 1;
    if segments[last].top <= row {
      i := last;
    } else {
      i := row / step;
      assert row == i * step + row % step;
      if i >= last { Monotone(last, i, step); }
      assert segments[i].top == i * step;
    }
  }

  lemma {:induction false} EndsBefore(segments: seq<Segment>, height: nat, maxHeight: nat, overlap: nat, i: nat)
    requires 0 < maxHeight < height && IsSplit(segments, height, maxHeight, overlap) && i < |segments|
    ensures segments[i].top + segments[i].height <= segments[|segments| - 1].top + segments[|segments| - 1].height
  {
    Monotone(i, |segments| - 1, Step(maxHeight, overlap));
  }

  /** The bands cover the image exactly when the overlap is smaller than a band. */
  lemma CoversExactlyWhen(segments: seq<Segment>, height: nat, maxHeight: nat, overlap: nat)
    requires 0 < maxHeight < height && IsSplit(segments, height, maxHeight, overlap)
    ensures Covers(segments, height) <==> overlap < maxHeight
  {
    LastEnd(segments, height, maxHeight, overlap);
    if overlap < maxHeight {
      forall row | 0 <= row < height ensures Covered(segments, row) {
        var i := RowIsCovered(segments, height, maxHeight, overlap, row);
      }
    } else if Covers(segments, height) {
      assert Covered(segments, height - 1);
      var i :| 0 <= i < |segments| && segments[i].Has(height - 1);
      EndsBefore(segments, height, maxHeight, overlap, i);
    }
  }

  /** Every band fits the limit and neighbours are one step apart; with a real step neighbours share
      exactly `overlap` rows, except that the last band may be shorter. */
  lemma BandShape(segments: seq<Segment>, height: nat, maxHeight: nat, overlap: nat, i: nat)
    requires 0 < maxHeight < height && IsSplit(segments, height, maxHeight, overlap) && i < |segments|
    ensures 0 < segments[i].height <= maxHeight && segments[i].top + segments[i].height <= height
    ensures i + 1 < |segments| ==> segments[i + 1].top == segments[i].top + Step(maxHeight, overlap)
    ensures i + 1 < |segments| && overlap < maxHeight ==>
      segments[i].height == maxHeight && segments[i].top + segments[i].height == segments[i + 1].top + overlap
  {
    var step := Step(maxHeight, overlap);
    assert (i + 1) * step == i * step + step;
    if i + 1 < |segments| {
      assert segments[i + 1].top == (i + 1) * step;
      if overlap < maxHeight {
        LastEnd(segments, height, maxHeight, overlap);
        var n := |segments|;
        CeilDivBounds(height - overlap, step);
        Monotone(i + 1, n - 1, step);
      }
    }
  }

  /** An overlap as large as a band leaves the bottom row out. */
  lemma WideOverlapLosesRows()
    ensures IsSplit([Segment(0, 2)], 3, 2, 2) && !Covers([Segment(0, 2)], 3)
  {
    CoversExactlyWhen([Segment(0, 2)], 3, 2, 2);
  }
}
