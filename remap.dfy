/** remap_to_range: clamp a value to an input interval and interpolate it
    linearly into an output interval. Python floats are modelled as reals. */
module Remap {

  /** r lies between a and b, whichever way round they are. */
  predicate Between(r: real, a: real, b: real)
  {
    (a <= r <= b) || (b <= r <= a)
  }

  /** A fraction in 0..1 of d lies between 0 and d. */
  lemma FractionBetween(ratio: real, d: real)
    requires 0.0 <= ratio <= 1.0
    ensures Between(ratio * d, 0.0, d)
  {
    if d >= 0.0 {
      assert 0.0 <= ratio * d;
      assert d - ratio * d == (1.0 - ratio) * d;
    } else {
      assert ratio * d <= 0.0;
      assert ratio * d - d == (1.0 - ratio) * (-d);
    }
  }

  /** A part of a positive whole is a fraction in 0..1 of it. */
  lemma UnitRatio(part: real, whole: real)
    requires 0.0 <= part <= whole && whole > 0.0
    ensures 0.0 <= part / whole <= 1.0
    ensures part == 0.0 ==> part / whole == 0.0
    ensures part == whole ==> part / whole == 1.0
  {
    assert (part / whole) * whole == part;
  }

  /** Values below xMin give outMin, values above xMax give outMax, and the
      rest are interpolated. Python divides by xMax - xMin only on the
      interpolation branch, so ZeroDivisionError needs x == xMin == xMax:
      that is the one input the precondition excludes. */
  function RemapToRange(x: real, xMin: real, xMax: real, outMin: real, outMax: real): (r: real)
    requires x < xMin || x > xMax || xMin != xMax
    ensures x < xMin ==> r == outMin
    ensures xMin <= x && xMax < x ==> r == outMax
    ensures xMin < xMax && x == xMin ==> r == outMin
    ensures xMin < xMax && x == xMax ==> r == outMax
    ensures xMin <= x <= xMax ==> Between(r, outMin, outMax)
  {
    if x < xMin then
      outMin
    else if x > xMax then
      outMax
    else
      var ratio := (x - xMin) / (xMax - xMin);
      UnitRatio(x - xMin, xMax - xMin);
      FractionBetween(ratio, outMax - outMin);
      outMin + ratio * (outMax - outMin)
  }

  /** Within the input interval the result is outMin plus the same fraction
      of the output span as x is of the input span. */
  lemma InterpolationFraction(x: real, xMin: real, xMax: real, outMin: real, outMax: real)
    requires xMin < xMax && xMin <= x <= xMax
    ensures (RemapToRange(x, xMin, xMax, outMin, outMax) - outMin) * (xMax - xMin)
            == (x - xMin) * (outMax - outMin)
  {
    var ratio := (x - xMin) / (xMax - xMin);
    assert ratio * (xMax - xMin) == x - xMin;
    calc {
      (RemapToRange(x, xMin, xMax, outMin, outMax) - outMin) * (xMax - xMin);
      (ratio * (outMax - outMin)) * (xMax - xMin);
      (ratio * (xMax - xMin)) * (outMax - outMin);
      (x - xMin) * (outMax - outMin);
    }
  }

  /** With an increasing (or flat) output interval, a larger input never
      gives a smaller output: the mapping is monotone over all reals. */
  lemma RemapMonotone(x: real, y: real, xMin: real, xMax: real, outMin: real, outMax: real)
    requires xMin < xMax && outMin <= outMax && x <= y
    ensures RemapToRange(x, xMin, xMax, outMin, outMax) <= RemapToRange(y, xMin, xMax, outMin, outMax)
  {
    if xMin <= x <= xMax && xMin <= y <= xMax {
      var span := xMax - xMin;
      var rx := (x - xMin) / span;
      var ry := (y - xMin) / span;
      assert rx <= ry by {
        assert rx * span == x - xMin;
        assert ry * span == y - xMin;
      }
      assert rx * (outMax - outMin) <= ry * (outMax - outMin);
    }
  }

  /** Mapping into an increasing output interval and back again returns the
      original value for every x in the input interval. */
  lemma RemapRoundTrip(x: real, xMin: real, xMax: real, outMin: real, outMax: real)
    requires xMin < xMax && outMin < outMax && xMin <= x <= xMax
    ensures RemapToRange(RemapToRange(x, xMin, xMax, outMin, outMax), outMin, outMax, xMin, xMax) == x
  {
    var y := RemapToRange(x, xMin, xMax, outMin, outMax);
    assert outMin <= y <= outMax;
    InterpolationFraction(x, xMin, xMax, outMin, outMax);
    InterpolationFraction(y, outMin, outMax, xMin, xMax);
    var z := RemapToRange(y, outMin, outMax, xMin, xMax);
    // (y - outMin) * span = (x - xMin) * outSpan and (z - xMin) * outSpan = (y - outMin) * span
    assert (z - xMin) * (outMax - outMin) == (x - xMin) * (outMax - outMin);
    CancelFactor(z - xMin, x - xMin, outMax - outMin);
  }

  /** A positive common factor cancels. */
  lemma CancelFactor(a: real, b: real, c: real)
    requires c > 0.0 && a * c == b * c
    ensures a == b
  {
    assert (a - b) * c == 0.0;
  }
}
