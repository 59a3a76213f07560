/** `calculateScale` of src/utils.ts: the metres-per-map-unit factor, averaged over every pair of
    coordinate references. The GPS distance (src/geodistance.ts) and `Math.sqrt` are supplied by the
    caller. JavaScript's `0 / 0` is modelled by the `NaN` case of `JsNumber`. */
module Scale {
  import opened Dto
  import opened Vectors

  datatype JsNumber = Num(value: real) | NaN

  /** A pair whose map points are a non-zero distance apart; the source skips every other pair. */
  predicate Usable(refs: seq<CoordsReference>, sqrt: real -> real, i: nat, j: nat)
    requires i < |refs| && j < |refs|
  {
    GetVectorDistance(refs[i].mapPoint, refs[j].mapPoint, sqrt) != 0.0
  }

  /** GPS metres per map unit for the pair (i, j). */
  function Ratio(refs: seq<CoordsReference>, gps: (Vector2D, Vector2D) -> real, sqrt: real -> real,
                 i: nat, j: nat): real
    requires i < |refs| && j < |refs| && Usable(refs, sqrt, i, j)
  {
    gps(refs[i].gpsPoint, refs[j].gpsPoint) / GetVectorDistance(refs[i].mapPoint, refs[j].mapPoint, sqrt)
  }

  /** The ratios of the usable pairs (i, i + 1), ..., (i, j - 1), in the order they are visited. */
  function RowTerms(refs: seq<CoordsReference>, gps: (Vector2D, Vector2D) -> real, sqrt: real -> real,
                    i: nat, j: nat): seq<real>
    requires i < |refs| && j <= |refs|
  {
    if j <= i + 1 then []
    else RowTerms(refs, gps, sqrt, i, j - 1) +
         (if Usable(refs, sqrt, i, j - 1) then [Ratio(refs, gps, sqrt, i, j - 1)] else [])
  }

  /** The ratios of every usable pair (i, j) with i < k and i < j, in visiting order. */
  function Terms(refs: seq<CoordsReference>, gps: (Vector2D, Vector2D) -> real, sqrt: real -> real,
                 k: nat): seq<real>
    requires k <= |refs|
  {
    if k == 0 then [] else Terms(refs, gps, sqrt, k - 1) + RowTerms(refs, gps, sqrt, k - 1, |refs|)
  }

  function Sum(s: seq<real>): real
  {
    if s == [] then 0.0 else Sum(s[..|s| - 1]) + s[|s| - 1]
  }

  /** The value `calculateScale` returns. */
  function ScaleOf(refs: seq<CoordsReference>, gps: (Vector2D, Vector2D) -> real, sqrt: real -> real): JsNumber
  {
    if |refs| < 2 then Num(1.0)
    else
      var t := Terms(refs, gps, sqrt, |refs|);
      if |t| == 0 then NaN else Num(Sum(t) / (|t| as real))
  }

  method CalculateScale(refs: seq<CoordsReference>, gps: (Vector2D, Vector2D) -> real, sqrt: real -> real)
    returns (r: JsNumber)
    ensures r == ScaleOf(refs, gps, sqrt)
    ensures |refs| < 2 ==> r == Num(1.0)
  {
    if |refs| < 2 {
      return Num(1.0);
    }
    var scaleValue := 0.0;
    var iterations := 0;
    var i := 0;
    while i < |refs|
      invariant 0 <= i <= |refs|
      invariant scaleValue == Sum(Terms(refs, gps, sqrt, i))
      invariant iterations == |Terms(refs, gps, sqrt, i)|
    {
      var rowValue, rowIterations := ScanRow(refs, gps, sqrt, i);
      SumAppend(Terms(refs, gps, sqrt, i), RowTerms(refs, gps, sqrt, i, |refs|));
      scaleValue := scaleValue + rowValue;
      iterations := iterations + rowIterations;
      i := i + 1;
    }
    r := if iterations == 0 then NaN else Num(scaleValue / (iterations as real));
  }

  /** The inner loop of `calculateScale`: the pairs (i, j) for every j > i. */
  method ScanRow(refs: seq<CoordsReference>, gps: (Vector2D, Vector2D) -> real, sqrt: real -> real, i: nat)
    returns (rowValue: real, rowIterations: nat)
    requires i < |refs|
    ensures rowValue == Sum(RowTerms(refs, gps, sqrt, i, |refs|))
    ensures rowIterations == |RowTerms(refs, gps, sqrt, i, |refs|)|
  {
    rowValue, rowIterations := 0.0, 0;
    var j := i + 1;
    while j < |refs|
      invariant i + 1 <= j <= |refs|
      invariant rowValue == Sum(RowTerms(refs, gps, sqrt, i, j))
      invariant rowIterations == |RowTerms(refs, gps, sqrt, i, j)|
    {
      var mapMeters := GetVectorDistance(refs[i].mapPoint, refs[j].mapPoint, sqrt);
      if mapMeters == 0.0 {
        assert !Usable(refs, sqrt, i, j);
        assert RowTerms(refs, gps, sqrt, i, j + 1) == RowTerms(refs, gps, sqrt, i, j) + [] == RowTerms(refs, gps, sqrt, i, j);
        j := j + 1;
        continue;
      }
      var gpsMeters := gps(refs[i].gpsPoint, refs[j].gpsPoint);
      var ratio := gpsMeters / mapMeters;
      assert ratio == Ratio(refs, gps, sqrt, i, j);
      assert RowTerms(refs, gps, sqrt, i, j + 1) == RowTerms(refs, gps, sqrt, i, j) + [ratio];
      SumSnoc(RowTerms(refs, gps, sqrt, i, j), ratio);
      rowValue := rowValue + ratio;
      rowIterations := rowIterations + 1;
      j := j + 1;
    }
  }

  lemma SumSnoc(s: seq<real>, x: real)
    ensures Sum(s + [x]) == Sum(s) + x
  {
    assert (s + [x])[..|s|] == s;
  }

  /** With two or more references, the result is NaN exactly when no pair of references has map points
      a non-zero distance apart. */
  lemma ScaleIsNaNIffNoUsablePair(refs: seq<CoordsReference>, gps: (Vector2D, Vector2D) -> real, sqrt: real -> real)
    ensures ScaleOf(refs, gps, sqrt).NaN? <==>
            |refs| >= 2 && forall i, j :: 0 <= i < j < |refs| ==> !Usable(refs, sqrt, i, j)
  {
    TermsEmptyIff(refs, gps, sqrt, |refs|);
  }

  lemma {:induction false} RowTermsEmptyIff(refs: seq<CoordsReference>, gps: (Vector2D, Vector2D) -> real,
                                           sqrt: real -> real, i: nat, j: nat)
    requires i < |refs| && j <= |refs|
    ensures RowTerms(refs, gps, sqrt, i, j) == [] <==> forall k :: i < k < j ==> !Usable(refs, sqrt, i, k)
  {
    if j > i + 1 {
      RowTermsEmptyIff(refs, gps, sqrt, i, j - 1);
    }
  }

  lemma {:induction false} TermsEmptyIff(refs: seq<CoordsReference>, gps: (Vector2D, Vector2D) -> real,
                                        sqrt: real -> real, k: nat)
    requires k <= |refs|
    ensures Terms(refs, gps, sqrt, k) == [] <==>
            forall i, j :: 0 <= i < k && i < j < |refs| ==> !Usable(refs, sqrt, i, j)
  {
    if k > 0 {
      var a := Terms(refs, gps, sqrt, k - 1);
      var b := RowTerms(refs, gps, sqrt, k - 1, |refs|);
      assert Terms(refs, gps, sqrt, k) == a + b;
      assert |a + b| == |a| + |b|;
      TermsEmptyIff(refs, gps, sqrt, k - 1);
      RowTermsEmptyIff(refs, gps, sqrt, k - 1, |refs|);
      if a + b == [] {
        forall i, j | 0 <= i < k && i < j < |refs| ensures !Usable(refs, sqrt, i, j) {
          if i < k - 1 {
            assert a == [];
          } else {
            assert b == [];
          }
        }
      } else if a != [] {
        var i, j :| 0 <= i < k - 1 && i < j < |refs| && Usable(refs, sqrt, i, j);
      } else {
        var j :| k - 1 < j < |refs| && Usable(refs, sqrt, k - 1, j);
      }
    }
  }

  /** Every usable pair's ratio lies in [lo, hi]. */
  predicate RatiosWithin(refs: seq<CoordsReference>, gps: (Vector2D, Vector2D) -> real, sqrt: real -> real,
                         lo: real, hi: real)
  {
    forall a, b :: 0 <= a < b < |refs| && Usable(refs, sqrt, a, b) ==> lo <= Ratio(refs, gps, sqrt, a, b) <= hi
  }

  /** The sum of `s` lies between |s| copies of `lo` and |s| copies of `hi`. */
  predicate SumBetween(s: seq<real>, lo: real, hi: real)
  {
    Times(lo, |s|) <= Sum(s) <= Times(hi, |s|)
  }

  /** Every ratio of a row lies in [lo, hi] when every usable pair's does. */
  lemma {:induction false} RowTermsBounded(refs: seq<CoordsReference>, gps: (Vector2D, Vector2D) -> real,
                                          sqrt: real -> real, i: nat, j: nat, lo: real, hi: real)
    requires i < |refs| && j <= |refs|
    requires RatiosWithin(refs, gps, sqrt, lo, hi)
    ensures SumBetween(RowTerms(refs, gps, sqrt, i, j), lo, hi)
  {
    if j > i + 1 {
      RowTermsBounded(refs, gps, sqrt, i, j - 1, lo, hi);
      var t := RowTerms(refs, gps, sqrt, i, j - 1);
      if Usable(refs, sqrt, i, j - 1) {
        SumSnoc(t, Ratio(refs, gps, sqrt, i, j - 1));
      } else {
        assert RowTerms(refs, gps, sqrt, i, j) == t + [] == t;
      }
    }
  }

  lemma SumAppend(a: seq<real>, b: seq<real>)
    ensures Sum(a + b) == Sum(a) + Sum(b)
    decreases |b|
  {
    if b != [] {
      assert (a + b)[..|a + b| - 1] == a + b[..|b| - 1];
      SumAppend(a, b[..|b| - 1]);
    } else {
      assert a + b == a;
    }
  }

  lemma AddBounds(la: real, sa: real, ha: real, lb: real, sb: real, hb: real)
    requires la <= sa <= ha && lb <= sb <= hb
    ensures la + lb <= sa + sb <= ha + hb
  {
  }

  /** Two sums between their bounds concatenate to one between the combined bounds. */
  lemma AppendBounded(a: seq<real>, b: seq<real>, lo: real, hi: real)
    requires SumBetween(a, lo, hi) && SumBetween(b, lo, hi)
    ensures SumBetween(a + b, lo, hi)
  {
    SumAppend(a, b);
    TimesAdd(lo, |a|, |b|);
    TimesAdd(hi, |a|, |b|);
    assert |a + b| == |a| + |b|;
    AddBounds(Times(lo, |a|), Sum(a), Times(hi, |a|), Times(lo, |b|), Sum(b), Times(hi, |b|));
  }

  lemma {:induction false} TermsBounded(refs: seq<CoordsReference>, gps: (Vector2D, Vector2D) -> real,
                                       sqrt: real -> real, k: nat, lo: real, hi: real)
    requires k <= |refs|
    requires RatiosWithin(refs, gps, sqrt, lo, hi)
    ensures SumBetween(Terms(refs, gps, sqrt, k), lo, hi)
  {
    if k > 0 {
      TermsBounded(refs, gps, sqrt, k - 1, lo, hi);
      RowTermsBounded(refs, gps, sqrt, k - 1, |refs|, lo, hi);
      var a := Terms(refs, gps, sqrt, k - 1);
      var b := RowTerms(refs, gps, sqrt, k - 1, |refs|);
      assert Terms(refs, gps, sqrt, k) == a + b;
      AppendBounded(a, b, lo, hi);
    }
  }

  /** A sum between `k` copies of `lo` and `k` copies of `hi` has its mean between `lo` and `hi`. */
  lemma MeanBounded(s: real, k: nat, lo: real, hi: real)
    requires k > 0 && Times(lo, k) <= s <= Times(hi, k)
    ensures lo <= s / (k as real) <= hi
  {
    TimesIsProduct(lo, k);
    TimesIsProduct(hi, k);
    var n := k as real;
    var m := s / n;
    assert m * n == s;
  }

  /** The result is a mean: it lies between the smallest and the largest ratio of a usable pair. */
  lemma ScaleIsBetweenRatios(refs: seq<CoordsReference>, gps: (Vector2D, Vector2D) -> real, sqrt: real -> real,
                             lo: real, hi: real)
    requires RatiosWithin(refs, gps, sqrt, lo, hi)
    requires exists a, b :: 0 <= a < b < |refs| && Usable(refs, sqrt, a, b)
    ensures ScaleOf(refs, gps, sqrt).Num?
    ensures lo <= ScaleOf(refs, gps, sqrt).value <= hi
  {
    var a, b :| 0 <= a < b < |refs| && Usable(refs, sqrt, a, b);
    var t := Terms(refs, gps, sqrt, |refs|);
    TermsEmptyIff(refs, gps, sqrt, |refs|);
    assert t != [];
    TermsBounded(refs, gps, sqrt, |refs|, lo, hi);
    MeanBounded(Sum(t), |t|, lo, hi);
  }

  /** References that agree on one ratio calibrate the map to exactly that ratio. */
  lemma ConsistentReferencesGiveTheirRatio(refs: seq<CoordsReference>, gps: (Vector2D, Vector2D) -> real,
                                           sqrt: real -> real, rho: real)
    requires forall a, b :: 0 <= a < b < |refs| && Usable(refs, sqrt, a, b) ==> Ratio(refs, gps, sqrt, a, b) == rho
    requires exists a, b :: 0 <= a < b < |refs| && Usable(refs, sqrt, a, b)
    ensures ScaleOf(refs, gps, sqrt) == Num(rho)
  {
    ScaleIsBetweenRatios(refs, gps, sqrt, rho, rho);
  }

  /** Two references at the same map point: the only pair is skipped and the source divides 0 by 0. */
  lemma SameMapPointGivesNaN(gps: (Vector2D, Vector2D) -> real, sqrt: real -> real)
    requires sqrt(0.0) == 0.0
    ensures ScaleOf([CoordsReference(Vector2D(0.0, 0.0), Vector2D(0.0, 0.0)),
                     CoordsReference(Vector2D(0.0, 0.0), Vector2D(1.0, 1.0))], gps, sqrt) == NaN
  {
    var refs := [CoordsReference(Vector2D(0.0, 0.0), Vector2D(0.0, 0.0)),
                 CoordsReference(Vector2D(0.0, 0.0), Vector2D(1.0, 1.0))];
    assert !Usable(refs, sqrt, 0, 1);
    ScaleIsNaNIffNoUsablePair(refs, gps, sqrt);
  }

  /** The calibration the rest of the editor relies on: the mean ratio of the usable pairs, and the unit
      scale whenever there is no usable pair (as for fewer than two references). */
  function CalibratedScale(refs: seq<CoordsReference>, gps: (Vector2D, Vector2D) -> real, sqrt: real -> real): (r: real)
    ensures ScaleOf(refs, gps, sqrt).Num? ==> r == ScaleOf(refs, gps, sqrt).value
    ensures ScaleOf(refs, gps, sqrt).NaN? ==> r == 1.0
  {
    var t := Terms(refs, gps, sqrt, |refs|);
    if |refs| < 2 then
      1.0
    else if |t| == 0 then 1.0 else Sum(t) / (|t| as real)
  }

  /** The corrected calibration is always a number: 1 when no pair of references is usable. */
  lemma CalibratedScaleWithoutUsablePair(refs: seq<CoordsReference>, gps: (Vector2D, Vector2D) -> real,
                                         sqrt: real -> real)
    requires forall i, j :: 0 <= i < j < |refs| ==> !Usable(refs, sqrt, i, j)
    ensures CalibratedScale(refs, gps, sqrt) == 1.0
  {
    TermsEmptyIff(refs, gps, sqrt, |refs|);
  }
}
