/**
 * The arithmetic of `extract_image_features` (bot.py): the image's size, its
 * pixel sum, and what the OpenCV stages report about it (mean saturation, mean
 * gradient magnitude, contour areas) become a four-number fingerprint for the
 * model selector.
 */
module Features {

  /** An image side in pixels; a decoded image is never empty. */
  type Dim = n: int | n >= 1 witness 1

  /** What the library stages of feature extraction report about an image. */
  datatype PixelAnalysis = PixelAnalysis(
    pixelSum: nat,           // sum of every channel of every pixel
    saturation: real,        // mean of the HSV saturation plane, divided by 255
    detailLevel: real,       // mean Sobel gradient magnitude, divided by 255
    contourAreas: seq<real>) // area of each external contour of the Otsu mask

  /** The ranges the library stages produce: means and areas are never negative. */
  predicate WellFormed(a: PixelAnalysis)
  {
    && a.saturation >= 0.0
    && a.detailLevel >= 0.0
    && forall i :: 0 <= i < |a.contourAreas| ==> a.contourAreas[i] >= 0.0
  }

  /** The fingerprint, in the column order the selector was trained on. */
  datatype Fingerprint = Fingerprint(
    numObjects: int,   // num_objects
    meanArea: real,    // mean_box_area
    categories: int,   // num_categories
    ratioHW: real)     // ratio_hw
  {
    /** The single feature row handed to the selector. */
    function Row(): seq<real>
    {
      [numObjects as real, meanArea, categories as real, ratioHW]
    }
  }

  /** Conversion of a number to an integer: truncation toward zero. */
  function Truncate(x: real): (r: int)
    ensures 0.0 <= x ==> 0 <= r && r as real <= x < r as real + 1.0
    ensures x < 0.0 ==> r <= 0 && r as real - 1.0 < x <= r as real
  {
    if x >= 0.0 then x.Floor else -((-x).Floor)
  }

  /** The content-derived perturbation scalar: pixel sum modulo 1000, over 1000. */
  function ImageHash(pixelSum: nat): (r: real)
    ensures 0.0 <= r < 1.0
    ensures r * 1000.0 == (pixelSum % 1000) as real
  {
    (pixelSum % 1000) as real / 1000.0
  }

  /** Contours of at most one thousandth of the image area are noise. */
  function MinArea(w: Dim, h: Dim): (r: real)
    ensures r > 0.0
  {
    (w * h) as real * 0.001
  }

  /** The areas of the significant contours, in the order they were found. */
  function SignificantAreas(areas: seq<real>, minArea: real): (r: seq<real>)
    ensures |r| <= |areas|
    ensures forall x :: x in r <==> x in areas && x > minArea
  {
    if areas == [] then []
    else
      var kept := SignificantAreas(areas[..|areas| - 1], minArea);
      var last := areas[|areas| - 1];
      assert areas == areas[..|areas| - 1] + [last];
      if last > minArea then kept + [last] else kept
  }

  /** Each area above the minimum is kept as often as it occurs; no other area is kept. */
  lemma {:induction false} SignificantMultiset(areas: seq<real>, minArea: real)
    ensures forall x :: multiset(SignificantAreas(areas, minArea))[x]
                     == if x > minArea then multiset(areas)[x] else 0
  {
    if areas != [] {
      var init := areas[..|areas| - 1];
      SignificantMultiset(init, minArea);
      assert areas == init + [areas[|areas| - 1]];
    }
  }

  /** The positions of the significant contours, an independent statement of the filter. */
  ghost function SignificantIndices(areas: seq<real>, minArea: real): set<int>
  {
    set i | 0 <= i < |areas| && areas[i] > minArea
  }

  function Sum(xs: seq<real>): real
  {
    if xs == [] then 0.0 else Sum(xs[..|xs| - 1]) + xs[|xs| - 1]
  }

  /** Mean significant area as a fraction of the image, 0.1 when there is none. */
  function MeanArea(significant: seq<real>, w: Dim, h: Dim): (r: real)
    ensures (forall x :: x in significant ==> x >= 0.0) ==> r >= 0.0
    ensures |significant| == 0 ==> r == 0.1
  {
    SumNonNegative(significant);
    if |significant| > 0 then Sum(significant) / (|significant| as real) / ((w * h) as real)
    else 0.1
  }

  function NumObjectsMod(numObjects: nat, hash: real): (r: int)
    ensures r >= 1
  {
    var n := Truncate(numObjects as real * (0.8 + 0.4 * hash));
    if n > 1 then n else 1
  }

  function MeanAreaMod(meanArea: real, hash: real): (r: real)
    ensures r <= 1.0
    ensures meanArea >= 0.0 && hash >= 0.0 ==> r >= 0.0
  {
    var m := meanArea * (0.7 + 0.6 * hash);
    if m < 1.0 then m else 1.0
  }

  function CategoriesMod(saturation: real, detailLevel: real, hash: real): (r: int)
    ensures 1 <= r <= 10
  {
    var c := Truncate(5.0 * saturation + 3.0 * detailLevel + 2.0 * hash);
    var atLeastOne := if c > 1 then c else 1;
    if atLeastOne < 10 then atLeastOne else 10
  }

  /** The fingerprint of a `w` by `h` image whose library stages reported `a`. */
  function Extract(w: Dim, h: Dim, a: PixelAnalysis): (r: Fingerprint)
    ensures r.numObjects >= 1
    ensures r.meanArea <= 1.0
    ensures WellFormed(a) ==> r.meanArea >= 0.0
    ensures 1 <= r.categories <= 10
    ensures r.ratioHW == h as real / w as real
  {
    var ratioHW := h as real / w as real;
    var hash := ImageHash(a.pixelSum);
    var significant := SignificantAreas(a.contourAreas, MinArea(w, h));
    assert WellFormed(a) ==> forall x :: x in significant ==> x >= 0.0;
    Fingerprint(
      NumObjectsMod(|significant|, hash),
      MeanAreaMod(MeanArea(significant, w, h), hash),
      CategoriesMod(a.saturation, a.detailLevel, hash),
      ratioHW)
  }

  // ---------------------------------------------------------------- lemmas

  lemma {:induction false} SumNonNegative(xs: seq<real>)
    ensures (forall x :: x in xs ==> x >= 0.0) ==> Sum(xs) >= 0.0
  {
    if xs != [] {
      var init := xs[..|xs| - 1];
      assert forall x :: x in init ==> x in xs;
      assert xs[|xs| - 1] in xs;
      SumNonNegative(init);
    }
  }

  /** A sum of values each above `bound` exceeds `bound` times their number. */
  lemma {:induction false} SumAbove(xs: seq<real>, bound: real)
    requires forall x :: x in xs ==> x > bound
    ensures |xs| > 0 ==> Sum(xs) > (|xs| as real) * bound
    ensures Sum(xs) >= (|xs| as real) * bound
  {
    if xs != [] {
      var init := xs[..|xs| - 1];
      assert xs[|xs| - 1] in xs;
      assert forall x :: x in init ==> x in xs;
      SumAbove(init, bound);
      assert (|xs| as real) * bound == (|init| as real) * bound + bound;
    }
  }

  /** The number of significant contours is the number of positions whose area exceeds the minimum. */
  lemma {:induction false} SignificantCount(areas: seq<real>, minArea: real)
    ensures |SignificantAreas(areas, minArea)| == |SignificantIndices(areas, minArea)|
  {
    if areas != [] {
      var n := |areas| - 1;
      var init := areas[..n];
      SignificantCount(init, minArea);
      var before := SignificantIndices(init, minArea);
      if areas[n] > minArea {
        assert SignificantIndices(areas, minArea) == before + {n};
      } else {
        assert SignificantIndices(areas, minArea) == before;
      }
    }
  }

  /** Truncation and the clamp keep at least one object; with no significant contour it is exactly one. */
  lemma NoSignificantContours(w: Dim, h: Dim, a: PixelAnalysis)
    requires forall i :: 0 <= i < |a.contourAreas| ==> a.contourAreas[i] <= MinArea(w, h)
    ensures Extract(w, h, a).numObjects == 1
    ensures Extract(w, h, a).meanArea == 0.1 * (0.7 + 0.6 * ImageHash(a.pixelSum))
    ensures 0.07 <= Extract(w, h, a).meanArea < 0.13
  {
    NothingSignificant(a.contourAreas, MinArea(w, h));
  }

  lemma {:induction false} NothingSignificant(areas: seq<real>, minArea: real)
    requires forall i :: 0 <= i < |areas| ==> areas[i] <= minArea
    ensures SignificantAreas(areas, minArea) == []
  {
    if areas != [] {
      NothingSignificant(areas[..|areas| - 1], minArea);
    }
  }

  /** The perturbed object count stays within 20% (and one truncation step) of the real count. */
  lemma PerturbedCountBounds(numObjects: nat, hash: real)
    requires numObjects >= 1
    requires 0.0 <= hash < 1.0
    ensures (numObjects as real) * 0.8 - 1.0 < NumObjectsMod(numObjects, hash) as real
    ensures NumObjectsMod(numObjects, hash) as real < (numObjects as real) * 1.2
  {
    var n := numObjects as real;
    var scaled := n * (0.8 + 0.4 * hash);
    ScaledRange(n, hash);
    assert 0.8 * n <= scaled < 1.2 * n;
    assert 0.0 <= scaled;
    var t := Truncate(scaled);
    assert t as real <= scaled < t as real + 1.0;
    ClampedBounds(n, scaled, t);
    assert NumObjectsMod(numObjects, hash) == if t > 1 then t else 1;
  }

  /** Linear core of the count bounds: a truncation of a value in [0.8n, 1.2n), lifted to at least 1. */
  lemma ClampedBounds(n: real, scaled: real, t: int)
    requires n >= 1.0 && 0.8 * n <= scaled < 1.2 * n
    requires t as real <= scaled < t as real + 1.0
    ensures 0.8 * n - 1.0 < (if t > 1 then t else 1) as real < 1.2 * n
  {
  }

  /** The perturbation factor lies in [0.8, 1.2), so it scales a positive count into that range. */
  lemma ScaledRange(n: real, hash: real)
    requires n >= 1.0 && 0.0 <= hash < 1.0
    ensures 0.8 * n <= n * (0.8 + 0.4 * hash) < 1.2 * n
  {
    var product := n * hash;
    assert product < n by {
      assert n * (1.0 - hash) > 0.0;
    }
    assert n * (0.8 + 0.4 * hash) == 0.8 * n + 0.4 * product;
  }

  /** With significant contours, the unperturbed mean area is above the 0.1% threshold. */
  lemma MeanAreaAboveThreshold(w: Dim, h: Dim, areas: seq<real>)
    requires SignificantAreas(areas, MinArea(w, h)) != []
    ensures MeanArea(SignificantAreas(areas, MinArea(w, h)), w, h) > 0.001
  {
    var significant := SignificantAreas(areas, MinArea(w, h));
    var n := |significant| as real;
    var pixels := (w * h) as real;
    var total := Sum(significant);
    var bound := MinArea(w, h);
    assert bound == pixels * 0.001 && bound > 0.0;
    assert pixels > 0.0;
    SumAbove(significant, bound);
    assert total > n * bound;
    QuotientAbove(total, n, bound);
    var mean := total / n;
    assert mean > pixels * 0.001;
    QuotientAbove(mean, pixels, 0.001);
    assert MeanArea(significant, w, h) == mean / pixels;
  }

  lemma QuotientAbove(a: real, b: real, c: real)
    requires b > 0.0 && a > b * c
    ensures a / b > c
  {
    var q := a / b;
    assert q * b == a;
    if q <= c {
      assert q * b <= c * b;
    }
  }

  /** The row the selector receives: four numbers, two of them whole, the last the raw aspect ratio. */
  lemma RowShape(w: Dim, h: Dim, a: PixelAnalysis)
    requires WellFormed(a)
    ensures var row := Extract(w, h, a).Row();
      && |row| == 4
      && row[0] >= 1.0 && row[0] == row[0].Floor as real
      && 0.0 <= row[1] <= 1.0
      && 1.0 <= row[2] <= 10.0 && row[2] == row[2].Floor as real
      && row[3] == h as real / w as real
  {
  }

  /**
   * A 100 by 100 image whose pixel sum is a multiple of 1000, with no
   * saturation, no detail and no contours: one object, area 0.07, one
   * category, square.
   */
  lemma NoContourSquare()
    ensures Extract(100, 100, PixelAnalysis(100 * 100 * 3 * 255, 0.0, 0.0, []))
         == Fingerprint(1, 0.07, 1, 1.0)
  {
  }
}
