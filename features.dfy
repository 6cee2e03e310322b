/**
 * Feature extraction: a window of samples and its magnitude spectrum become
 * the vector [log(low-band energy + 1), log(mid-band energy + 1), mean |x|].
 * The spectrum is given (the discrete Fourier transform is not modelled) as
 * non-negative magnitudes, one per frequency bin; bin k of n lies at
 * k * (RATE / 2) / (n - 1) Hz, the values of an evenly spaced grid from
 * 0 to RATE / 2 with n points. The natural logarithm is a parameter.
 */
module Features {
  import opened Config

  /** One spectral magnitude, the absolute value of a Fourier coefficient. */
  type Magnitude = x: real | 0.0 <= x

  /** The five band edges in Hz: four half-open bands between consecutive edges. */
  const BAND_EDGES: seq<int> := [50, 200, 800, 3200, 10000]

  function Abs(x: real): (r: real)
    ensures r >= 0.0 && (r == x || r == -x)
  {
    if x < 0.0 then -x else x
  }

  /**
   * Frequency of bin `k` of `n` on the evenly spaced grid from 0 to RATE / 2.
   * The grid starts at 0, ends at RATE / 2 when it has two or more points,
   * and a one-point grid holds only 0.
   */
  function BinFrequency(k: nat, n: nat): (f: real)
    requires k < n
    ensures 0.0 <= f <= (RATE as real) / 2.0
    ensures k == 0 ==> f == 0.0
    ensures n > 1 && k == n - 1 ==> f == (RATE as real) / 2.0
  {
    if n == 1 then 0.0
    else
      var f := (k as real) * ((RATE as real) / 2.0) / ((n - 1) as real);
      GridPointBounds(k as real, (RATE as real) / 2.0, (n - 1) as real);
      f
  }

  /** `k * top / d` lies in [0, top] for 0 <= k <= d, and is `top` at `k == d`. */
  lemma GridPointBounds(k: real, top: real, d: real)
    requires 0.0 <= k <= d && d > 0.0 && top >= 0.0
    ensures 0.0 <= k * top / d <= top
    ensures k == d ==> k * top / d == top
  {
    DivideBound(k * top, top, d);
  }

  /** Dividing by a positive `d` keeps a bound scaled by `d`. */
  lemma DivideBound(a: real, b: real, d: real)
    requires d > 0.0 && a <= b * d
    ensures a / d <= b
  {
    assert a / d * d == a;
  }

  /**
   * The band mask: `lo <= freq < hi`. A bin can only be in a non-empty band
   * whose lower edge is at most RATE / 2.
   */
  predicate InBand(k: nat, n: nat, lo: int, hi: int): (r: bool)
    requires k < n
    ensures r ==> lo < hi && lo as real <= (RATE as real) / 2.0
  {
    lo as real <= BinFrequency(k, n) < hi as real
  }

  /**
   * On integer bin indices the mask is exact integer arithmetic:
   * `2 * lo * (n - 1) <= k * RATE < 2 * hi * (n - 1)`, for every positive lower edge.
   */
  lemma MaskExact(k: nat, n: nat, lo: int, hi: int)
    requires k < n
    requires 0 < lo
    ensures InBand(k, n, lo, hi) <==> 2 * lo * (n - 1) <= k * RATE < 2 * hi * (n - 1)
  {
    if n > 1 {
      var d := (n - 1) as real;
      CrossMultiply(k as real, RATE as real, d, lo as real, hi as real);
      CastProduct(2 * lo, n - 1);
      CastProduct(2 * hi, n - 1);
      CastProduct(k, RATE);
    }
  }

  /** `lo <= K * (R / 2) / d < hi` is `2 * lo * d <= K * R < 2 * hi * d` for positive d. */
  lemma CrossMultiply(kr: real, rate: real, d: real, lo: real, hi: real)
    requires d > 0.0
    ensures lo <= kr * (rate / 2.0) / d < hi <==> 2.0 * lo * d <= kr * rate < 2.0 * hi * d
  {
    var f := kr * (rate / 2.0) / d;
    assert f * d == kr * rate / 2.0;
    assert lo <= f <==> lo * d <= f * d;
    assert f < hi <==> f * d < hi * d;
  }

  lemma CastProduct(a: int, b: int)
    ensures (a * b) as real == (a as real) * (b as real)
  {
  }

  /**
   * `np.any(mask)`: some bin lies in the band. Never for an empty grid, an
   * empty band, or a band that starts above RATE / 2.
   */
  predicate AnyInBand(n: nat, lo: int, hi: int): (r: bool)
    ensures r ==> n > 0 && lo < hi && lo as real <= (RATE as real) / 2.0
  {
    exists k: nat :: k < n && InBand(k, n, lo, hi)
  }

  /** `np.sum(fft[mask])` over the bins `from..|fft|`. */
  function MaskedSum(fft: seq<Magnitude>, from: nat, lo: int, hi: int): (r: real)
    requires from <= |fft|
    ensures r >= 0.0
    ensures (forall k: nat :: from <= k < |fft| ==> !InBand(k, |fft|, lo, hi)) ==> r == 0.0
    decreases |fft| - from
  {
    if from == |fft| then 0.0
    else (if InBand(from, |fft|, lo, hi) then fft[from] else 0.0) + MaskedSum(fft, from + 1, lo, hi)
  }

  /**
   * The energy of band [lo, hi): the masked sum if some bin is in the band,
   * else 0.0. The guard changes nothing, the energy is never negative, it is
   * 0.0 when no bin is in the band.
   */
  function BandEnergy(fft: seq<Magnitude>, lo: int, hi: int): (e: real)
    ensures e == MaskedSum(fft, 0, lo, hi)
    ensures e >= 0.0
    ensures !AnyInBand(|fft|, lo, hi) ==> e == 0.0
  {
    if AnyInBand(|fft|, lo, hi) then MaskedSum(fft, 0, lo, hi) else 0.0
  }

  /** The masked sum over `from..|fft|` is 0.0 exactly when every bin there in the band has magnitude 0. */
  lemma {:induction false} MaskedSumZero(fft: seq<Magnitude>, from: nat, lo: int, hi: int)
    requires from <= |fft|
    ensures MaskedSum(fft, from, lo, hi) == 0.0 <==>
      forall k: nat :: from <= k < |fft| && InBand(k, |fft|, lo, hi) ==> fft[k] == 0.0
    decreases |fft| - from
  {
    if from < |fft| {
      MaskedSumZero(fft, from + 1, lo, hi);
    }
  }

  /** A band's energy is 0.0 exactly when every bin in the band has magnitude 0. */
  lemma BandEnergyZero(fft: seq<Magnitude>, lo: int, hi: int)
    ensures BandEnergy(fft, lo, hi) == 0.0 <==>
      forall k: nat :: k < |fft| && InBand(k, |fft|, lo, hi) ==> fft[k] == 0.0
  {
    MaskedSumZero(fft, 0, lo, hi);
  }

  /** The list built by the loop over consecutive edge pairs: one energy per band. */
  function EnergyBands(fft: seq<Magnitude>, edges: seq<int>): (r: seq<real>)
    ensures |r| == if |edges| < 2 then 0 else |edges| - 1
    ensures forall i :: 0 <= i < |r| ==> r[i] == BandEnergy(fft, edges[i], edges[i + 1])
    ensures forall i :: 0 <= i < |r| ==> r[i] >= 0.0
    decreases |edges|
  {
    if |edges| < 2 then []
    else [BandEnergy(fft, edges[0], edges[1])] + EnergyBands(fft, edges[1..])
  }

  /** Sum of absolute sample values: never negative, at most n for samples in [-1, 1]. */
  function SumAbs(chunk: seq<real>): (r: real)
    ensures r >= 0.0
    ensures (forall i :: 0 <= i < |chunk| ==> -1.0 <= chunk[i] <= 1.0) ==> r <= |chunk| as real
    decreases |chunk|
  {
    if chunk == [] then 0.0 else Abs(chunk[0]) + SumAbs(chunk[1..])
  }

  /** `np.mean(np.abs(chunk))`: the intensity lies in [0, 1] for samples in [-1, 1]. */
  function MeanAbs(chunk: seq<real>): (r: real)
    requires |chunk| > 0
    ensures r >= 0.0
    ensures (forall i :: 0 <= i < |chunk| ==> -1.0 <= chunk[i] <= 1.0) ==> r <= 1.0
  {
    var n := |chunk| as real;
    assert (forall i :: 0 <= i < |chunk| ==> -1.0 <= chunk[i] <= 1.0) ==> SumAbs(chunk) / n <= 1.0 by {
      if SumAbs(chunk) <= n {
        DivideBound(SumAbs(chunk), 1.0, n);
      }
    }
    SumAbs(chunk) / n
  }

  /**
   * `extract_features`: exactly three components, the log of energy + 1 for
   * the 50-200 Hz band and for the 800-3200 Hz band, and the mean absolute
   * sample. The `len(energy_bands) > 2` guard always holds.
   */
  function ExtractFeatures(fft: seq<Magnitude>, chunk: seq<real>, ln: real -> real): (r: seq<real>)
    requires |chunk| > 0
    ensures |r| == 3
    ensures r[0] == ln(BandEnergy(fft, 50, 200) + 1.0)
    ensures r[1] == ln(BandEnergy(fft, 800, 3200) + 1.0)
    ensures r[2] == MeanAbs(chunk)
  {
    var energyBands := EnergyBands(fft, BAND_EDGES);
    var intensity := MeanAbs(chunk);
    var lowEnergy := ln(energyBands[0] + 1.0);
    var midEnergy := if |energyBands| > 2 then ln(energyBands[2] + 1.0) else 0.0;
    [lowEnergy, midEnergy, intensity]
  }

  /**
   * Both logarithm arguments are at least 1, so with a logarithm that is
   * monotone and maps 1 to 0 both energy features are non-negative; the
   * intensity is non-negative, and at most 1 for samples in [-1, 1].
   */
  lemma FeaturesInRange(fft: seq<Magnitude>, chunk: seq<real>, ln: real -> real)
    requires |chunk| > 0
    requires ln(1.0) == 0.0
    requires forall x, y :: 1.0 <= x <= y ==> ln(x) <= ln(y)
    ensures BandEnergy(fft, 50, 200) + 1.0 >= 1.0 && BandEnergy(fft, 800, 3200) + 1.0 >= 1.0
    ensures ExtractFeatures(fft, chunk, ln)[0] >= 0.0
    ensures ExtractFeatures(fft, chunk, ln)[1] >= 0.0
    ensures ExtractFeatures(fft, chunk, ln)[2] >= 0.0
    ensures (forall i :: 0 <= i < |chunk| ==> -1.0 <= chunk[i] <= 1.0) ==> ExtractFeatures(fft, chunk, ln)[2] <= 1.0
  {
  }

  /**
   * The bands are pairwise disjoint: a bin is in at most one of them, and in
   * one of them exactly when its frequency is in [50, 10000) Hz. Bins below
   * 50 Hz or at or above 10000 Hz are in none.
   */
  lemma BinInOneBand(k: nat, n: nat)
    requires k < n
    ensures forall i, j :: 0 <= i < j < 4 ==>
      !(InBand(k, n, BAND_EDGES[i], BAND_EDGES[i + 1]) && InBand(k, n, BAND_EDGES[j], BAND_EDGES[j + 1]))
    ensures (exists i :: 0 <= i < 4 && InBand(k, n, BAND_EDGES[i], BAND_EDGES[i + 1]))
      <==> 50.0 <= BinFrequency(k, n) < 10000.0
  {
    var f := BinFrequency(k, n);
    if 50.0 <= f < 10000.0 {
      var i := if f < 200.0 then 0 else if f < 800.0 then 1 else if f < 3200.0 then 2 else 3;
      assert InBand(k, n, BAND_EDGES[i], BAND_EDGES[i + 1]);
    }
  }

  /** A bin sits on a frequency `e` exactly when `k * RATE == 2 * e * (n - 1)`. */
  lemma FrequencyOnEdge(k: nat, n: nat, e: int)
    requires k < n && n > 1
    ensures BinFrequency(k, n) == e as real <==> k * RATE == 2 * e * (n - 1)
  {
    var d := (n - 1) as real;
    var f := BinFrequency(k, n);
    assert f * d == (k as real) * (RATE as real) / 2.0;
    assert f == e as real <==> f * d == (e as real) * d;
    CastProduct(k, RATE);
    CastProduct(2 * e, n - 1);
  }

  /**
   * On a grid of 1025 points, the one of a window of CHUNK samples, the bin
   * frequencies are k * 22050 / 1024 Hz, and none of them is a band edge.
   */
  lemma NoBinOnBandEdge()
    ensures forall k: nat, i :: k < 1025 && 0 <= i < |BAND_EDGES| ==> BinFrequency(k, 1025) != BAND_EDGES[i] as real
  {
    forall k: nat, i | k < 1025 && 0 <= i < |BAND_EDGES|
      ensures BinFrequency(k, 1025) != BAND_EDGES[i] as real
    {
      FrequencyOnEdge(k, 1025, BAND_EDGES[i]);
      assert k * RATE != 2 * BAND_EDGES[i] * 1024;
    }
  }
}
