/**
 * The decision logic of the Monte Carlo surface integrator: which light a
 * single-light estimate picks, how many samples an area light gets and
 * where its Halton streams start, the multiple-importance-sampling weights
 * of the light and material halves, the split of dispersive and glossy rays
 * into sub-samples, the recursion guard of `recursiveRaytrace`, and the
 * construction of the caustic photon map with its load, reuse and save
 * fallbacks.
 *
 * Colours, rays and materials are not part of this model: a Halton sequence
 * is a function from its start index to its first value, the alpha a traced
 * ray returns is an input, and the photon paths come from PhotonPaths.
 */
module MonteCarlo {

  import opened Wrappers
  import opened CArith
  import opened Bsdf
  import opened PhotonPaths

  // ---------------------------------------------------------------------
  // Choosing one light
  // ---------------------------------------------------------------------

  /** `min((int)(h * n), n - 1)`: the light a Halton value `h` picks among `n`. */
  function LightIndex(h: real, n: int): (l: int)
    requires 0.0 <= h && n >= 1
    ensures 0 <= l < n
  {
    var k := Trunc(Mul(h, n as real));
    if k < n - 1 then k else n - 1
  }

  /** A fraction below one of a positive whole is below the whole; one or more is at least the whole. */
  lemma ScaleBelowWhole(h: real, n: real)
    requires 0.0 <= h && n > 0.0
    ensures h < 1.0 ==> Mul(h, n) < n
    ensures h >= 1.0 ==> Mul(h, n) >= n
  {
    if h < 1.0 {
      assert Mul(1.0 - h, n) > 0.0;
    } else {
      assert Mul(h - 1.0, n) >= 0.0;
    }
  }

  /** Two integers whose unit intervals both contain `x` are equal. */
  lemma FloorUnique(x: real, t: int, k: int)
    requires t as real <= x < t as real + 1.0
    requires k as real <= x < k as real + 1.0
    ensures t == k
  {
  }

  /**
   * Below 1 the value picks light `k` exactly when it falls in the k-th of
   * `n` equal bins of [0, 1); from 1 on it picks the last light.
   */
  lemma LightIndexBins(h: real, n: int, k: int)
    requires 0.0 <= h && n >= 1 && 0 <= k < n
    ensures h < 1.0 ==> (LightIndex(h, n) == k <==> k as real <= h * n as real < (k + 1) as real)
    ensures h >= 1.0 ==> LightIndex(h, n) == n - 1
  {
    var x := Mul(h, n as real);
    var t := Trunc(x);
    ScaleBelowWhole(h, n as real);
    if h < 1.0 {
      assert t < n && LightIndex(h, n) == t;
      if k as real <= x < (k + 1) as real {
        FloorUnique(x, t, k);
      }
    }
  }

  /** The light picked and the factor the estimate is scaled by (`* num_lights`). */
  datatype LightChoice = LightChoice(light: int, scale: int)

  /** The Halton sequence of base 2 is read at the per-thread correlative sample number. */
  class DirectLighting {
    /** `correlative_sample_number_`: one counter per render thread. */
    var correlative: seq<int>
    /** `image_film_->getBaseSamplingOffset()`. */
    const baseOffset: int

    constructor (threads: nat, base: int)
      ensures correlative == seq(threads, _ => 0) && baseOffset == base
    {
      correlative := seq(threads, _ => 0);
      baseOffset := base;
    }

    /**
     * `estimateOneDirectLight`: without lights there is no estimate and the
     * counters do not move. Otherwise the light is picked by the first value
     * of the base-2 sequence started at `base + correlative[thread] - 1`,
     * the thread's counter (and no other) advances by one, and the estimate
     * is scaled by the number of lights.
     */
    method EstimateOneDirectLight(thread: nat, numLights: int, halton2: int -> real) returns (choice: Option<LightChoice>)
      requires thread < |correlative|
      requires forall i :: 0.0 <= halton2(i) < 1.0
      modifies this
      ensures numLights <= 0 ==> choice == None && correlative == old(correlative)
      ensures numLights > 0 ==> (|correlative| == |old(correlative)| &&
        correlative[thread] == old(correlative)[thread] + 1 &&
        (forall t :: 0 <= t < |correlative| && t != thread ==> correlative[t] == old(correlative)[t]))
      ensures numLights > 0 ==> (choice.Some? && choice.value.scale == numLights &&
        choice.value.light == LightIndex(halton2(baseOffset + old(correlative)[thread] - 1), numLights))
    {
      if numLights <= 0 {
        return None;
      }
      var h := halton2(baseOffset + correlative[thread] - 1);
      var light := LightIndex(h, numLights);
      correlative := correlative[thread := correlative[thread] + 1];
      choice := Some(LightChoice(light, numLights));
    }
  }

  // ---------------------------------------------------------------------
  // Sample counts and Halton streams of an area light
  // ---------------------------------------------------------------------

  /**
   * `division > 1 ? max(1, count / division) : count`: the share of a
   * sample count left to a ray that is one of `division` sub-rays.
   */
  function SplitSamples(count: int, division: int): (r: int)
  {
    if division > 1 then (var q := CDiv(count, division); if q < 1 then 1 else q) else count
  }

  /**
   * An undivided ray keeps the whole count; a divided one keeps at least one
   * sample and, for a positive count, never more than the count, and exactly
   * the floor of `count / division` once the count is at least `division`.
   */
  lemma SplitSamplesBounds(count: int, division: int)
    ensures var r := SplitSamples(count, division);
      (division <= 1 ==> r == count) &&
      (division > 1 ==> r >= 1 && (count >= 1 ==> r <= count)) &&
      (division > 1 && count >= division ==> r * division <= count < (r + 1) * division)
  {
    if division > 1 && count >= 1 {
      var q := CDiv(count, division);
      assert count == division * q + CMod(count, division);
      if q >= 1 {
        MulAtLeast(q, division);
      }
    }
  }

  /**
   * `num_samples` of an area light: `ceil(nSamples * multiplier)`, split by
   * the ray division.
   */
  function LightSamples(nSamples: int, multiplier: real, division: int): (r: int)
    ensures division > 1 ==> r >= 1
    ensures nSamples as real * multiplier > 0.0 ==> r >= 1
  {
    SplitSamplesBounds(Ceil(nSamples as real * multiplier), division);
    SplitSamples(Ceil(nSamples as real * multiplier), division)
  }

  /**
   * `offs = num_samples * sample + offset + loffs * loffs_delta` in unsigned
   * 32-bit arithmetic: the first Halton index of one light at one pixel sample.
   */
  function LightSampleOffset(numSamples: int, sample: int, offset: int, loffs: int, delta: int): (o: int)
    ensures 0 <= o < Word
    ensures 0 <= numSamples * sample + offset + loffs * delta < Word ==> o == numSamples * sample + offset + loffs * delta
  {
    (numSamples * sample + offset + loffs * delta) % Word
  }

  /**
   * When no offset wraps, consecutive pixel samples of one light are given
   * disjoint blocks of `numSamples` Halton indices: the block of an earlier
   * sample ends at or before the block of a later one starts.
   */
  lemma SampleBlocksDisjoint(numSamples: nat, s1: nat, s2: nat, offset: nat, loffs: nat, delta: nat)
    requires s1 < s2
    requires numSamples * s2 + offset + loffs * delta < Word
    ensures LightSampleOffset(numSamples, s1, offset, loffs, delta) + numSamples <=
      LightSampleOffset(numSamples, s2, offset, loffs, delta)
  {
    MulMonotone(numSamples, s1 + 1, s2);
    assert numSamples * (s1 + 1) == numSamples * s1 + numSamples;
    MulMonotone(numSamples, s1, s2);
  }

  /** The start index of a Halton sequence set to `offs - 1` (unsigned, so 0 wraps to 2^32 - 1). */
  function HaltonStart(offs: int): int { (offs - 1) % Word }

  /** The streams of an area-light estimate: the sample count and where the two halves start. */
  datatype Streams = Streams(samples: int, lightStart: int, materialStart: int)

  /**
   * `doLightEstimation`: a Dirac light is sampled once, without streams; an
   * area light gets its sample count, and the light-sampling half and the
   * material-sampling half both start their base-2 and base-3 sequences one
   * before `offs`, so the two halves see the same Halton points.
   */
  function DoLightEstimation(dirac: bool, nSamples: int, multiplier: real, division: int,
                             sample: int, offset: int, loffs: int, delta: int): (r: Option<Streams>)
    ensures r.None? <==> dirac
    ensures r.Some? ==> r.value.lightStart == r.value.materialStart
    ensures r.Some? ==> (0 <= r.value.lightStart < Word &&
      (r.value.lightStart + 1) % Word == LightSampleOffset(r.value.samples, sample, offset, loffs, delta))
    ensures r.Some? && division > 1 ==> r.value.samples >= 1
  {
    if dirac then None
    else
      var n := LightSamples(nSamples, multiplier, division);
      var offs := LightSampleOffset(n, sample, offset, loffs, delta);
      Some(Streams(n, HaltonStart(offs), HaltonStart(offs)))
  }

  // ---------------------------------------------------------------------
  // Multiple importance sampling
  // ---------------------------------------------------------------------

  /** The pdf below which a material sample is ignored (`1e-6f`). */
  const MinPdf: real := 0.000001

  /** `a * b`, with its sign. */
  function Mul(a: real, b: real): (p: real)
    ensures a > 0.0 && b > 0.0 ==> p > 0.0
    ensures a >= 0.0 && b >= 0.0 ==> p >= 0.0
  {
    a * b
  }

  /** `x * x`: never negative, and positive unless `x` is 0. */
  function Sq(x: real): (s: real)
    ensures s >= 0.0
    ensures x != 0.0 ==> s > 0.0
    ensures s == x * x
  {
    if x < 0.0 then Mul(-x, -x) else Mul(x, x)
  }

  /** A fraction of a non-negative part of a positive whole. */
  lemma Fraction(x: real, y: real)
    requires 0.0 <= x <= y && y > 0.0
    ensures 0.0 <= x / y <= 1.0 && (x / y) * y == x
    ensures x > 0.0 ==> x / y > 0.0
  {
  }

  /** Two parts of a non-zero whole, each over the whole, add up to one. */
  lemma AddFractions(a: real, b: real, s: real)
    requires s != 0.0 && a + b == s
    ensures a / s + b / s == 1.0
  {
  }

  /** The power heuristic `a^2 / (a^2 + b^2)`. */
  function PowerHeuristic(a: real, b: real): (w: real)
    requires a != 0.0 || b != 0.0
    ensures 0.0 <= w <= 1.0
    ensures w * (Sq(a) + Sq(b)) == Sq(a)
    ensures a != 0.0 ==> w > 0.0
    ensures b != 0.0 ==> w < 1.0
  {
    Fraction(Sq(a), Sq(a) + Sq(b));
    Sq(a) / (Sq(a) + Sq(b))
  }

  /**
   * The weight of a light sample (`areaLightSampleLight`): 1 unless the light
   * can be hit by a material sample whose pdf exceeds 1e-6, and otherwise
   * the power heuristic of the light pdf against the material pdf.
   */
  function LightSampleWeight(canIntersect: bool, lightPdf: real, materialPdf: real): (w: real)
    requires lightPdf > 0.0
    ensures 0.0 <= w <= 1.0
    ensures !canIntersect || materialPdf <= MinPdf ==> w == 1.0
  {
    if canIntersect && materialPdf > MinPdf then PowerHeuristic(lightPdf, materialPdf) else 1.0
  }

  /**
   * The weight of a material sample that hits the light
   * (`areaLightSampleMaterial`): the light reports the inverse of its pdf,
   * so the light pdf is `1 / lightPdfInverse`; the weight is the power
   * heuristic of the material pdf against it. An inverse of 0 makes the light
   * pdf infinite in floating point, and the weight 0.
   */
  function MaterialSampleWeight(lightPdfInverse: real, materialPdf: real): (w: real)
    requires lightPdfInverse >= 0.0
    ensures 0.0 <= w <= 1.0
    ensures lightPdfInverse == 0.0 ==> w == 0.0
  {
    if lightPdfInverse == 0.0 then 0.0
    else
      var l := 1.0 / lightPdfInverse;
      PowerHeuristic(materialPdf, l)
  }

  /**
   * The weight a light sample's contribution carries in the sum: none when
   * the light's pdf is at or below the cut-off, its MIS weight otherwise.
   */
  function LightSampleCounted(canIntersect: bool, lightPdf: real, materialPdf: real): (w: real)
    requires lightPdf > 0.0
    ensures 0.0 <= w <= 1.0
    ensures lightPdf <= MinPdf ==> w == 0.0
    ensures lightPdf > MinPdf && (!canIntersect || materialPdf <= MinPdf) ==> w == 1.0
  {
    if lightPdf <= MinPdf then 0.0 else LightSampleWeight(canIntersect, lightPdf, materialPdf)
  }

  /**
   * The weight a material sample that hits the light carries in the sum:
   * none when the light cannot be intersected, when the material pdf is at
   * or below the cut-off (the sample is skipped), or when the inverse pdf
   * the light reports is at or below it (the sample adds nothing); its MIS
   * weight otherwise.
   */
  function MaterialSampleCounted(canIntersect: bool, lightPdfInverse: real, materialPdf: real): (w: real)
    requires lightPdfInverse >= 0.0
    ensures 0.0 <= w <= 1.0
    ensures !canIntersect || materialPdf <= MinPdf || lightPdfInverse <= MinPdf ==> w == 0.0
  {
    if !canIntersect || materialPdf <= MinPdf || lightPdfInverse <= MinPdf then 0.0
    else MaterialSampleWeight(lightPdfInverse, materialPdf)
  }

  /** The inverse of a positive pdf at or below the cut-off is far above it. */
  lemma InverseOfSmall(l: real)
    requires 0.0 < l <= MinPdf
    ensures 1.0 / l > MinPdf
  {
    assert (1.0 / l) * l == 1.0;
  }

  /**
   * The two counted weights of one direction never add up to more than one,
   * and add up to exactly one unless the light's pdf is at or below the
   * cut-off, or (when both strategies apply) the inverse pdf the light
   * reports is: the material sample is then dropped with the light sample
   * still weighted down.
   */
  lemma MisWeightsSum(canIntersect: bool, lightPdf: real, materialPdf: real)
    requires lightPdf > 0.0 && materialPdf >= 0.0
    ensures var sum := LightSampleCounted(canIntersect, lightPdf, materialPdf) +
                       MaterialSampleCounted(canIntersect, 1.0 / lightPdf, materialPdf);
      sum <= 1.0 &&
      (sum == 1.0 <==> lightPdf > MinPdf && (canIntersect && materialPdf > MinPdf ==> 1.0 / lightPdf > MinPdf))
  {
    var l, m := lightPdf, materialPdf;
    assert 1.0 / (1.0 / l) == l;
    if l <= MinPdf {
      InverseOfSmall(l);
    }
    if canIntersect && m > MinPdf {
      AddFractions(Sq(l), Sq(m), Sq(l) + Sq(m));
    }
  }

  // ---------------------------------------------------------------------
  // Dispersive and glossy sub-samples
  // ---------------------------------------------------------------------

  /** `RayDivision`: how many sub-rays the current ray is one of, and which. */
  datatype RayDivision = RayDivision(division: int, offset: int)

  /** The ray division of the `ns`-th of `samples` sub-rays. */
  function Child(rd: RayDivision, samples: int, ns: int): RayDivision {
    RayDivision(rd.division * samples, rd.division * samples * rd.offset + ns)
  }

  /** The sum of a sequence of alphas. */
  function Sum(xs: seq<real>): real {
    if xs == [] then 0.0 else Sum(xs[..|xs| - 1]) + xs[|xs| - 1]
  }

  /** The alphas returned by the first `k` sub-samples, summed. */
  function AlphaSum(traced: nat -> seq<real>, k: nat): real {
    if k == 0 then 0.0 else AlphaSum(traced, k - 1) + Sum(traced(k - 1))
  }

  /**
   * The loop shared by `dispersive` and `glossy`: the sample count is the
   * configured one split by the ray division; the `ns`-th sub-ray is one of
   * `division * samples` with offset `division * samples * offset + ns`. Each
   * sub-sample returns the alphas of the rays it traced (none when its
   * material sample is rejected, two when a glossy sample both reflects and
   * transmits), and the result is their sum times `1 / samples`.
   */
  method SubSamples(rd: RayDivision, initial: int, traced: nat -> seq<real>)
    returns (children: seq<RayDivision>, alpha: real)
    requires rd.division > 1 || initial >= 1
    ensures |children| == SplitSamples(initial, rd.division) && |children| >= 1
    ensures forall ns :: 0 <= ns < |children| ==> children[ns] == Child(rd, |children|, ns)
    ensures alpha == AlphaSum(traced, |children|) * (1.0 / |children| as real)
  {
    SplitSamplesBounds(initial, rd.division);
    var samples := SplitSamples(initial, rd.division);
    var newDivision := rd.division * samples;
    var branch := newDivision * rd.offset;
    var accum := 0.0;
    children := [];
    for ns := 0 to samples
      invariant |children| == ns
      invariant forall k :: 0 <= k < ns ==> children[k] == Child(rd, samples, k)
      invariant branch == newDivision * rd.offset + ns
      invariant accum == AlphaSum(traced, ns)
    {
      children := children + [RayDivision(newDivision, branch)];
      accum := accum + Sum(traced(ns));
      branch := branch + 1;
    }
    alpha := accum * (1.0 / samples as real);
  }

  /** Alphas in [0, 1], at most `c` of them: their sum lies in [0, c]. */
  lemma {:induction false} SumBound(xs: seq<real>, c: nat)
    requires |xs| <= c
    requires forall i :: 0 <= i < |xs| ==> 0.0 <= xs[i] <= 1.0
    ensures 0.0 <= Sum(xs) <= c as real
  {
    if xs != [] {
      SumBound(xs[..|xs| - 1], c - 1);
    }
  }

  /** `k` sub-samples each returning at most `c` alphas in [0, 1] sum to at most `c * k`. */
  lemma {:induction false} AlphaSumBound(traced: nat -> seq<real>, k: nat, c: nat)
    requires forall i: nat :: i < k ==> |traced(i)| <= c
    requires forall i: nat, j :: i < k && 0 <= j < |traced(i)| ==> 0.0 <= traced(i)[j] <= 1.0
    ensures 0.0 <= AlphaSum(traced, k) <= (c * k) as real
  {
    if k > 0 {
      AlphaSumBound(traced, k - 1, c);
      SumBound(traced(k - 1), c);
      assert c * k == c * (k - 1) + c;
    }
  }

  /**
   * When every sub-sample returns at most `c` alphas, each in [0, 1], the
   * alpha of the loop lies in [0, c]: in [0, 1] for the dispersive loop and
   * for glossy materials that do not both reflect and transmit.
   */
  lemma SubSampleAlphaBound(traced: nat -> seq<real>, samples: nat, c: nat)
    requires samples >= 1
    requires forall i: nat :: i < samples ==> |traced(i)| <= c
    requires forall i: nat, j :: i < samples && 0 <= j < |traced(i)| ==> 0.0 <= traced(i)[j] <= 1.0
    ensures 0.0 <= AlphaSum(traced, samples) * (1.0 / samples as real) <= c as real
  {
    AlphaSumBound(traced, samples, c);
    var n := samples as real;
    assert (c * samples) as real == c as real * n;
    assert AlphaSum(traced, samples) * (1.0 / n) == AlphaSum(traced, samples) / n;
  }

  /**
   * The bound is reached: a single glossy sub-sample that both reflects and
   * transmits, each ray fully opaque, gives the loop an alpha of 2.
   */
  lemma GlossyAlphaReachesTwo()
    ensures AlphaSum(_ => [1.0, 1.0], 1) * (1.0 / 1 as real) == 2.0
  {
    var xs := [1.0, 1.0];
    assert xs[..1] == [1.0];
    assert [1.0][..0] == [];
  }

  /**
   * Sub-rays of two parents with the same division and sample count never
   * share an offset unless they are the same sub-ray of the same parent, so
   * their decorrelation samples are drawn from distinct Halton indices.
   */
  lemma ChildOffsetsDistinct(rd1: RayDivision, rd2: RayDivision, samples: int, i: int, j: int)
    requires rd1.division == rd2.division >= 1 && samples >= 1
    requires 0 <= i < samples && 0 <= j < samples
    requires Child(rd1, samples, i).offset == Child(rd2, samples, j).offset
    ensures i == j && rd1.offset == rd2.offset
  {
    var d := rd1.division;
    var a, b := d * rd1.offset, d * rd2.offset;
    assert d * samples * rd1.offset == samples * a;
    assert d * samples * rd2.offset == samples * b;
    Distributes(samples, a, b);
    assert samples * (a - b) == j - i;
    if a - b > 0 {
      MulAtLeast(samples, a - b);
    } else if a - b < 0 {
      MulAtLeast(samples, b - a);
      Distributes(samples, b, a);
    }
    assert a == b;
    Distributes(d, rd1.offset, rd2.offset);
    if rd1.offset > rd2.offset {
      MulAtLeast(d, rd1.offset - rd2.offset);
    } else if rd1.offset < rd2.offset {
      MulAtLeast(d, rd2.offset - rd1.offset);
      Distributes(d, rd2.offset, rd1.offset);
    }
  }

  // ---------------------------------------------------------------------
  // The recursion guard
  // ---------------------------------------------------------------------

  /** The recursive branches of `recursiveRaytrace`, in the order they run. */
  datatype Branch = DispersiveBranch | GlossyBranch | ReflectBranch | RefractBranch

  function Rank(b: Branch): int {
    match b
      case DispersiveBranch => 0
      case GlossyBranch => 1
      case ReflectBranch => 2
      case RefractBranch => 3
  }

  /** The deepest ray level at which the glossy and specular branches still recurse. */
  const MaxGlossyLevel: int := 20

  /**
   * What `recursiveRaytrace` looks at: the ray level and the depth limit
   * `rDepth + additional`, the BSDF flags of the surface, whether chromatic
   * sampling is still on, and whether the material's `getSpecular` gives a
   * reflected and a refracted direction.
   */
  datatype Recursion = Recursion(rayLevel: int, rDepth: int, additional: int, bsdfs: Flags,
                                 chromatic: bool, reflect: bool, refract: bool)

  /**
   * Whether a branch runs. Nothing runs beyond depth `rDepth + additional`;
   * below it, the dispersive branch needs a dispersive BSDF and chromatic
   * sampling, the glossy branch a level below 20 and a glossy BSDF, and the
   * two specular branches a level below 20, a specular or filter BSDF and
   * the material's reflected or refracted direction.
   */
  predicate Runs(r: Recursion, b: Branch) {
    r.rayLevel <= r.rDepth + r.additional &&
    match b
      case DispersiveBranch => Dispersive in r.bsdfs && r.chromatic
      case GlossyBranch => r.rayLevel < MaxGlossyLevel && Glossy in r.bsdfs
      case ReflectBranch => r.rayLevel < MaxGlossyLevel && (Specular in r.bsdfs || Filter in r.bsdfs) && r.reflect
      case RefractBranch => r.rayLevel < MaxGlossyLevel && (Specular in r.bsdfs || Filter in r.bsdfs) && r.refract
  }

  function Opt(r: Recursion, b: Branch): seq<Branch> { if Runs(r, b) then [b] else [] }

  /** The branches that run, each at most once, in the order dispersive, glossy, reflect, refract. */
  function Branches(r: Recursion): (bs: seq<Branch>)
    ensures forall b :: b in bs <==> Runs(r, b)
    ensures forall i, j :: 0 <= i < j < |bs| ==> Rank(bs[i]) < Rank(bs[j])
    ensures r.rayLevel > r.rDepth + r.additional ==> bs == []
  {
    Opt(r, DispersiveBranch) + Opt(r, GlossyBranch) + Opt(r, ReflectBranch) + Opt(r, RefractBranch)
  }

  /** The alphas of the branches that ran, summed. */
  function BranchSum(bs: seq<Branch>, alphaOf: Branch -> real): real {
    if bs == [] then 0.0 else BranchSum(bs[..|bs| - 1], alphaOf) + alphaOf(bs[|bs| - 1])
  }

  /** `alpha_count > 0 ? alpha / alpha_count : 1.f`. */
  function Mean(sum: real, count: int): real {
    if count > 0 then sum / count as real else 1.0
  }

  /** The alpha `recursiveRaytrace` returns: the mean over the branches that ran, or 1 if none did. */
  function MeanAlpha(bs: seq<Branch>, alphaOf: Branch -> real): real {
    Mean(BranchSum(bs, alphaOf), |bs|)
  }

  /**
   * `recursiveRaytrace`: runs the branches in order, adding up their alphas
   * and counting them; the alpha is the mean of those that ran, 1 when
   * none did. The material's `getSpecular` is asked only when the
   * specular test passes.
   */
  method RecursiveRaytrace(r: Recursion, alphaOf: Branch -> real) returns (ran: seq<Branch>, alpha: real)
    ensures ran == Branches(r)
    ensures alpha == MeanAlpha(ran, alphaOf)
  {
    ran := [];
    var sum, count := 0.0, 0;
    if r.rayLevel <= r.rDepth + r.additional {
      ran, sum, count := RunIf(r, ran, sum, count, DispersiveBranch, Dispersive in r.bsdfs && r.chromatic, alphaOf);
      ran, sum, count := GlossyAndSpecular(r, ran, sum, count, alphaOf);
    } else {
      assert Opt(r, DispersiveBranch) == [] && Opt(r, GlossyBranch) == [];
      assert Opt(r, ReflectBranch) == [] && Opt(r, RefractBranch) == [];
    }
    alpha := Mean(sum, count);
  }

  /**
   * The glossy and specular part of `recursiveRaytrace`, within the depth
   * limit: nothing below level 20 without a glossy, specular or filter
   * BSDF; the two specular branches only with a specular or filter BSDF.
   */
  method GlossyAndSpecular(r: Recursion, ran: seq<Branch>, sum: real, count: int, alphaOf: Branch -> real)
    returns (ran': seq<Branch>, sum': real, count': int)
    requires r.rayLevel <= r.rDepth + r.additional
    requires sum == BranchSum(ran, alphaOf) && count == |ran|
    ensures ran' == ran + Opt(r, GlossyBranch) + Opt(r, ReflectBranch) + Opt(r, RefractBranch)
    ensures sum' == BranchSum(ran', alphaOf) && count' == |ran'|
  {
    ran', sum', count' := ran, sum, count;
    if r.rayLevel < MaxGlossyLevel && (Glossy in r.bsdfs || Specular in r.bsdfs || Filter in r.bsdfs) {
      ran', sum', count' := RunIf(r, ran', sum', count', GlossyBranch, Glossy in r.bsdfs, alphaOf);
      if Specular in r.bsdfs || Filter in r.bsdfs {
        ran', sum', count' := RunIf(r, ran', sum', count', ReflectBranch, r.reflect, alphaOf);
        ran', sum', count' := RunIf(r, ran', sum', count', RefractBranch, r.refract, alphaOf);
      } else {
        assert Opt(r, ReflectBranch) == [] && Opt(r, RefractBranch) == [];
        assert ran' == ran' + Opt(r, ReflectBranch) + Opt(r, RefractBranch);
      }
    } else {
      assert Opt(r, GlossyBranch) == [] && Opt(r, ReflectBranch) == [] && Opt(r, RefractBranch) == [];
      assert ran' == ran' + Opt(r, GlossyBranch) + Opt(r, ReflectBranch) + Opt(r, RefractBranch);
    }
  }

  /**
   * One guarded branch of `recursiveRaytrace`: the source's test `runs`
   * agrees with `Runs` where it is made; when it passes, the branch's alpha
   * is added and the count goes up.
   */
  method RunIf(r: Recursion, ran: seq<Branch>, sum: real, count: int, b: Branch, runs: bool, alphaOf: Branch -> real)
    returns (ran': seq<Branch>, sum': real, count': int)
    requires runs == Runs(r, b)
    requires sum == BranchSum(ran, alphaOf) && count == |ran|
    ensures ran' == ran + Opt(r, b)
    ensures sum' == BranchSum(ran', alphaOf) && count' == |ran'|
  {
    ran', sum', count' := ran, sum, count;
    if runs {
      ran' := ran + [b];
      assert ran'[..|ran'| - 1] == ran;
      sum', count' := sum + alphaOf(b), count + 1;
    } else {
      assert ran + [] == ran;
    }
  }

  /** `k` branch alphas in [0, c] sum to at most `c * k`. */
  lemma {:induction false} BranchSumBound(bs: seq<Branch>, alphaOf: Branch -> real, c: real)
    requires forall i :: 0 <= i < |bs| ==> 0.0 <= alphaOf(bs[i]) <= c
    ensures 0.0 <= BranchSum(bs, alphaOf) <= c * |bs| as real
  {
    if bs != [] {
      var init := bs[..|bs| - 1];
      assert forall i :: 0 <= i < |init| ==> init[i] == bs[i];
      BranchSumBound(init, alphaOf, c);
      assert c * |bs| as real == c * |init| as real + c;
    }
  }

  /**
   * When each branch's alpha lies in [0, c] with c at least 1, so does the
   * alpha of the recursion; beyond the depth limit it is exactly 1.
   */
  lemma MeanAlphaBound(bs: seq<Branch>, alphaOf: Branch -> real, c: real)
    requires c >= 1.0
    requires forall i :: 0 <= i < |bs| ==> 0.0 <= alphaOf(bs[i]) <= c
    ensures 0.0 <= MeanAlpha(bs, alphaOf) <= c
    ensures bs == [] ==> MeanAlpha(bs, alphaOf) == 1.0
  {
    if bs != [] {
      BranchSumBound(bs, alphaOf, c);
      var n := |bs| as real;
      assert BranchSum(bs, alphaOf) / n <= (c * n) / n;
    }
  }

  // ---------------------------------------------------------------------
  // The caustic photon map
  // ---------------------------------------------------------------------

  /** The caustic tracer: deposits on diffuse or glossy surfaces, caustic photons only, stops dead paths. */
  function CausticTracer(causDepth: int): (tr: Tracer)
    ensures tr.depth == causDepth && tr.mask == {Diffuse, Glossy}
    ensures tr.wantCaustic && tr.stopDead && !tr.finalGather
  {
    Tracer(causDepth, {Diffuse, Glossy}, true, true, false)
  }

  /** A photon map's contents: the stored photons and the number of paths shot for them. */
  datatype StoredMap = StoredMap(photons: seq<Photon>, paths: nat)

  /** `createCausticMap` keeps the map it has: it loaded one from file, or it reuses a non-empty one. */
  predicate KeepsMap(mode: Mode, loaded: bool, stored: bool) {
    (mode == Load && loaded) || (mode == Reuse && stored)
  }

  /**
   * The processing mode `createCausticMap` leaves: a failed load falls back
   * to generate-and-save, reusing an empty map falls back to generate-only,
   * and every other mode stays.
   */
  function ModeAfter(mode: Mode, loaded: bool, stored: bool): (m: Mode)
    ensures KeepsMap(mode, loaded, stored) || Generates(m)
    ensures KeepsMap(mode, loaded, stored) || Generates(mode) ==> m == mode
    ensures mode == Load && !loaded ==> m == GenerateAndSave
    ensures mode == Reuse && !stored ==> m == GenerateOnly
  {
    match mode
      case Load => if loaded then Load else GenerateAndSave
      case Reuse => if stored then Reuse else GenerateOnly
      case _ => mode
  }

  class CausticMapBuilder {
    /** `photon_map_processing_`. */
    var mode: Mode
    /** `caustic_map_`. */
    var causticMap: StoredMap
    /** `n_caus_photons_`. */
    var budget: nat
    /** `num_threads_photons_`. */
    const threads: nat
    /** `caus_depth_`. */
    const causDepth: int

    constructor (m: Mode, photons: nat, numThreads: nat, depth: int)
      ensures mode == m && causticMap == StoredMap([], 0) && budget == photons
      ensures threads == numThreads && causDepth == depth
    {
      mode, causticMap, budget := m, StoredMap([], 0), photons;
      threads, causDepth := numThreads, depth;
    }

    /**
     * `createCausticMap`. `loaded` is what reading the map file gives, if
     * it can be read; `numLights` counts the lights that shoot caustic
     * photons, and `emit` gives the photon each Halton index emits. The call
     * always succeeds. It keeps a loaded map or a non-empty map to reuse;
     * otherwise the mode falls back to a generating one and the map is
     * cleared. With caustic lights the budget is rounded to a multiple of the
     * thread count and each worker shoots its slice; when every worker
     * completes, the map holds the caustic photons of Halton indices 0 to
     * budget - 1 in order, and as many paths as photons shot. The map is
     * handed to be saved exactly in generate-and-save mode.
     */
    method CreateCausticMap(loaded: Option<StoredMap>, numLights: int, emit: nat -> Emission)
      returns (ok: bool, shot: nat, saved: Option<StoredMap>)
      requires threads >= 1
      modifies this
      ensures ok
      ensures mode == ModeAfter(old(mode), loaded.Some?, old(causticMap).photons != [])
      ensures KeepsMap(old(mode), loaded.Some?, old(causticMap).photons != []) ==>
        budget == old(budget) && shot == 0 && saved == None &&
        causticMap == (if old(mode) == Load then loaded.value else old(causticMap))
      ensures !KeepsMap(old(mode), loaded.Some?, old(causticMap).photons != []) && numLights <= 0 ==>
        causticMap == StoredMap([], 0) && budget == old(budget) && shot == 0 && saved == None
      ensures !KeepsMap(old(mode), loaded.Some?, old(causticMap).photons != []) && numLights > 0 ==>
        budget == RoundBudget(old(budget), threads) && shot <= budget && causticMap.paths == shot &&
        (AllComplete(emit, SliceSize(budget, threads), threads, numLights) ==>
          causticMap.photons == SlicePhotons(emit, 0, budget, CausticTracer(causDepth)) && shot == budget) &&
        (saved.Some? <==> mode == GenerateAndSave) && (saved.Some? ==> saved.value == causticMap)
    {
      ok, shot, saved := true, 0, None;
      if mode == Load {
        if loaded.Some? {
          causticMap := loaded.value;
          return;
        }
        mode := GenerateAndSave;
      }
      if mode == Reuse {
        if causticMap.photons == [] {
          mode := GenerateOnly;
        } else {
          return;
        }
      }
      causticMap := StoredMap([], 0);
      if numLights > 0 {
        budget := RoundBudget(budget, threads);
        BudgetSlices(old(budget), threads);
        var slice := SliceSize(budget, threads);
        var photons, _, n := ShootAll(emit, slice, threads, numLights, CausticTracer(causDepth));
        causticMap, shot := StoredMap(photons, n), n;
        if mode == GenerateAndSave {
          saved := Some(causticMap);
        }
      }
    }
  }
}
