/**
 * The preprocessing pass of the photon mapping integrator: the fallback of
 * the photon-map processing mode when maps cannot be loaded or reused, the
 * diffuse and caustic photon maps shot by one worker or by one worker per
 * thread, the thinning of radiance points, the chunked pre-gathering of the
 * radiance map, which maps are saved, and the factory's parameter defaults.
 *
 * Lights, materials, the scene and the kd-trees are not part of this model.
 * What a photon path meets comes from PhotonPaths (`Emission`); whether a
 * kept radiance point eliminates another within a radius, and the colour
 * gathered around a radiance point, are inputs. A map file that can be read
 * is given as its contents, one that cannot as `None`.
 */
module PhotonIntegrator {

  import opened Wrappers
  import opened CArith
  import opened Bsdf
  import opened Colours
  import opened PhotonPaths

  // ---------------------------------------------------------------------
  // The two photon tracers
  // ---------------------------------------------------------------------

  /**
   * The diffuse map's path loop: it deposits at diffuse surfaces while the
   * path is not caustic, stops after `maxBounces` scattering events or on
   * absorption, and collects radiance points when final gathering is on.
   */
  function DiffuseTracer(maxBounces: int, finalGather: bool): Tracer {
    Tracer(maxBounces, {Diffuse}, false, false, finalGather)
  }

  /**
   * The caustic map's path loop: it deposits at diffuse surfaces while the
   * path is caustic and stops after `maxBounces` scattering events (not
   * `causDepth`) or on absorption.
   */
  function CausticTracer(maxBounces: int): Tracer {
    Tracer(maxBounces, {Diffuse}, true, false, false)
  }

  /**
   * The diffuse map receives a photon at exactly the visited diffuse
   * surfaces the path reaches while it is not caustic.
   */
  lemma DiffuseDeposits(hits: seq<Hit>, maxBounces: int, finalGather: bool, j: nat)
    ensures var tr := DiffuseTracer(maxBounces, finalGather);
      j in PathDeposits(hits, tr) <==>
        j < Visited(hits, tr) && Diffuse in hits[j].matFlags && !PathAfter(hits, j).caustic
  {
    var tr := DiffuseTracer(maxBounces, finalGather);
    DepositsBelowSpec(hits, Visited(hits, tr), tr);
    if j < Visited(hits, tr) {
      assert Diffuse in hits[j].matFlags <==> hits[j].matFlags * tr.mask != {} by {
        if Diffuse in hits[j].matFlags {
          assert Diffuse in hits[j].matFlags * tr.mask;
        }
      }
    }
  }

  /**
   * The caustic map receives a photon at exactly the visited diffuse
   * surfaces the path reaches while it is caustic, and only after a glossy,
   * specular or dispersive scattering event.
   */
  lemma CausticDeposits(hits: seq<Hit>, maxBounces: int, j: nat)
    ensures var tr := CausticTracer(maxBounces);
      j in PathDeposits(hits, tr) <==>
        j < Visited(hits, tr) && Diffuse in hits[j].matFlags && PathAfter(hits, j).caustic
    ensures j in PathDeposits(hits, CausticTracer(maxBounces)) ==>
      exists k :: 0 <= k < j && hits[k].sampled * CausticKinds != {}
  {
    var tr := CausticTracer(maxBounces);
    DepositsBelowSpec(hits, Visited(hits, tr), tr);
    if j < Visited(hits, tr) {
      assert Diffuse in hits[j].matFlags <==> hits[j].matFlags * tr.mask != {} by {
        if Diffuse in hits[j].matFlags {
          assert Diffuse in hits[j].matFlags * tr.mask;
        }
      }
    }
    if j in PathDeposits(hits, tr) {
      DepositsFollowClassification(hits, tr, j);
    }
  }

  // ---------------------------------------------------------------------
  // The processing mode
  // ---------------------------------------------------------------------

  /** A radiance-map entry: the radiance point and the colour gathered there. */
  datatype RadiancePhoton = RadiancePhoton(at: Photon, colour: Rgb)

  /** What reading each map file gives: its contents, or `None` when it cannot be read. */
  datatype Loaded = Loaded(caustic: Option<seq<Photon>>, diffuse: Option<seq<Photon>>, radiance: Option<seq<RadiancePhoton>>)

  /** A map that loading needs could not be read: caustics, diffuse, or the radiance map of diffuse final gathering. */
  predicate LoadFails(useCaustics: bool, useDiffuse: bool, finalGather: bool, loaded: Loaded) {
    (useCaustics && loaded.caustic.None?) || (useDiffuse && loaded.diffuse.None?) ||
    (useDiffuse && finalGather && loaded.radiance.None?)
  }

  /**
   * A map that reuse needs is empty. The radiance map is checked whenever
   * final gathering is on, whether or not diffuse photons are.
   */
  predicate ReuseFails(useCaustics: bool, useDiffuse: bool, finalGather: bool,
                       causticEmpty: bool, diffuseEmpty: bool, radianceEmpty: bool) {
    (useCaustics && causticEmpty) || (useDiffuse && diffuseEmpty) || (finalGather && radianceEmpty)
  }

  /** The mode preprocessing goes on with. */
  function Resolve(mode: Mode, useCaustics: bool, useDiffuse: bool, finalGather: bool, loaded: Loaded,
                   causticEmpty: bool, diffuseEmpty: bool, radianceEmpty: bool): Mode
  {
    if mode == Load && LoadFails(useCaustics, useDiffuse, finalGather, loaded) then GenerateAndSave
    else if mode == Reuse && ReuseFails(useCaustics, useDiffuse, finalGather, causticEmpty, diffuseEmpty, radianceEmpty)
    then GenerateOnly
    else mode
  }

  /**
   * The mode either stays what it was or falls back to a generating mode:
   * a load that fails for any enabled map becomes generate-and-save, a reuse
   * of any enabled empty map becomes generate-only, and loading or reusing
   * survives only when nothing it needs is missing.
   */
  lemma ResolveFallsBack(mode: Mode, useCaustics: bool, useDiffuse: bool, finalGather: bool, loaded: Loaded,
                         causticEmpty: bool, diffuseEmpty: bool, radianceEmpty: bool)
    ensures var m := Resolve(mode, useCaustics, useDiffuse, finalGather, loaded, causticEmpty, diffuseEmpty, radianceEmpty);
      (m == mode || Generates(m)) &&
      (Generates(mode) ==> m == mode) &&
      (mode == Load ==> (m == Load <==> !LoadFails(useCaustics, useDiffuse, finalGather, loaded)) &&
                        (m != Load ==> m == GenerateAndSave)) &&
      (mode == Reuse ==> (m == Reuse <==> !ReuseFails(useCaustics, useDiffuse, finalGather, causticEmpty, diffuseEmpty, radianceEmpty)) &&
                         (m != Reuse ==> m == GenerateOnly))
  {
  }

  /**
   * With diffuse photons off and final gathering on, loading needs no
   * radiance map but reusing does: an empty radiance map makes reuse fall
   * back to generate-only while a load with nothing readable is kept.
   */
  lemma ReuseChecksRadianceAlone()
    ensures Resolve(Reuse, false, false, true, Loaded(None, None, None), true, true, true) == GenerateOnly
    ensures Resolve(Load, false, false, true, Loaded(None, None, None), true, true, true) == Load
  {
  }

  // ---------------------------------------------------------------------
  // Radiance-point thinning
  // ---------------------------------------------------------------------

  /** `0.01 * dsRadius`: the elimination radius, a hundredth of the diffuse search radius. */
  function ThinRadius(dsRadius: real): real { dsRadius / 100.0 }

  /** No point of `kept` eliminates point `j`. */
  predicate Unmarked(points: seq<Photon>, eliminates: (Photon, Photon, real) -> bool, radius: real, kept: seq<nat>, j: nat)
    requires j < |points| && forall m :: 0 <= m < |kept| ==> kept[m] < |points|
  {
    forall m :: 0 <= m < |kept| ==> !eliminates(points[kept[m]], points[j], radius)
  }

  /** The points below `k` that thinning keeps: each one no earlier kept point eliminates. */
  function KeptBelow(points: seq<Photon>, eliminates: (Photon, Photon, real) -> bool, radius: real, k: nat): (r: seq<nat>)
    requires k <= |points|
    ensures forall m :: 0 <= m < |r| ==> r[m] < k
  {
    if k == 0 then []
    else
      var kept := KeptBelow(points, eliminates, radius, k - 1);
      if Unmarked(points, eliminates, radius, kept, k - 1) then kept + [k - 1] else kept
  }

  /** The points at the given positions, in that order. */
  function Select(points: seq<Photon>, positions: seq<nat>): (r: seq<Photon>)
    requires forall m :: 0 <= m < |positions| ==> positions[m] < |points|
    ensures |r| == |positions| && forall m :: 0 <= m < |r| ==> r[m] == points[positions[m]]
  {
    seq(|positions|, m requires 0 <= m < |positions| => points[positions[m]])
  }

  /** The thinned radiance points. */
  function Thinned(points: seq<Photon>, eliminates: (Photon, Photon, real) -> bool, radius: real): seq<Photon> {
    Select(points, KeptBelow(points, eliminates, radius, |points|))
  }

  /** No kept point eliminates a later kept one. */
  predicate Independent(points: seq<Photon>, eliminates: (Photon, Photon, real) -> bool, radius: real, kept: seq<nat>)
    requires forall m :: 0 <= m < |kept| ==> kept[m] < |points|
  {
    forall a, b :: 0 <= a < b < |kept| ==> !eliminates(points[kept[a]], points[kept[b]], radius)
  }

  /**
   * Thinning keeps points in input order, and the first point found wins:
   * no kept point eliminates a later kept one.
   */
  lemma {:induction false} KeptBelowIndependent(points: seq<Photon>, eliminates: (Photon, Photon, real) -> bool, radius: real, k: nat)
    requires k <= |points|
    ensures Increasing(KeptBelow(points, eliminates, radius, k))
    ensures Independent(points, eliminates, radius, KeptBelow(points, eliminates, radius, k))
  {
    if k > 0 {
      KeptBelowIndependent(points, eliminates, radius, k - 1);
      var prev := KeptBelow(points, eliminates, radius, k - 1);
      if Unmarked(points, eliminates, radius, prev, k - 1) {
        var kept := prev + [k - 1];
        assert KeptBelow(points, eliminates, radius, k) == kept;
        forall a, b | 0 <= a < b < |kept|
          ensures kept[a] < kept[b] && !eliminates(points[kept[a]], points[kept[b]], radius)
        {
          assert kept[a] == prev[a];
          if b < |prev| {
            assert kept[b] == prev[b];
          }
        }
      }
    }
  }

  /** Every point thinning drops is eliminated by an earlier kept point. */
  lemma {:induction false} KeptBelowDropped(points: seq<Photon>, eliminates: (Photon, Photon, real) -> bool, radius: real, k: nat, j: nat)
    requires j < k <= |points| && j !in KeptBelow(points, eliminates, radius, k)
    ensures var kept := KeptBelow(points, eliminates, radius, k);
      exists m :: 0 <= m < |kept| && kept[m] < j && eliminates(points[kept[m]], points[j], radius)
  {
    var prev := KeptBelow(points, eliminates, radius, k - 1);
    var kept := KeptBelow(points, eliminates, radius, k);
    assert forall m :: 0 <= m < |prev| ==> kept[m] == prev[m];
    if j < k - 1 {
      assert j !in prev;
      KeptBelowDropped(points, eliminates, radius, k - 1, j);
      var m :| 0 <= m < |prev| && prev[m] < j && eliminates(points[prev[m]], points[j], radius);
      assert kept[m] == prev[m];
    } else {
      var m :| 0 <= m < |prev| && eliminates(points[prev[m]], points[k - 1], radius);
      assert kept[m] == prev[m] < k - 1;
    }
  }

  /** The first radiance point is always kept. */
  lemma {:induction false} KeptBelowFirst(points: seq<Photon>, eliminates: (Photon, Photon, real) -> bool, radius: real, k: nat)
    requires 0 < k <= |points|
    ensures 0 in KeptBelow(points, eliminates, radius, k)
  {
    if k == 1 {
      assert Unmarked(points, eliminates, radius, [], 0);
    } else {
      KeptBelowFirst(points, eliminates, radius, k - 1);
    }
  }

  /** Keeping point `i` unmarks exactly the points it eliminates. */
  lemma UnmarkedAfterKeeping(points: seq<Photon>, eliminates: (Photon, Photon, real) -> bool, radius: real,
                             kept: seq<nat>, i: nat, j: nat)
    requires i < |points| && j < |points| && forall m :: 0 <= m < |kept| ==> kept[m] < |points|
    ensures Unmarked(points, eliminates, radius, kept + [i], j) <==>
      Unmarked(points, eliminates, radius, kept, j) && !eliminates(points[i], points[j], radius)
  {
    var longer := kept + [i];
    assert longer[|kept|] == i;
    assert forall m :: 0 <= m < |kept| ==> longer[m] == kept[m];
  }

  /** The use flags of the thinning loop mark exactly the points no point of `kept` eliminates. */
  ghost predicate Marks(points: seq<Photon>, eliminates: (Photon, Photon, real) -> bool, radius: real,
                        kept: seq<nat>, use: seq<bool>)
    requires forall m :: 0 <= m < |kept| ==> kept[m] < |points|
  {
    |use| == |points| &&
    forall j :: 0 <= j < |points| ==> (use[j] <==> Unmarked(points, eliminates, radius, kept, j))
  }

  /** The use flags once the lookup around `p` has unmarked every point it eliminates. */
  function Unmark(points: seq<Photon>, eliminates: (Photon, Photon, real) -> bool, radius: real,
                  use: seq<bool>, p: Photon): (r: seq<bool>)
    requires |use| == |points|
    ensures |r| == |points|
    ensures forall j :: 0 <= j < |points| ==> (r[j] <==> use[j] && !eliminates(p, points[j], radius))
  {
    seq(|points|, j requires 0 <= j < |points| => use[j] && !eliminates(p, points[j], radius))
  }

  /** A point still marked when it is reached is kept, and unmarking around it keeps the flags exact. */
  lemma KeepStep(points: seq<Photon>, eliminates: (Photon, Photon, real) -> bool, radius: real,
                 i: nat, use: seq<bool>)
    requires i < |points| && Marks(points, eliminates, radius, KeptBelow(points, eliminates, radius, i), use)
    requires use[i]
    ensures KeptBelow(points, eliminates, radius, i + 1) == KeptBelow(points, eliminates, radius, i) + [i]
    ensures Select(points, KeptBelow(points, eliminates, radius, i + 1)) ==
      Select(points, KeptBelow(points, eliminates, radius, i)) + [points[i]]
    ensures Marks(points, eliminates, radius, KeptBelow(points, eliminates, radius, i + 1),
                  Unmark(points, eliminates, radius, use, points[i]))
  {
    var kept := KeptBelow(points, eliminates, radius, i);
    assert KeptBelow(points, eliminates, radius, i + 1) == kept + [i];
    assert Select(points, kept + [i]) == Select(points, kept) + [points[i]];
    forall j | 0 <= j < |points| {
      UnmarkedAfterKeeping(points, eliminates, radius, kept, i, j);
    }
  }

  /** A point already unmarked when it is reached is dropped. */
  lemma DropStep(points: seq<Photon>, eliminates: (Photon, Photon, real) -> bool, radius: real,
                 i: nat, use: seq<bool>)
    requires i < |points| && Marks(points, eliminates, radius, KeptBelow(points, eliminates, radius, i), use)
    requires !use[i]
    ensures KeptBelow(points, eliminates, radius, i + 1) == KeptBelow(points, eliminates, radius, i)
  {
  }

  /** One pass of the thinning loop, at point `i`: keep it and unmark around it, or skip it. */
  method ThinAt(points: seq<Photon>, eliminates: (Photon, Photon, real) -> bool, radius: real,
                i: nat, use: seq<bool>, cleaned: seq<Photon>)
    returns (use': seq<bool>, cleaned': seq<Photon>)
    requires i < |points| && Marks(points, eliminates, radius, KeptBelow(points, eliminates, radius, i), use)
    requires cleaned == Select(points, KeptBelow(points, eliminates, radius, i))
    ensures Marks(points, eliminates, radius, KeptBelow(points, eliminates, radius, i + 1), use')
    ensures cleaned' == Select(points, KeptBelow(points, eliminates, radius, i + 1))
  {
    if use[i] {
      KeepStep(points, eliminates, radius, i, use);
      cleaned' := cleaned + [points[i]];
      use' := Unmark(points, eliminates, radius, use, points[i]);
    } else {
      DropStep(points, eliminates, radius, i, use);
      use', cleaned' := use, cleaned;
    }
  }

  /**
   * The thinning loop: each radiance point still marked for use when it is
   * reached is kept, and the lookup around it within `radius` unmarks every
   * point it eliminates.
   */
  method Thin(points: seq<Photon>, eliminates: (Photon, Photon, real) -> bool, radius: real)
    returns (cleaned: seq<Photon>)
    ensures cleaned == Thinned(points, eliminates, radius)
  {
    var use := seq(|points|, _ => true);
    cleaned := [];
    var i := 0;
    while i < |points|
      invariant i <= |points|
      invariant cleaned == Select(points, KeptBelow(points, eliminates, radius, i))
      invariant Marks(points, eliminates, radius, KeptBelow(points, eliminates, radius, i), use)
    {
      use, cleaned := ThinAt(points, eliminates, radius, i, use, cleaned);
      i := i + 1;
    }
  }

  // ---------------------------------------------------------------------
  // Pre-gathering the radiance map
  // ---------------------------------------------------------------------

  /** The indices `from` to `to - 1`, in increasing order. */
  function Range(from: nat, to: nat): (r: seq<nat>)
    requires from <= to
    ensures |r| == to - from && Increasing(r)
    ensures forall i :: 0 <= i < |r| ==> r[i] == from + i
  {
    seq(to - from, i requires 0 <= i < to - from => from + i)
  }

  function Min(a: nat, b: nat): nat { if a < b then a else b }

  /** The radiance-map entry for a radiance point. */
  function Gathered(point: Photon, gather: Photon -> Rgb): RadiancePhoton {
    RadiancePhoton(point, gather(point))
  }

  /** The radiance map built from thinned radiance points. */
  function RadianceMapOf(points: seq<Photon>, gather: Photon -> Rgb): (r: seq<RadiancePhoton>)
    ensures |r| == |points| && forall n :: 0 <= n < |r| ==> r[n] == Gathered(points[n], gather)
  {
    seq(|points|, n requires 0 <= n < |points| => Gathered(points[n], gather))
  }

  /** `preGatherData_t`: the radiance points, the next one to hand out, and the radiance map being filled. */
  class PreGather {
    const points: seq<Photon>
    var fetched: nat
    var radianceVec: seq<RadiancePhoton>

    ghost predicate Valid()
      reads this
    {
      fetched <= |points| && |radianceVec| == |points|
    }

    /** The shared data after `radianceVec.resize`: nothing fetched, every entry `blank`. */
    constructor (pts: seq<Photon>, blank: RadiancePhoton)
      ensures Valid() && points == pts && fetched == 0
      ensures radianceVec == seq(|pts|, _ => blank)
    {
      points := pts;
      fetched := 0;
      radianceVec := seq(|pts|, _ => blank);
    }

    /**
     * `preGatherWorker`: it takes chunks `[start, min(total, start + 32))`
     * until none is left, and writes the gathered entry of every index in
     * them. It visits each index from the first unfetched one on exactly
     * once, in increasing order, in as many chunks as 32 divides into that
     * count rounded up; the entries before it are untouched.
     */
    method Worker(gather: Photon -> Rgb) returns (visited: seq<nat>, chunks: nat)
      requires Valid()
      modifies this
      ensures Valid() && fetched == |points|
      ensures visited == Range(old(fetched), |points|)
      ensures chunks == (|points| - old(fetched) + 31) / 32
      ensures forall n :: 0 <= n < |points| ==>
        radianceVec[n] == if old(fetched) <= n then Gathered(points[n], gather) else old(radianceVec)[n]
    {
      var total := |points|;
      var first := fetched;
      var start := fetched;
      var end := Min(total, start + 32);
      fetched := end;
      visited, chunks := [], 0;
      while start < total
        invariant first <= start <= total && Valid()
        invariant end == Min(total, start + 32) && fetched == end
        invariant visited == Range(first, start)
        invariant start < total ==> start - first == 32 * chunks
        invariant start == total ==> chunks == (total - first + 31) / 32
        invariant forall n :: 0 <= n < total ==>
          radianceVec[n] == if first <= n < start then Gathered(points[n], gather) else old(radianceVec)[n]
        decreases total - start
      {
        var n := start;
        while n < end
          invariant start <= n <= end && |radianceVec| == total && fetched == end
          invariant visited == Range(first, n)
          invariant forall m :: 0 <= m < total ==>
            radianceVec[m] == if first <= m < n then Gathered(points[m], gather) else old(radianceVec)[m]
        {
          radianceVec := radianceVec[n := Gathered(points[n], gather)];
          assert Range(first, n) + [n] == Range(first, n + 1);
          visited := visited + [n];
          n := n + 1;
        }
        chunks := chunks + 1;
        start := fetched;
        end := Min(total, start + 32);
        fetched := end;
      }
    }

    /**
     * The workers of all threads, run one after the other: together they
     * visit every radiance point exactly once, in order, and fill the whole
     * radiance map.
     */
    method RunWorkers(threads: nat, gather: Photon -> Rgb) returns (visited: seq<nat>)
      requires Valid() && fetched == 0 && threads >= 1
      modifies this
      ensures Valid() && fetched == |points|
      ensures visited == Range(0, |points|)
      ensures radianceVec == RadianceMapOf(points, gather)
    {
      visited := [];
      var t := 0;
      while t < threads
        invariant t <= threads && Valid()
        invariant t == 0 ==> fetched == 0 && visited == []
        invariant t > 0 ==> (fetched == |points| && visited == Range(0, |points|) &&
          radianceVec == RadianceMapOf(points, gather))
      {
        var v, _ := Worker(gather);
        visited := visited + v;
        t := t + 1;
      }
    }
  }

  // ---------------------------------------------------------------------
  // Preprocessing
  // ---------------------------------------------------------------------

  /** The maps a generating pass can save. */
  datatype MapFile = CausticFile | DiffuseFile | RadianceFile

  /** The maps saved in generate-and-save mode: each enabled map, the radiance map with diffuse final gathering. */
  function SavedMaps(useCaustics: bool, useDiffuse: bool, finalGather: bool): (s: set<MapFile>)
    ensures CausticFile in s <==> useCaustics
    ensures DiffuseFile in s <==> useDiffuse
    ensures RadianceFile in s <==> useDiffuse && finalGather
  {
    (if useCaustics then {CausticFile} else {}) + (if useDiffuse then {DiffuseFile} else {}) +
    (if useDiffuse && finalGather then {RadianceFile} else {})
  }

  /** Every worker finishes its slice of a rounded budget. */
  predicate Complete(emit: nat -> Emission, budget: nat, threads: nat, numLights: int)
    requires budget >= 1 && threads >= 1
  {
    AllComplete(emit, SliceSize(budget, threads), threads, numLights)
  }

  /** With one thread, every worker finishing is the one worker finishing the whole budget. */
  lemma CompleteAlone(emit: nat -> Emission, budget: nat, numLights: int)
    requires budget >= 1
    ensures Complete(emit, budget, 1, numLights) <==> SliceCompletes(emit, 0, budget, numLights)
  {
    AllCompleteStep(emit, budget, 0, numLights);
    QuotientIsDiv(budget - 1, 1);
    assert SliceSize(budget, 1) == budget;
  }

  /**
   * Shooting one map: the requested budget is rounded to a multiple of the
   * thread count, then the photons are shot by one worker per thread or,
   * with one thread, by a single loop over the whole budget that stops at
   * the first light index out of range. When every worker completes, the
   * map holds the photons of Halton indices 0 to budget - 1 in order; the
   * single loop keeps the photons it shot before it stopped, and with
   * several threads a worker that stops adds nothing. Only the single loop
   * can fail.
   */
  method ShootMap(threads: nat, requested: nat, numLights: nat, emit: nat -> Emission, tr: Tracer)
    returns (budget: nat, photons: seq<Photon>, radiance: seq<Photon>, completed: bool)
    requires threads >= 1
    ensures budget == RoundBudget(requested, threads)
    ensures Complete(emit, budget, threads, numLights) ==>
      photons == SlicePhotons(emit, 0, budget, tr) && radiance == SliceRadiance(emit, 0, budget, tr)
    ensures threads >= 2 ==>
      photons == CompletedPhotons(emit, SliceSize(budget, threads), threads, numLights, tr) &&
      radiance == CompletedRadiance(emit, SliceSize(budget, threads), threads, numLights, tr)
    ensures threads == 1 ==>
      photons == SlicePhotons(emit, 0, FirstBad(emit, 0, budget, numLights), tr) &&
      radiance == SliceRadiance(emit, 0, FirstBad(emit, 0, budget, numLights), tr)
    ensures completed <==> threads >= 2 || Complete(emit, budget, threads, numLights)
  {
    BudgetSlices(requested, threads);
    budget := RoundBudget(requested, threads);
    if threads >= 2 {
      var shot;
      photons, radiance, shot := ShootAll(emit, SliceSize(budget, threads), threads, numLights, tr);
      completed := true;
    } else {
      CompleteAlone(emit, budget, numLights);
      var curr;
      photons, radiance, curr, completed := ShootSlice(emit, 0, budget, numLights, tr);
    }
  }

  /**
   * The render session's caustic, diffuse and radiance maps as an
   * integrator finds them: empty in a fresh session, otherwise what the
   * last render generated or loaded.
   */
  datatype SessionMaps = SessionMaps(caustic: seq<Photon>, diffuse: seq<Photon>, radiance: seq<RadiancePhoton>)

  /** `photonIntegrator_t`: the settings preprocessing reads and the maps it builds. */
  class PhotonIntegrator {
    var usePhotonCaustics: bool
    var usePhotonDiffuse: bool
    var finalGather: bool
    var mode: Mode
    var nDiffusePhotons: nat
    var nCausPhotons: nat
    var trShad: bool
    var sDepth: int
    var rDepth: int
    var maxBounces: int
    var causDepth: int
    var nDiffuseSearch: int
    var nCausSearch: int
    var nPaths: int
    var gatherBounces: int
    var dsRadius: real
    var causRadius: real
    var gatherDist: real
    var showMap: bool
    var transpBackground: bool
    var transpRefractedBackground: bool
    var useAmbientOcclusion: bool
    var aoSamples: int
    var aoDist: real
    var aoCol: Rgb
    /** The session's caustic, diffuse and radiance maps, shared with earlier renders. */
    var causticMap: seq<Photon>
    var diffuseMap: seq<Photon>
    var radianceMap: seq<RadiancePhoton>

    /**
     * The constructor: caustics, diffuse photons and final gathering on,
     * ray depth 6 and 5 bounces; the rest from its arguments. The session's
     * maps are not touched: they keep what the last render left in them.
     */
    constructor (dPhotons: nat, cPhotons: nat, transpShad: bool, shadowDepth: int, dsRad: real, cRad: real,
                 session: SessionMaps)
      ensures usePhotonCaustics && usePhotonDiffuse && finalGather
      ensures nDiffusePhotons == dPhotons && nCausPhotons == cPhotons
      ensures trShad == transpShad && sDepth == shadowDepth && dsRadius == dsRad && causRadius == cRad
      ensures rDepth == 6 && maxBounces == 5
      ensures causticMap == session.caustic && diffuseMap == session.diffuse && radianceMap == session.radiance
    {
      usePhotonCaustics, usePhotonDiffuse, finalGather := true, true, true;
      nDiffusePhotons, nCausPhotons := dPhotons, cPhotons;
      trShad, sDepth, dsRadius, causRadius := transpShad, shadowDepth, dsRad, cRad;
      rDepth, maxBounces := 6, 5;
      causticMap, diffuseMap, radianceMap := session.caustic, session.diffuse, session.radiance;
    }

    /**
     * The object the factory builds: the constructor's settings, then every
     * setting the factory assigns, each its parameter or its default. The
     * session's maps are left as they were.
     */
    constructor FromParams(p: FactoryParams, session: SessionMaps)
      ensures usePhotonCaustics == Get(p.caustics, true) && usePhotonDiffuse == Get(p.diffuse, true)
      ensures trShad == Get(p.transpShad, false) && sDepth == Get(p.shadowDepth, 5)
      ensures rDepth == Get(p.raydepth, 5)
      ensures nDiffusePhotons == ToUnsigned(Get(p.photons, 100000))
      ensures nCausPhotons == ToUnsigned(Get(p.cPhotons, 500000))
      ensures dsRadius == Get(p.diffuseRadius, 0.1) && causRadius == Get(p.causticRadius, 0.01)
      ensures nDiffuseSearch == Get(p.search, 50)
      ensures nCausSearch == Get(p.causticMix, nDiffuseSearch)
      ensures maxBounces == Get(p.bounces, 5) && causDepth == maxBounces
      ensures finalGather == Get(p.finalGather, true)
      ensures nPaths == Get(p.fgSamples, 32) && gatherBounces == Get(p.fgBounces, 2)
      ensures gatherDist == Get(p.fgMinPathlen, dsRadius)
      ensures showMap == Get(p.showMap, false)
      ensures transpBackground == Get(p.bgTransp, false)
      ensures transpRefractedBackground == Get(p.bgTranspRefract, false)
      ensures useAmbientOcclusion == Get(p.doAO, false) && aoSamples == Get(p.aoSamples, 32)
      ensures aoDist == Get(p.aoDistance, 1.0) && aoCol == Get(p.aoColor, Rgb(1.0, 1.0, 1.0))
      ensures mode == ModeFromString(Get(p.processing, "generate"))
      ensures causticMap == session.caustic && diffuseMap == session.diffuse && radianceMap == session.radiance
    {
      var dsRad := Get(p.diffuseRadius, 0.1);
      var search := Get(p.search, 50);
      nDiffusePhotons, nCausPhotons := ToUnsigned(Get(p.photons, 100000)), ToUnsigned(Get(p.cPhotons, 500000));
      trShad, sDepth := Get(p.transpShad, false), Get(p.shadowDepth, 5);
      dsRadius, causRadius := dsRad, Get(p.causticRadius, 0.01);
      usePhotonCaustics, usePhotonDiffuse := Get(p.caustics, true), Get(p.diffuse, true);
      rDepth := Get(p.raydepth, 5);
      nDiffuseSearch, nCausSearch := search, Get(p.causticMix, search);
      finalGather := Get(p.finalGather, true);
      maxBounces, causDepth := Get(p.bounces, 5), Get(p.bounces, 5);
      nPaths, gatherBounces := Get(p.fgSamples, 32), Get(p.fgBounces, 2);
      showMap := Get(p.showMap, false);
      gatherDist := Get(p.fgMinPathlen, dsRad);
      transpBackground, transpRefractedBackground := Get(p.bgTransp, false), Get(p.bgTranspRefract, false);
      useAmbientOcclusion, aoSamples := Get(p.doAO, false), Get(p.aoSamples, 32);
      aoDist, aoCol := Get(p.aoDistance, 1.0), Get(p.aoColor, Rgb(1.0, 1.0, 1.0));
      mode := ModeFromString(Get(p.processing, "generate"));
      causticMap, diffuseMap, radianceMap := session.caustic, session.diffuse, session.radiance;
    }

    /**
     * The mode checks of `preprocess`. Loading reads each enabled map (the
     * radiance map only with diffuse final gathering) and falls back to
     * generate-and-save if any cannot be read; reuse falls back to
     * generate-only if any enabled map is empty. Each map that is read
     * replaces the session's map.
     */
    method ResolveMode(loaded: Loaded)
      modifies this`mode, this`causticMap, this`diffuseMap, this`radianceMap
      ensures mode == Resolve(old(mode), usePhotonCaustics, usePhotonDiffuse, finalGather, loaded,
                              old(causticMap) == [], old(diffuseMap) == [], old(radianceMap) == [])
      ensures old(mode) != Load ==>
        causticMap == old(causticMap) && diffuseMap == old(diffuseMap) && radianceMap == old(radianceMap)
      ensures old(mode) == Load ==>
        causticMap == (if usePhotonCaustics && loaded.caustic.Some? then loaded.caustic.value else old(causticMap)) &&
        diffuseMap == (if usePhotonDiffuse && loaded.diffuse.Some? then loaded.diffuse.value else old(diffuseMap)) &&
        radianceMap == (if usePhotonDiffuse && finalGather && loaded.radiance.Some? then loaded.radiance.value
                        else old(radianceMap))
    {
      if mode == Load {
        var causticFailed, diffuseFailed, radianceFailed := false, false, false;
        if usePhotonCaustics {
          if loaded.caustic.Some? { causticMap := loaded.caustic.value; } else { causticFailed := true; }
        }
        if usePhotonDiffuse {
          if loaded.diffuse.Some? { diffuseMap := loaded.diffuse.value; } else { diffuseFailed := true; }
        }
        if usePhotonDiffuse && finalGather {
          if loaded.radiance.Some? { radianceMap := loaded.radiance.value; } else { radianceFailed := true; }
        }
        if causticFailed || diffuseFailed || radianceFailed {
          mode := GenerateAndSave;
        }
      }
      if mode == Reuse {
        if usePhotonCaustics && causticMap == [] {
          mode := GenerateOnly;
        }
        if usePhotonDiffuse && diffuseMap == [] {
          mode := GenerateOnly;
        }
        if finalGather && radianceMap == [] {
          mode := GenerateOnly;
        }
      }
    }

    /**
     * The diffuse stage. Without lights that shoot diffuse photons, diffuse
     * processing is switched off. Otherwise the budget is rounded to a
     * multiple of the thread count and the photons are shot; the stage
     * fails when the single loop stops on a light index out of range, or
     * when fewer than 50 diffuse photons are stored. It returns the
     * radiance points.
     */
    method ShootDiffuse(threads: nat, numLights: nat, emit: nat -> Emission) returns (ok: bool, points: seq<Photon>)
      requires threads >= 1
      modifies this`usePhotonDiffuse, this`nDiffusePhotons, this`diffuseMap
      ensures usePhotonDiffuse == (old(usePhotonDiffuse) && numLights != 0)
      ensures !usePhotonDiffuse ==>
        ok && points == [] && nDiffusePhotons == old(nDiffusePhotons) && diffuseMap == old(diffuseMap)
      ensures usePhotonDiffuse ==> nDiffusePhotons == RoundBudget(old(nDiffusePhotons), threads)
      ensures usePhotonDiffuse ==>
        (Complete(emit, nDiffusePhotons, threads, numLights) ==>
          diffuseMap == old(diffuseMap) + SlicePhotons(emit, 0, nDiffusePhotons, DiffuseTracer(maxBounces, finalGather)) &&
          points == SliceRadiance(emit, 0, nDiffusePhotons, DiffuseTracer(maxBounces, finalGather)))
      ensures usePhotonDiffuse ==>
        (ok <==> (threads >= 2 || Complete(emit, nDiffusePhotons, threads, numLights)) && |diffuseMap| >= 50)
    {
      if numLights == 0 {
        usePhotonDiffuse := false;
      }
      ok, points := true, [];
      if usePhotonDiffuse {
        var photons, completed;
        nDiffusePhotons, photons, points, completed :=
          ShootMap(threads, nDiffusePhotons, numLights, emit, DiffuseTracer(maxBounces, finalGather));
        diffuseMap := diffuseMap + photons;
        ok := completed && |diffuseMap| >= 50;
      }
    }

    /**
     * The caustic stage: the same as the diffuse one with the caustic
     * tracer, except that no minimum count of stored photons applies.
     */
    method ShootCaustics(threads: nat, numLights: nat, emit: nat -> Emission) returns (ok: bool)
      requires threads >= 1
      modifies this`usePhotonCaustics, this`nCausPhotons, this`causticMap
      ensures usePhotonCaustics == (old(usePhotonCaustics) && numLights != 0)
      ensures !usePhotonCaustics ==> ok && nCausPhotons == old(nCausPhotons) && causticMap == old(causticMap)
      ensures usePhotonCaustics ==> nCausPhotons == RoundBudget(old(nCausPhotons), threads)
      ensures usePhotonCaustics ==>
        (Complete(emit, nCausPhotons, threads, numLights) ==>
          causticMap == old(causticMap) + SlicePhotons(emit, 0, nCausPhotons, CausticTracer(maxBounces)))
      ensures usePhotonCaustics ==> (ok <==> threads >= 2 || Complete(emit, nCausPhotons, threads, numLights))
    {
      if numLights == 0 {
        usePhotonCaustics := false;
      }
      ok := true;
      if usePhotonCaustics {
        var photons, radiance, completed;
        nCausPhotons, photons, radiance, completed := ShootMap(threads, nCausPhotons, numLights, emit, CausticTracer(maxBounces));
        causticMap := causticMap + photons;
        ok := completed;
      }
    }

    /**
     * The radiance map of final gathering: the radiance points are thinned
     * with a radius of a hundredth of the diffuse search radius, and each
     * kept point's gathered colour is stored in order.
     */
    method BuildRadianceMap(threads: nat, points: seq<Photon>, eliminates: (Photon, Photon, real) -> bool,
                            gather: Photon -> Rgb, blank: RadiancePhoton)
      requires threads >= 1
      modifies this`radianceMap
      ensures radianceMap == RadianceMapOf(Thinned(points, eliminates, ThinRadius(dsRadius)), gather)
    {
      var cleaned := Thin(points, eliminates, ThinRadius(dsRadius));
      var data := new PreGather(cleaned, blank);
      var _ := data.RunWorkers(threads, gather);
      radianceMap := data.radianceVec;
    }

    /**
     * The stages after the diffuse one: the caustic map, then, when it
     * succeeded and diffuse final gathering is on, the radiance map built
     * from the diffuse stage's radiance points.
     */
    method ShootCausticsAndGather(threads: nat, numLights: nat, emit: nat -> Emission, points: seq<Photon>,
                                  eliminates: (Photon, Photon, real) -> bool, gather: Photon -> Rgb, blank: RadiancePhoton)
      returns (ok: bool)
      requires threads >= 1
      modifies this`usePhotonCaustics, this`nCausPhotons, this`causticMap, this`radianceMap
      ensures usePhotonCaustics == (old(usePhotonCaustics) && numLights != 0)
      ensures !usePhotonCaustics ==> ok && nCausPhotons == old(nCausPhotons) && causticMap == old(causticMap)
      ensures usePhotonCaustics ==> nCausPhotons == RoundBudget(old(nCausPhotons), threads)
      ensures usePhotonCaustics && Complete(emit, nCausPhotons, threads, numLights) ==>
        causticMap == old(causticMap) + SlicePhotons(emit, 0, nCausPhotons, CausticTracer(maxBounces))
      ensures ok && usePhotonDiffuse && finalGather ==>
        radianceMap == RadianceMapOf(Thinned(points, eliminates, ThinRadius(dsRadius)), gather)
      ensures !(ok && usePhotonDiffuse && finalGather) ==> radianceMap == old(radianceMap)
    {
      ok := ShootCaustics(threads, numLights, emit);
      if ok && usePhotonDiffuse && finalGather {
        BuildRadianceMap(threads, points, eliminates, gather, blank);
      }
    }

    /**
     * The generating part of `preprocess`: the maps are cleared and rebuilt,
     * the diffuse stage first, then the caustic stage, each of which can
     * fail, then the radiance map with diffuse final gathering. When every
     * worker completes, each map holds the photons of Halton indices 0 to
     * its rounded budget - 1 in order. In generate-and-save mode a
     * successful pass saves every enabled map.
     */
    method Generate(threads: nat, numDLights: nat, emitD: nat -> Emission, numCLights: nat, emitC: nat -> Emission,
                    eliminates: (Photon, Photon, real) -> bool, gather: Photon -> Rgb, blank: RadiancePhoton)
      returns (ok: bool, saved: set<MapFile>)
      requires threads >= 1
      modifies this`usePhotonDiffuse, this`nDiffusePhotons, this`diffuseMap
      modifies this`usePhotonCaustics, this`nCausPhotons, this`causticMap, this`radianceMap
      ensures usePhotonDiffuse == (old(usePhotonDiffuse) && numDLights != 0)
      ensures !usePhotonDiffuse ==> diffuseMap == [] && nDiffusePhotons == old(nDiffusePhotons)
      ensures usePhotonDiffuse ==> nDiffusePhotons == RoundBudget(old(nDiffusePhotons), threads)
      ensures usePhotonDiffuse && Complete(emitD, nDiffusePhotons, threads, numDLights) ==>
        diffuseMap == SlicePhotons(emitD, 0, nDiffusePhotons, DiffuseTracer(maxBounces, finalGather))
      ensures usePhotonDiffuse && |diffuseMap| < 50 ==> !ok
      ensures (threads == 1 && usePhotonDiffuse && !SliceCompletes(emitD, 0, nDiffusePhotons, numDLights)) ==> !ok
      ensures ok ==> usePhotonCaustics == (old(usePhotonCaustics) && numCLights != 0)
      ensures ok && !usePhotonCaustics ==> causticMap == [] && nCausPhotons == old(nCausPhotons)
      ensures ok && usePhotonCaustics ==> nCausPhotons == RoundBudget(old(nCausPhotons), threads)
      ensures ok && usePhotonCaustics && Complete(emitC, nCausPhotons, threads, numCLights) ==>
        causticMap == SlicePhotons(emitC, 0, nCausPhotons, CausticTracer(maxBounces))
      ensures ok && usePhotonDiffuse && finalGather && Complete(emitD, nDiffusePhotons, threads, numDLights) ==>
        radianceMap == RadianceMapOf(
          Thinned(SliceRadiance(emitD, 0, nDiffusePhotons, DiffuseTracer(maxBounces, finalGather)),
                  eliminates, ThinRadius(dsRadius)), gather)
      ensures ok && !(usePhotonDiffuse && finalGather) ==> radianceMap == []
      ensures saved == (if ok && mode == GenerateAndSave then SavedMaps(usePhotonCaustics, usePhotonDiffuse, finalGather) else {})
    {
      saved := {};
      diffuseMap, causticMap, radianceMap := [], [], [];
      var points;
      ok, points := ShootDiffuse(threads, numDLights, emitD);
      if threads == 1 && usePhotonDiffuse {
        CompleteAlone(emitD, nDiffusePhotons, numDLights);
      }
      if !ok {
        return;
      }
      ok := ShootCausticsAndGather(threads, numCLights, emitC, points, eliminates, gather, blank);
      if ok && mode == GenerateAndSave {
        saved := SavedMaps(usePhotonCaustics, usePhotonDiffuse, finalGather);
      }
    }

    /**
     * `preprocess`. A load or reuse that survives the mode checks keeps the
     * maps and succeeds without generating, saving nothing; otherwise the
     * maps are cleared and generated in the mode the checks fell back to,
     * with everything `Generate` promises about them.
     */
    method Preprocess(threads: nat, loaded: Loaded,
                      numDLights: nat, emitD: nat -> Emission, numCLights: nat, emitC: nat -> Emission,
                      eliminates: (Photon, Photon, real) -> bool, gather: Photon -> Rgb, blank: RadiancePhoton)
      returns (ok: bool, saved: set<MapFile>)
      requires threads >= 1
      modifies this
      ensures mode == Resolve(old(mode), old(usePhotonCaustics), old(usePhotonDiffuse), old(finalGather), loaded,
                              old(causticMap) == [], old(diffuseMap) == [], old(radianceMap) == [])
      ensures !Generates(mode) ==>
        ok && saved == {} && usePhotonDiffuse == old(usePhotonDiffuse) && usePhotonCaustics == old(usePhotonCaustics) &&
        nDiffusePhotons == old(nDiffusePhotons) && nCausPhotons == old(nCausPhotons)
      ensures mode == Reuse ==>
        causticMap == old(causticMap) && diffuseMap == old(diffuseMap) && radianceMap == old(radianceMap)
      ensures mode == Load ==>
        causticMap == (if usePhotonCaustics && loaded.caustic.Some? then loaded.caustic.value else old(causticMap)) &&
        diffuseMap == (if usePhotonDiffuse && loaded.diffuse.Some? then loaded.diffuse.value else old(diffuseMap)) &&
        radianceMap == (if usePhotonDiffuse && finalGather && loaded.radiance.Some? then loaded.radiance.value
                        else old(radianceMap))
      ensures Generates(mode) ==>
        usePhotonDiffuse == (old(usePhotonDiffuse) && numDLights != 0) &&
        (!usePhotonDiffuse ==> diffuseMap == [] && nDiffusePhotons == old(nDiffusePhotons)) &&
        (usePhotonDiffuse ==> nDiffusePhotons == RoundBudget(old(nDiffusePhotons), threads)) &&
        (usePhotonDiffuse && Complete(emitD, nDiffusePhotons, threads, numDLights) ==>
          diffuseMap == SlicePhotons(emitD, 0, nDiffusePhotons, DiffuseTracer(maxBounces, finalGather))) &&
        (usePhotonDiffuse && |diffuseMap| < 50 ==> !ok) &&
        (threads == 1 && usePhotonDiffuse && !SliceCompletes(emitD, 0, nDiffusePhotons, numDLights) ==> !ok)
      ensures ok && Generates(mode) ==>
        usePhotonCaustics == (old(usePhotonCaustics) && numCLights != 0) &&
        (!usePhotonCaustics ==> causticMap == [] && nCausPhotons == old(nCausPhotons)) &&
        (usePhotonCaustics ==> nCausPhotons == RoundBudget(old(nCausPhotons), threads)) &&
        (usePhotonCaustics && Complete(emitC, nCausPhotons, threads, numCLights) ==>
          causticMap == SlicePhotons(emitC, 0, nCausPhotons, CausticTracer(maxBounces)))
      ensures ok && Generates(mode) && usePhotonDiffuse && finalGather &&
              Complete(emitD, nDiffusePhotons, threads, numDLights) ==>
        radianceMap == RadianceMapOf(
          Thinned(SliceRadiance(emitD, 0, nDiffusePhotons, DiffuseTracer(maxBounces, finalGather)),
                  eliminates, ThinRadius(dsRadius)), gather)
      ensures ok && Generates(mode) && !(usePhotonDiffuse && finalGather) ==> radianceMap == []
      ensures saved == (if ok && mode == GenerateAndSave then SavedMaps(usePhotonCaustics, usePhotonDiffuse, finalGather) else {})
    {
      ResolveMode(loaded);
      if !Generates(mode) {
        return true, {};
      }
      ok, saved := Generate(threads, numDLights, emitD, numCLights, emitC, eliminates, gather, blank);
    }
  }

  // ---------------------------------------------------------------------
  // Factory
  // ---------------------------------------------------------------------

  /** The parameters the factory reads; `None` where the parameter map has no value of the right type. */
  datatype FactoryParams = FactoryParams(
    caustics: Option<bool>, diffuse: Option<bool>, transpShad: Option<bool>, shadowDepth: Option<int>,
    raydepth: Option<int>, photons: Option<int>, cPhotons: Option<int>,
    diffuseRadius: Option<real>, causticRadius: Option<real>, search: Option<int>, causticMix: Option<int>,
    bounces: Option<int>, finalGather: Option<bool>, fgSamples: Option<int>, fgBounces: Option<int>,
    fgMinPathlen: Option<real>, showMap: Option<bool>, bgTransp: Option<bool>, bgTranspRefract: Option<bool>,
    doAO: Option<bool>, aoSamples: Option<int>, aoDistance: Option<real>, aoColor: Option<Rgb>,
    processing: Option<string>)

  /** `getParam`: the value if present, otherwise the default the variable already holds. */
  function Get<T>(o: Option<T>, fallback: T): (v: T)
    ensures o.Some? ==> v == o.value
    ensures o.None? ==> v == fallback
  {
    if o.Some? then o.value else fallback
  }

  /** An `int` passed as `unsigned int`: taken modulo 2^32. */
  function ToUnsigned(v: int): (u: nat)
    ensures u < Word
    ensures 0 <= v < Word ==> u == v
    ensures Int32Min <= v < 0 ==> u == v + Word
  {
    v % Word
  }

  /**
   * `factory`: every setting is its parameter or the default. The caustic
   * search count defaults to the (possibly given) diffuse search count, the
   * minimum final-gathering path length to the diffuse radius, the caustic
   * depth is the bounce count, and the mode is read from its name with
   * generate-only for any other name. The photon counts are converted to
   * unsigned. The integrator works on the session's maps as the last
   * render left them, which is what reusing them relies on.
   */
  method Factory(p: FactoryParams, session: SessionMaps) returns (ite: PhotonIntegrator)
    ensures fresh(ite)
    ensures ite.usePhotonCaustics == Get(p.caustics, true) && ite.usePhotonDiffuse == Get(p.diffuse, true)
    ensures ite.trShad == Get(p.transpShad, false) && ite.sDepth == Get(p.shadowDepth, 5)
    ensures ite.rDepth == Get(p.raydepth, 5)
    ensures ite.nDiffusePhotons == ToUnsigned(Get(p.photons, 100000))
    ensures ite.nCausPhotons == ToUnsigned(Get(p.cPhotons, 500000))
    ensures ite.dsRadius == Get(p.diffuseRadius, 0.1) && ite.causRadius == Get(p.causticRadius, 0.01)
    ensures ite.nDiffuseSearch == Get(p.search, 50)
    ensures ite.nCausSearch == Get(p.causticMix, ite.nDiffuseSearch)
    ensures ite.maxBounces == Get(p.bounces, 5) && ite.causDepth == ite.maxBounces
    ensures ite.finalGather == Get(p.finalGather, true)
    ensures ite.nPaths == Get(p.fgSamples, 32) && ite.gatherBounces == Get(p.fgBounces, 2)
    ensures ite.gatherDist == Get(p.fgMinPathlen, ite.dsRadius)
    ensures ite.showMap == Get(p.showMap, false)
    ensures ite.transpBackground == Get(p.bgTransp, false)
    ensures ite.transpRefractedBackground == Get(p.bgTranspRefract, false)
    ensures ite.useAmbientOcclusion == Get(p.doAO, false) && ite.aoSamples == Get(p.aoSamples, 32)
    ensures ite.aoDist == Get(p.aoDistance, 1.0) && ite.aoCol == Get(p.aoColor, Rgb(1.0, 1.0, 1.0))
    ensures ite.mode == ModeFromString(Get(p.processing, "generate"))
    ensures ite.causticMap == session.caustic && ite.diffuseMap == session.diffuse
    ensures ite.radianceMap == session.radiance
  {
    ite := new PhotonIntegrator.FromParams(p, session);
  }
}
