/**
 * The photon-shooting rules the Monte Carlo integrator and the photon
 * mapping integrator share: the photon-map processing modes, the rounding
 * of the photon budget to a multiple of the thread count, the slice of
 * Halton indices each worker shoots, the caustic/direct classification of
 * a photon path, and where along a path photons are deposited.
 *
 * Lights, materials and the scene's intersection routine are not part of
 * this model. What they decide for the photon shot with a given Halton
 * index is an input (`Emission`): the light the light-power distribution
 * picks, whether the emitted colour is black, and for each surface the path
 * hits, the material's flags, whether `scatterPhoton` scattered the photon,
 * the flags of the sampled component, and the outcome of the random draw
 * that picks radiance points. Photon colours are not modelled: a deposited
 * photon is identified by its Halton index and its bounce.
 */
module PhotonPaths {

  import opened Bsdf
  import opened CArith

  // ---------------------------------------------------------------------
  // Photon-map processing modes
  // ---------------------------------------------------------------------

  datatype Mode = GenerateOnly | GenerateAndSave | Load | Reuse

  /** The factory's mode names; anything else means generate only. */
  function ModeFromString(s: string): (m: Mode)
    ensures m == GenerateAndSave <==> s == "generate-save"
    ensures m == Load <==> s == "load"
    ensures m == Reuse <==> s == "reuse-previous"
  {
    if s == "generate-save" then GenerateAndSave
    else if s == "load" then Load
    else if s == "reuse-previous" then Reuse
    else GenerateOnly
  }

  function ModeName(m: Mode): string {
    match m
    case GenerateOnly => "generate"
    case GenerateAndSave => "generate-save"
    case Load => "load"
    case Reuse => "reuse-previous"
  }

  /** Every mode is read back from its name, and the default name means generate only. */
  lemma ModeRoundTrip(m: Mode)
    ensures ModeFromString(ModeName(m)) == m
  {
  }

  /** A mode that builds its maps. */
  predicate Generates(m: Mode) { m == GenerateOnly || m == GenerateAndSave }

  // ---------------------------------------------------------------------
  // Photon budget and per-thread slices
  // ---------------------------------------------------------------------

  /** Quotient uniqueness for natural numbers. */
  lemma DivUnique(x: nat, y: nat, q: nat, r: nat)
    requires y > 0 && x == q * y + r && r < y
    ensures x / y == q && x % y == r
  {
    CDivUnique(x, y, q, r);
  }

  /** `n / t`, counted by repeated subtraction. */
  function Quotient(n: nat, t: nat): nat
    requires t >= 1
    decreases n
  {
    if n < t then 0 else 1 + Quotient(n - t, t)
  }

  /** `n / t * t`: the largest multiple of `t` not above `n`, built up by repeated subtraction. */
  function Whole(n: nat, t: nat): nat
    requires t >= 1
    decreases n
  {
    if n < t then 0 else t + Whole(n - t, t)
  }

  /** Quotient is integer division. */
  lemma {:induction false} QuotientIsDiv(n: nat, t: nat)
    requires t >= 1
    ensures Quotient(n, t) == n / t
    decreases n
  {
    if n < t {
      DivUnique(n, t, 0, n);
    } else {
      QuotientIsDiv(n - t, t);
      var q, r := (n - t) / t, (n - t) % t;
      assert n - t == q * t + r;
      assert n == (q + 1) * t + r;
      DivUnique(n, t, q + 1, r);
    }
  }

  /** Whole is the quotient times the divisor. */
  lemma {:induction false} WholeIsMultiple(n: nat, t: nat)
    requires t >= 1
    ensures Whole(n, t) == Quotient(n, t) * t
    decreases n
  {
    if n >= t {
      WholeIsMultiple(n - t, t);
      assert t + Quotient(n - t, t) * t == (1 + Quotient(n - t, t)) * t;
    }
  }

  /**
   * The budget rounded so every thread shoots the same number of photons:
   * `max(T, (n / T) * T)`.
   */
  function RoundBudget(n: nat, threads: nat): (r: nat)
    requires threads >= 1
    ensures r >= threads
  {
    var whole := Whole(n, threads);
    if whole < threads then threads else whole
  }

  /** The number of photons each worker shoots: `1 + (n - 1) / T`. */
  function SliceSize(n: nat, threads: nat): nat
    requires n >= 1 && threads >= 1
  {
    1 + Quotient(n - 1, threads)
  }

  /**
   * The rounded budget is `max(T, (n / T) * T)`: at least one photon per
   * thread, a multiple of the thread count, never above the request unless
   * the request is below the thread count, and split exactly into the
   * per-thread slices.
   */
  lemma BudgetSlices(n: nat, threads: nat)
    requires threads >= 1
    ensures var r := RoundBudget(n, threads);
      r == (if n / threads * threads < threads then threads else n / threads * threads) &&
      r >= threads && r % threads == 0 && (n >= threads ==> r <= n) &&
      SliceSize(r, threads) * threads == r
  {
    WholeIsMultiple(n, threads);
    QuotientIsDiv(n, threads);
    var r := RoundBudget(n, threads);
    var k := if n / threads * threads < threads then 1 else n / threads;
    assert r == k * threads && k >= 1;
    ExactSlices(k, threads);
    if n >= threads {
      FloorBelow(n, threads);
    }
  }

  /** A positive multiple of `t` is divisible by `t` and splits into `t` slices of its quotient. */
  lemma ExactSlices(k: nat, t: nat)
    requires k >= 1 && t >= 1
    ensures (k * t) % t == 0 && SliceSize(k * t, t) * t == k * t
  {
    DivUnique(k * t, t, k, 0);
    assert k * t - 1 == (k - 1) * t + (t - 1);
    DivUnique(k * t - 1, t, k - 1, t - 1);
    QuotientIsDiv(k * t - 1, t);
  }

  /** Rounding down to a multiple never exceeds the number, and reaches the divisor once the number does. */
  lemma FloorBelow(n: nat, t: nat)
    requires t >= 1 && n >= t
    ensures t <= n / t * t <= n
  {
    assert n == n / t * t + n % t;
    DivUnique(n, t, n / t, n % t);
  }

  /** The Halton index a worker uses for its `curr`-th photon. */
  function HaltonIndex(curr: nat, slice: nat, threadId: nat): nat { curr + slice * threadId }

  /** Each worker's Halton indices stay below `slice * threads`. */
  lemma HaltonIndexInRange(c: nat, slice: nat, t: nat, threads: nat)
    requires c < slice && t < threads
    ensures HaltonIndex(c, slice, t) < slice * threads
  {
    assert slice * (t + 1) == slice * t + slice;
    MulMonotone(slice, t + 1, threads);
  }

  lemma MulMonotone(a: nat, b: nat, c: nat)
    requires b <= c
    ensures a * b <= a * c
  {
    assert a * c == a * b + a * (c - b);
  }

  /** Different workers, or different photons of one worker, use different Halton indices. */
  lemma HaltonIndexInjective(c1: nat, t1: nat, c2: nat, t2: nat, slice: nat)
    requires c1 < slice && c2 < slice && HaltonIndex(c1, slice, t1) == HaltonIndex(c2, slice, t2)
    ensures c1 == c2 && t1 == t2
  {
    DivUnique(HaltonIndex(c1, slice, t1), slice, t1, c1);
    DivUnique(HaltonIndex(c2, slice, t2), slice, t2, c2);
  }

  /** Every index below `slice * threads` is used by some worker: thread `i / slice`, photon `i % slice`. */
  lemma HaltonIndexCovers(i: nat, slice: nat, threads: nat)
    requires slice >= 1 && i < slice * threads
    ensures i / slice < threads && HaltonIndex(i % slice, slice, i / slice) == i
  {
    DivUnique(i, slice, i / slice, i % slice);
  }

  // ---------------------------------------------------------------------
  // Classifying a photon path
  // ---------------------------------------------------------------------

  /** The sampled kinds that make a direct photon caustic. */
  const CausticKinds: Flags := {Glossy, Specular, Dispersive}
  /** The sampled kinds that keep a caustic photon caustic. */
  const KeepsCausticKinds: Flags := {Glossy, Specular, Filter, Dispersive}

  /** `causticPhoton` and `directPhoton`. */
  datatype PathState = PathState(caustic: bool, direct: bool)
  {
    predicate Alive() { caustic || direct }
  }

  /** A freshly emitted photon: direct, not caustic. */
  const Start: PathState := PathState(false, true)

  /**
   * The update after a scattering event with sampled flags `sampled`: the
   * photon becomes (or stays) caustic through a glossy, specular or
   * dispersive event while direct, or through such an event or a filter
   * while caustic; it stays direct only through filters.
   */
  function Scatter(st: PathState, sampled: Flags): PathState {
    PathState(
      (sampled * CausticKinds != {} && st.direct) || (sampled * KeepsCausticKinds != {} && st.caustic),
      Filter in sampled && st.direct)
  }

  /** One surface a photon path reaches. */
  datatype Hit = Hit(
    matFlags: Flags,   // the flags `initBSDF` reports for the surface
    scattered: bool,   // whether `scatterPhoton` scattered (rather than absorbed) the photon
    sampled: Flags,    // the flags of the sampled component
    fgPick: bool)      // the draw `ourRandom() < 0.125` that picks a radiance point

  /** The classification after the first `j` scattering events. */
  function PathAfter(hits: seq<Hit>, j: nat): PathState
    requires j <= |hits|
  {
    if j == 0 then Start else Scatter(PathAfter(hits, j - 1), hits[j - 1].sampled)
  }

  /** Every one of the first `k` scattering events passed through a filter. */
  predicate FilteredUpTo(hits: seq<Hit>, k: nat)
    requires k <= |hits|
  {
    forall i :: 0 <= i < k ==> Filter in hits[i].sampled
  }

  /** Every scattering event strictly between `k` and `j` keeps a photon caustic. */
  predicate KeptCausticBetween(hits: seq<Hit>, k: nat, j: nat)
    requires j <= |hits|
  {
    forall i :: k < i < j ==> hits[i].sampled * KeepsCausticKinds != {}
  }

  /** Event `k` turns a still-direct photon caustic, and every later event up to `j` keeps it so. */
  predicate TurnedCausticAt(hits: seq<Hit>, k: nat, j: nat)
    requires k < j <= |hits|
  {
    FilteredUpTo(hits, k) && hits[k].sampled * CausticKinds != {} && KeptCausticBetween(hits, k, j)
  }

  /**
   * The classification, stated without the update rule: a photon is direct
   * exactly while every event was a filter, and caustic exactly when some
   * event turned it caustic while direct and every later event kept it so.
   */
  lemma {:induction false} PathAfterCharacterised(hits: seq<Hit>, j: nat)
    requires j <= |hits|
    ensures PathAfter(hits, j).direct <==> FilteredUpTo(hits, j)
    ensures PathAfter(hits, j).caustic <==> exists k :: 0 <= k < j && TurnedCausticAt(hits, k, j)
  {
    if j > 0 {
      PathAfterCharacterised(hits, j - 1);
      var st := PathAfter(hits, j - 1);
      var s := hits[j - 1].sampled;
      if PathAfter(hits, j).caustic {
        if s * CausticKinds != {} && st.direct {
          assert TurnedCausticAt(hits, j - 1, j);
        } else {
          var k :| 0 <= k < j - 1 && TurnedCausticAt(hits, k, j - 1);
          assert TurnedCausticAt(hits, k, j);
        }
      }
      if exists k :: 0 <= k < j && TurnedCausticAt(hits, k, j) {
        var k :| 0 <= k < j && TurnedCausticAt(hits, k, j);
        if k < j - 1 {
          assert TurnedCausticAt(hits, k, j - 1);
        } else {
          assert FilteredUpTo(hits, j - 1);
        }
      }
    }
  }

  /** Without a glossy, specular or dispersive event a photon never becomes caustic. */
  lemma NoCausticWithoutCausticEvent(hits: seq<Hit>, j: nat)
    requires j <= |hits|
    requires forall i :: 0 <= i < j ==> hits[i].sampled * CausticKinds == {}
    ensures !PathAfter(hits, j).caustic
  {
    PathAfterCharacterised(hits, j);
  }

  /** A photon that is neither caustic nor direct stays so. */
  lemma {:induction false} DeadStaysDead(hits: seq<Hit>, k: nat, j: nat)
    requires k <= j <= |hits|
    requires !PathAfter(hits, k).Alive()
    ensures !PathAfter(hits, j).Alive()
    decreases j - k
  {
    if k < j {
      DeadStaysDead(hits, k + 1, j);
    }
  }

  // ---------------------------------------------------------------------
  // Tracing one photon
  // ---------------------------------------------------------------------

  /**
   * How a worker traces its photons: the bounce at which tracing stops,
   * which material flags accept a photon, whether photons are deposited
   * while the path is caustic (caustic map) or while it is not (diffuse
   * map), whether a path that is neither caustic nor direct is abandoned,
   * and whether radiance points are collected for final gathering.
   */
  datatype Tracer = Tracer(depth: int, mask: Flags, wantCaustic: bool, stopDead: bool, finalGather: bool)

  /** Tracing goes on past hit `i`: it is not the last bounce, the photon scattered, and (if so configured) it is still alive. */
  predicate Continues(hits: seq<Hit>, i: nat, tr: Tracer)
    requires i < |hits|
  {
    i != tr.depth && hits[i].scattered && (tr.stopDead ==> PathAfter(hits, i + 1).Alive())
  }

  /** The number of scattering events of a path: the first hit at or after `from` past which tracing stops. */
  function Reach(hits: seq<Hit>, tr: Tracer, from: nat): (r: nat)
    requires from <= |hits|
    ensures from <= r <= |hits|
    ensures forall i :: from <= i < r ==> Continues(hits, i, tr)
    ensures r == |hits| || !Continues(hits, r, tr)
    decreases |hits| - from
  {
    if from == |hits| || !Continues(hits, from, tr) then from else Reach(hits, tr, from + 1)
  }

  /** The hits a path visits: those up to and including the one where tracing stops. */
  function Visited(hits: seq<Hit>, tr: Tracer): (v: nat)
    ensures v <= |hits|
  {
    var r := Reach(hits, tr, 0);
    if r < |hits| then r + 1 else r
  }

  /** A photon is deposited at hit `j`: the material accepts it and the path's classification is the one wanted. */
  predicate DepositAt(hits: seq<Hit>, j: nat, tr: Tracer)
    requires j < |hits|
  {
    hits[j].matFlags * tr.mask != {} && PathAfter(hits, j).caustic == tr.wantCaustic
  }

  predicate Increasing(s: seq<nat>) { forall i, j :: 0 <= i < j < |s| ==> s[i] < s[j] }

  /** The hits below `k` where a photon is deposited, in order. */
  function DepositsBelow(hits: seq<Hit>, k: nat, tr: Tracer): seq<nat>
    requires k <= |hits|
  {
    if k == 0 then []
    else
      var d := DepositsBelow(hits, k - 1, tr);
      if DepositAt(hits, k - 1, tr) then d + [k - 1] else d
  }

  /** DepositsBelow lists, in increasing order, exactly the hits below `k` where a photon is deposited. */
  lemma {:induction false} DepositsBelowSpec(hits: seq<Hit>, k: nat, tr: Tracer)
    requires k <= |hits|
    ensures var d := DepositsBelow(hits, k, tr);
      Increasing(d) && (forall i :: 0 <= i < |d| ==> d[i] < k) &&
      forall j: nat :: j in d <==> j < k && DepositAt(hits, j, tr)
  {
    if k > 0 {
      DepositsBelowSpec(hits, k - 1, tr);
    }
  }

  /** The bounces at which a path deposits photons. */
  function PathDeposits(hits: seq<Hit>, tr: Tracer): seq<nat> {
    DepositsBelow(hits, Visited(hits, tr), tr)
  }

  /**
   * The photon loop of one path. At each hit the photon is deposited when
   * the material's flags meet the mask and the path's classification is the
   * wanted one; tracing stops at the last bounce, when the photon is
   * absorbed, or (if so configured) when it is neither caustic nor direct;
   * it also ends when the path leaves the scene. The state stays chromatic
   * until the first dispersive scattering event that tracing goes on past.
   */
  method TracePath(hits: seq<Hit>, tr: Tracer) returns (deposits: seq<nat>, bounces: nat, chromatic: bool)
    ensures bounces == Reach(hits, tr, 0)
    ensures deposits == PathDeposits(hits, tr)
    ensures chromatic <==> forall i :: 0 <= i < bounces ==> Dispersive !in hits[i].sampled
  {
    deposits, bounces, chromatic := [], 0, true;
    var st := Start;
    while bounces < |hits|
      invariant bounces <= |hits|
      invariant st == PathAfter(hits, bounces)
      invariant forall i :: 0 <= i < bounces ==> Continues(hits, i, tr)
      invariant deposits == DepositsBelow(hits, bounces, tr)
      invariant chromatic <==> forall i :: 0 <= i < bounces ==> Dispersive !in hits[i].sampled
      decreases |hits| - bounces
    {
      var hit := hits[bounces];
      if hit.matFlags * tr.mask != {} && st.caustic == tr.wantCaustic {
        deposits := deposits + [bounces];
      }
      if bounces == tr.depth || !hit.scattered {
        assert !Continues(hits, bounces, tr);
        break;
      }
      st := Scatter(st, hit.sampled);
      if tr.stopDead && !st.Alive() {
        assert !Continues(hits, bounces, tr);
        break;
      }
      if chromatic && Dispersive in hit.sampled {
        chromatic := false;
      }
      bounces := bounces + 1;
    }
  }

  /** The deposits of a path that reach a diffuse surface while not caustic, and whose draw picks them, become radiance points. */
  function RadiancePicks(hits: seq<Hit>, deposits: seq<nat>): (r: seq<nat>)
    requires forall k :: 0 <= k < |deposits| ==> deposits[k] < |hits|
    ensures forall j :: j in r <==> j in deposits && hits[j].fgPick
  {
    if deposits == [] then []
    else
      var rest := RadiancePicks(hits, deposits[1..]);
      if hits[deposits[0]].fgPick then [deposits[0]] + rest else rest
  }

  /**
   * A diffuse-map tracer deposits only on paths that are not caustic, and a
   * caustic-map tracer only on caustic ones; with a purely diffuse history
   * the caustic tracer deposits nothing.
   */
  lemma DepositsFollowClassification(hits: seq<Hit>, tr: Tracer, j: nat)
    requires j in PathDeposits(hits, tr)
    ensures j < Visited(hits, tr)
    ensures PathAfter(hits, j).caustic == tr.wantCaustic
    ensures tr.wantCaustic ==> exists k :: 0 <= k < j && hits[k].sampled * CausticKinds != {}
  {
    DepositsBelowSpec(hits, Visited(hits, tr), tr);
    if tr.wantCaustic && forall k :: 0 <= k < j ==> hits[k].sampled * CausticKinds == {} {
      NoCausticWithoutCausticEvent(hits, j);
    }
  }

  // ---------------------------------------------------------------------
  // Shooting a slice of photons
  // ---------------------------------------------------------------------

  /**
   * What the scene decides for the photon with a given Halton index. A
   * photon whose colour turns NaN has no case here: the source's `continue`
   * retries the same ray with the same colour and never gets past it, so
   * every modelled photon moves on to the next.
   */
  datatype Emission = Emission(lightNum: int, black: bool, hits: seq<Hit>)

  /** A deposited photon or radiance point: the Halton index of its path and the bounce. */
  datatype Photon = Photon(index: nat, bounce: nat)

  function Tag(index: nat, bounces: seq<nat>): (p: seq<Photon>)
    ensures |p| == |bounces| && forall k :: 0 <= k < |p| ==> p[k] == Photon(index, bounces[k])
  {
    seq(|bounces|, k requires 0 <= k < |bounces| => Photon(index, bounces[k]))
  }

  /** The photons the path with Halton index `index` deposits; a black photon is not traced. */
  function PathPhotons(index: nat, e: Emission, tr: Tracer): seq<Photon> {
    if e.black then [] else Tag(index, PathDeposits(e.hits, tr))
  }

  /** The radiance points the path with Halton index `index` contributes. */
  function PathRadiance(index: nat, e: Emission, tr: Tracer): seq<Photon> {
    if e.black || !tr.finalGather then []
    else
      DepositsBelowSpec(e.hits, Visited(e.hits, tr), tr);
      Tag(index, RadiancePicks(e.hits, PathDeposits(e.hits, tr)))
  }

  /** The blocks `f(base)`, ..., `f(base + k - 1)`, concatenated in that order. */
  function Concat<T>(f: nat -> seq<T>, base: nat, k: nat): seq<T> {
    if k == 0 then [] else Concat(f, base, k - 1) + f(base + k - 1)
  }

  /** Two consecutive stretches of blocks concatenate to the whole stretch. */
  lemma {:induction false} ConcatSplit<T>(f: nat -> seq<T>, base: nat, k1: nat, k2: nat)
    ensures Concat(f, base, k1) + Concat(f, base + k1, k2) == Concat(f, base, k1 + k2)
  {
    if k2 == 0 {
      assert Concat(f, base, k1) + [] == Concat(f, base, k1);
    } else {
      ConcatSplit(f, base, k1, k2 - 1);
      var a, b, p := Concat(f, base, k1), Concat(f, base + k1, k2 - 1), f(base + k1 + k2 - 1);
      assert a + (b + p) == (a + b) + p;
    }
  }

  /** The photons of each path, by Halton index. */
  function PhotonsOf(emit: nat -> Emission, tr: Tracer): nat -> seq<Photon> {
    (i: nat) => PathPhotons(i, emit(i), tr)
  }

  /** The radiance points of each path, by Halton index. */
  function RadianceOf(emit: nat -> Emission, tr: Tracer): nat -> seq<Photon> {
    (i: nat) => PathRadiance(i, emit(i), tr)
  }

  /** The photons of the paths with Halton indices `base` to `base + k - 1`, in that order. */
  function SlicePhotons(emit: nat -> Emission, base: nat, k: nat, tr: Tracer): seq<Photon> {
    Concat(PhotonsOf(emit, tr), base, k)
  }

  /** The radiance points of the paths with Halton indices `base` to `base + k - 1`, in that order. */
  function SliceRadiance(emit: nat -> Emission, base: nat, k: nat, tr: Tracer): seq<Photon> {
    Concat(RadianceOf(emit, tr), base, k)
  }

  /** The light the distribution picks for the photon with Halton index `index` is one of the lights. */
  predicate LightInRange(emit: nat -> Emission, index: nat, numLights: int) {
    emit(index).lightNum < numLights
  }

  /** The first Halton index from `from` on, below `end`, whose light is out of range, or `end`. */
  function FirstBad(emit: nat -> Emission, from: nat, end: nat, numLights: int): (r: nat)
    requires from <= end
    ensures from <= r <= end
    ensures forall i :: from <= i < r ==> LightInRange(emit, i, numLights)
    ensures r < end ==> !LightInRange(emit, r, numLights)
    decreases end - from
  {
    if from == end || !LightInRange(emit, from, numLights) then from
    else FirstBad(emit, from + 1, end, numLights)
  }

  /** Every photon of the slice has a light in range, so its worker finishes. */
  predicate SliceCompletes(emit: nat -> Emission, base: nat, slice: nat, numLights: int) {
    FirstBad(emit, base, base + slice, numLights) == base + slice
  }

  /**
   * One worker: it shoots the photons with Halton indices `base` to
   * `base + slice - 1` in order. A light index out of range stops it at
   * once (`completed` false, and `curr` is the position of that photon);
   * otherwise it returns after the whole slice. Black photons count as shot
   * but are not traced.
   */
  method ShootSlice(emit: nat -> Emission, base: nat, slice: nat, numLights: int, tr: Tracer)
    returns (photons: seq<Photon>, radiance: seq<Photon>, curr: nat, completed: bool)
    ensures base + curr == FirstBad(emit, base, base + slice, numLights)
    ensures completed <==> SliceCompletes(emit, base, slice, numLights)
    ensures completed <==> curr == slice
    ensures photons == SlicePhotons(emit, base, curr, tr)
    ensures radiance == SliceRadiance(emit, base, curr, tr)
  {
    photons, radiance, curr := [], [], 0;
    while curr < slice
      invariant curr <= slice
      invariant forall i :: base <= i < base + curr ==> LightInRange(emit, i, numLights)
      invariant photons == SlicePhotons(emit, base, curr, tr)
      invariant radiance == SliceRadiance(emit, base, curr, tr)
    {
      var e := emit(base + curr);
      if !LightInRange(emit, base + curr, numLights) {
        return photons, radiance, curr, false;
      }
      if !e.black {
        var deposits, _, _ := TracePath(e.hits, tr);
        DepositsBelowSpec(e.hits, Visited(e.hits, tr), tr);
        photons := photons + Tag(base + curr, deposits);
        if tr.finalGather {
          radiance := radiance + Tag(base + curr, RadiancePicks(e.hits, deposits));
        }
      }
      curr := curr + 1;
    }
    completed := true;
  }

  /** `slice * t`: the first Halton index of thread `t`, built up slice by slice. */
  function Offset(slice: nat, t: nat): nat {
    if t == 0 then 0 else Offset(slice, t - 1) + slice
  }

  /** Offset is the product. */
  lemma {:induction false} OffsetIsProduct(slice: nat, t: nat)
    ensures Offset(slice, t) == slice * t
  {
    if t != 0 {
      OffsetIsProduct(slice, t - 1);
      assert slice * t == slice * (t - 1) + slice;
    }
  }

  /** The worker of thread `t` finishes its slice. */
  predicate ThreadCompletes(emit: nat -> Emission, slice: nat, t: nat, numLights: int) {
    SliceCompletes(emit, Offset(slice, t), slice, numLights)
  }

  /** Every worker of the first `t` finishes its slice. */
  predicate AllComplete(emit: nat -> Emission, slice: nat, t: nat, numLights: int) {
    forall i :: 0 <= i < t ==> ThreadCompletes(emit, slice, i, numLights)
  }

  lemma AllCompleteStep(emit: nat -> Emission, slice: nat, t: nat, numLights: int)
    ensures AllComplete(emit, slice, t + 1, numLights) <==>
      AllComplete(emit, slice, t, numLights) && ThreadCompletes(emit, slice, t, numLights)
  {
  }

  /** The photons and radiance points of `done + slice` paths are those of the first `done`, then the next `slice`. */
  lemma SliceStep(emit: nat -> Emission, done: nat, slice: nat, tr: Tracer)
    ensures SlicePhotons(emit, 0, done + slice, tr) == SlicePhotons(emit, 0, done, tr) + SlicePhotons(emit, done, slice, tr)
    ensures SliceRadiance(emit, 0, done + slice, tr) == SliceRadiance(emit, 0, done, tr) + SliceRadiance(emit, done, slice, tr)
  {
    ConcatSplit(PhotonsOf(emit, tr), 0, done, slice);
    ConcatSplit(RadianceOf(emit, tr), 0, done, slice);
  }

  /**
   * What the first `t` workers add, in thread order: the photons of each
   * worker that finishes its slice, and nothing from a worker that stops on
   * a bad light index.
   */
  function CompletedPhotons(emit: nat -> Emission, slice: nat, t: nat, numLights: int, tr: Tracer): seq<Photon> {
    if t == 0 then []
    else CompletedPhotons(emit, slice, t - 1, numLights, tr) +
         (if ThreadCompletes(emit, slice, t - 1, numLights) then SlicePhotons(emit, Offset(slice, t - 1), slice, tr) else [])
  }

  /** The radiance points the first `t` workers add, in the same way. */
  function CompletedRadiance(emit: nat -> Emission, slice: nat, t: nat, numLights: int, tr: Tracer): seq<Photon> {
    if t == 0 then []
    else CompletedRadiance(emit, slice, t - 1, numLights, tr) +
         (if ThreadCompletes(emit, slice, t - 1, numLights) then SliceRadiance(emit, Offset(slice, t - 1), slice, tr) else [])
  }

  /** The photons the first `t` workers count as shot: a whole slice for each that finishes. */
  function CompletedShot(emit: nat -> Emission, slice: nat, t: nat, numLights: int): nat {
    if t == 0 then 0
    else CompletedShot(emit, slice, t - 1, numLights) + (if ThreadCompletes(emit, slice, t - 1, numLights) then slice else 0)
  }

  /**
   * When every one of the first `t` workers finishes, they add the photons
   * and radiance points of Halton indices 0 to `slice * t - 1` in order, and
   * count all of them; otherwise fewer are counted.
   */
  lemma {:induction false} CompletedAll(emit: nat -> Emission, slice: nat, t: nat, numLights: int, tr: Tracer)
    ensures CompletedShot(emit, slice, t, numLights) <= Offset(slice, t)
    ensures AllComplete(emit, slice, t, numLights) ==>
      CompletedPhotons(emit, slice, t, numLights, tr) == SlicePhotons(emit, 0, Offset(slice, t), tr) &&
      CompletedRadiance(emit, slice, t, numLights, tr) == SliceRadiance(emit, 0, Offset(slice, t), tr) &&
      CompletedShot(emit, slice, t, numLights) == Offset(slice, t)
    ensures slice > 0 && !AllComplete(emit, slice, t, numLights) ==> CompletedShot(emit, slice, t, numLights) < Offset(slice, t)
  {
    if t != 0 {
      CompletedAll(emit, slice, t - 1, numLights, tr);
      AllCompleteStep(emit, slice, t - 1, numLights);
      if AllComplete(emit, slice, t, numLights) {
        SliceStep(emit, Offset(slice, t - 1), slice, tr);
      }
    }
  }

  /**
   * The workers, run one after the other in thread order. A worker that
   * stops on a bad light index contributes neither photons nor a count;
   * when every worker finishes, the photons are those of the Halton indices
   * `0` to `slice * threads - 1`, each traced once, in order.
   */
  method ShootAll(emit: nat -> Emission, slice: nat, threads: nat, numLights: int, tr: Tracer)
    returns (photons: seq<Photon>, radiance: seq<Photon>, shot: nat)
    ensures photons == CompletedPhotons(emit, slice, threads, numLights, tr)
    ensures radiance == CompletedRadiance(emit, slice, threads, numLights, tr)
    ensures shot == CompletedShot(emit, slice, threads, numLights)
    ensures shot <= slice * threads
    ensures AllComplete(emit, slice, threads, numLights) ==>
      photons == SlicePhotons(emit, 0, slice * threads, tr) &&
      radiance == SliceRadiance(emit, 0, slice * threads, tr) && shot == slice * threads
  {
    photons, radiance, shot := [], [], 0;
    var t, done := 0, 0;
    while t < threads
      invariant t <= threads && done == Offset(slice, t)
      invariant photons == CompletedPhotons(emit, slice, t, numLights, tr)
      invariant radiance == CompletedRadiance(emit, slice, t, numLights, tr)
      invariant shot == CompletedShot(emit, slice, t, numLights)
    {
      var p, r, curr, completed := ShootSlice(emit, done, slice, numLights, tr);
      if completed {
        photons := photons + p;
        radiance := radiance + r;
        shot := shot + curr;
      }
      t, done := t + 1, done + slice;
    }
    CompletedAll(emit, slice, threads, numLights, tr);
    OffsetIsProduct(slice, threads);
  }
}
