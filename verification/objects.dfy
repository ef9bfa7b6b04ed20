/**
 * Geometric objects: their name, visibility, base-object flag and light,
 * their object index, and the two counters all objects share (the automatic
 * object index and the highest object index in use), which each new object
 * advances and each destroyed object resets.
 *
 * The C library's `rand()` is not part of this model: the colour loop of the
 * constructor reads its draws from a sequence. Object indices are 32-bit
 * unsigned; their conversion to float is taken as exact.
 */
module Objects {

  import opened Wrappers
  import opened Colours

  const UIntLimit: int := 0x1_0000_0000

  /** `unsigned int`. */
  type UInt = x: int | 0 <= x < UIntLimit

  /** Whether an object is rendered and whether it casts shadows. */
  datatype Visibility = NormalVisible | VisibleNoShadows | InvisibleShadowsOnly | Invisible

  // ---------------------------------------------------------------------
  // The automatic colour
  // ---------------------------------------------------------------------

  /** `(rand() % 8) / 8.f`: one of the eight values 0, 1/8, ..., 7/8. */
  function Channel(draw: nat): (v: real)
    ensures 0.0 <= v <= 7.0 / 8.0
    ensures (v * 8.0).Floor as real == v * 8.0
  {
    (draw % 8) as real / 8.0
  }

  /** The colour drawn on the k-th pass of the loop, from draws 3k, 3k+1 and 3k+2. */
  function Drawn(draws: seq<nat>, k: nat): Rgb
    requires 3 * k + 2 < |draws|
  {
    Rgb(Channel(draws[3 * k]), Channel(draws[3 * k + 1]), Channel(draws[3 * k + 2]))
  }

  /** The loop's exit test: the channels sum to at least one half. */
  predicate Bright(c: Rgb) { c.r + c.g + c.b >= 0.5 }

  /** The number of whole passes the draws allow. */
  function Passes(draws: seq<nat>): (p: nat)
    ensures 3 * p <= |draws| < 3 * p + 3
  {
    |draws| / 3
  }

  /** The first pass at or after `k` whose colour is bright, if any. */
  function FirstBright(draws: seq<nat>, k: nat): (r: Option<nat>)
    requires k <= Passes(draws)
    ensures r.Some? ==> k <= r.value < Passes(draws)
    decreases Passes(draws) - k
  {
    if k == Passes(draws) then None
    else if Bright(Drawn(draws, k)) then Some(k)
    else FirstBright(draws, k + 1)
  }

  /** FirstBright finds a bright pass, and no pass between `k` and it is bright. */
  lemma {:induction false} FirstBrightIsFirst(draws: seq<nat>, k: nat)
    requires k <= Passes(draws)
    ensures var r := FirstBright(draws, k);
      r.Some? ==> (Bright(Drawn(draws, r.value)) && forall j :: k <= j < r.value ==> !Bright(Drawn(draws, j)))
    ensures FirstBright(draws, k).None? ==> forall j :: k <= j < Passes(draws) ==> !Bright(Drawn(draws, j))
    decreases Passes(draws) - k
  {
    if k < Passes(draws) && !Bright(Drawn(draws, k)) {
      FirstBrightIsFirst(draws, k + 1);
    }
  }

  // ---------------------------------------------------------------------
  // The shared counters
  // ---------------------------------------------------------------------

  /** `object_index_auto_` and `highest_object_index_`, shared by all objects. */
  class IndexCounters {
    var objectIndexAuto: UInt
    var highestObjectIndex: UInt

    /** The highest index is never 0, so the normalised index is always defined. */
    ghost predicate Valid()
      reads this
    {
      highestObjectIndex >= 1
    }

    /** The initial values: automatic index 0, highest index 1. */
    constructor ()
      ensures Valid() && objectIndexAuto == 0 && highestObjectIndex == 1
    {
      objectIndexAuto := 0;
      highestObjectIndex := 1;
    }
  }

  /** Facts about a non-negative fraction with a positive denominator. */
  lemma Ratio(a: real, b: real)
    requires 0.0 <= a && 0.0 < b
    ensures 0.0 <= a / b && (a / b) * b == a
    ensures a <= b ==> a / b <= 1.0
    ensures a / b == 1.0 <==> a == b
  {
  }

  // ---------------------------------------------------------------------
  // Objects
  // ---------------------------------------------------------------------

  /** An object; `L` stands for the light an object may be tied to. */
  class ObjectGeometric<L> {
    var name: string
    var light: Option<L>
    var visibility: Visibility
    var isBaseObject: bool
    var objectIndex: UInt
    var objectIndexAutoColor: Rgb
    const counters: IndexCounters

    /**
     * The constructor: the automatic index advances by one (wrapping at
     * 2^32), and colours are drawn until one is bright; the object keeps the
     * first bright colour. The fields start at their declared defaults.
     */
    constructor (shared: IndexCounters, draws: seq<nat>)
      requires shared.Valid()
      requires FirstBright(draws, 0).Some?
      modifies shared
      ensures counters == shared && shared.Valid()
      ensures shared.objectIndexAuto == (old(shared.objectIndexAuto) + 1) % UIntLimit
      ensures shared.highestObjectIndex == old(shared.highestObjectIndex)
      ensures name == "" && light == None && visibility == NormalVisible
      ensures !isBaseObject && objectIndex == 0
      ensures objectIndexAutoColor == Drawn(draws, FirstBright(draws, 0).value)
      ensures Bright(objectIndexAutoColor)
    {
      shared.objectIndexAuto := (shared.objectIndexAuto + 1) % UIntLimit;
      FirstBrightIsFirst(draws, 0);
      var k := 0;
      var colour := Drawn(draws, 0);
      while !Bright(colour)
        invariant 0 <= k < Passes(draws) && k <= FirstBright(draws, 0).value
        invariant colour == Drawn(draws, k)
        decreases FirstBright(draws, 0).value - k
      {
        k := k + 1;
        colour := Drawn(draws, k);
      }
      name := "";
      light := None;
      visibility := NormalVisible;
      isBaseObject := false;
      objectIndex := 0;
      objectIndexAutoColor := colour;
      counters := shared;
    }

    function GetName(): string reads this { name }

    method SetName(n: string)
      modifies this`name
      ensures GetName() == n
    {
      name := n;
    }

    function GetVisibility(): Visibility reads this { visibility }

    method SetVisibility(v: Visibility)
      modifies this`visibility
      ensures GetVisibility() == v
    {
      visibility := v;
    }

    /** `isBaseObject`. */
    function IsBaseObject(): bool reads this { isBaseObject }

    /** `useAsBaseObject`. */
    method UseAsBaseObject(v: bool)
      modifies this`isBaseObject
      ensures IsBaseObject() == v
    {
      isBaseObject := v;
    }

    function GetLight(): Option<L> reads this { light }

    method SetLight(l: Option<L>)
      modifies this`light
      ensures GetLight() == l
    {
      light := l;
    }

    /** `resetObjectIndex` (also what the destructor does): both shared counters go back to their initial values. */
    method ResetObjectIndex()
      modifies counters
      ensures counters.Valid()
      ensures counters.objectIndexAuto == 0 && counters.highestObjectIndex == 1
    {
      counters.highestObjectIndex := 1;
      counters.objectIndexAuto := 0;
    }

    /** `setObjectIndex`: the index is stored and the highest index raised to it, never lowered. */
    method SetObjectIndex(i: UInt)
      requires counters.Valid()
      modifies this`objectIndex, counters`highestObjectIndex
      ensures counters.Valid()
      ensures objectIndex == i
      ensures counters.highestObjectIndex == if old(counters.highestObjectIndex) < i then i else old(counters.highestObjectIndex)
      ensures counters.highestObjectIndex >= old(counters.highestObjectIndex)
      ensures GetNormObjectIndex() <= 1.0
    {
      objectIndex := i;
      if counters.highestObjectIndex < objectIndex {
        counters.highestObjectIndex := objectIndex;
      }
    }

    function GetAbsObjectIndex(): UInt reads this { objectIndex }

    /**
     * `getNormObjectIndex`: the index over the highest index. It is at most
     * 1 while the index does not exceed the highest one, and 1 exactly for
     * the highest.
     */
    function GetNormObjectIndex(): (v: real)
      reads this, counters
      requires counters.Valid()
      ensures 0.0 <= v
      ensures objectIndex <= counters.highestObjectIndex ==> v <= 1.0
      ensures v == 1.0 <==> objectIndex == counters.highestObjectIndex
      ensures v * counters.highestObjectIndex as real == objectIndex as real
    {
      Ratio(objectIndex as real, counters.highestObjectIndex as real);
      objectIndex as real / counters.highestObjectIndex as real
    }

    /** `getAbsObjectIndexColor`: a grey whose channels equal the index. */
    function GetAbsObjectIndexColor(): (c: Rgb)
      reads this
      ensures c.r == c.g == c.b == objectIndex as real
    {
      Grey(objectIndex as real)
    }

    /** `getNormObjectIndexColor`: a grey whose channels equal the normalised index. */
    function GetNormObjectIndexColor(): (c: Rgb)
      reads this, counters
      requires counters.Valid()
      ensures c.r == c.g == c.b == GetNormObjectIndex()
    {
      Grey(GetNormObjectIndex())
    }

    function GetAutoObjectIndexColor(): Rgb reads this { objectIndexAutoColor }

    /** `getAutoObjectIndexNumber`: a grey whose channels equal the shared automatic index. */
    function GetAutoObjectIndexNumber(): (c: Rgb)
      reads counters
      ensures c.r == c.g == c.b == counters.objectIndexAuto as real
    {
      Grey(counters.objectIndexAuto as real)
    }
  }

  /**
   * The automatic colour of an object is made of eighths in [0, 7/8] and
   * its channels add up to at least one half.
   */
  lemma AutoColourRange(draws: seq<nat>)
    requires FirstBright(draws, 0).Some?
    ensures var c := Drawn(draws, FirstBright(draws, 0).value);
      Bright(c) && 0.0 <= c.r <= 7.0 / 8.0 && 0.0 <= c.g <= 7.0 / 8.0 && 0.0 <= c.b <= 7.0 / 8.0
  {
    FirstBrightIsFirst(draws, 0);
  }

  // ---------------------------------------------------------------------
  // Factory
  // ---------------------------------------------------------------------

  /** The only kind of object the factory builds. */
  datatype Kind = Sphere

  /** `factory`: a sphere for the type "sphere", no object for anything else. */
  function Factory(typeName: string): (r: Option<Kind>)
    ensures r.Some? <==> typeName == "sphere"
  {
    if typeName == "sphere" then Some(Sphere) else None
  }
}
