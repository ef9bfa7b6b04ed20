/**
 * The glass, mirror and null materials: the BSDF flags they report, the
 * decisions their `sample` and `getSpecular` take (which of reflection and
 * refraction happen, with what probability, reporting which flags) and the
 * glass factory's parameter defaults and visibility names.
 *
 * The geometry behind those decisions is not part of this model: whether
 * `refract` finds a refracted direction and the Fresnel factors Kr and Kt it
 * leads to are inputs (`Optics`), as are the colours shader nodes return and
 * the cosine factor of the mirror. The directions written to `wi` and `dir`,
 * the wireframe shading, the Cauchy dispersion coefficients and the volume
 * handler built for absorption are left out.
 */
module Materials {

  import opened Wrappers
  import opened Bsdf
  import opened Colours
  import opened Objects

  const White: Rgb := Rgb(1.0, 1.0, 1.0)
  const Black: Rgb := Rgb(0.0, 0.0, 0.0)

  /** `BSDF_SPECULAR | BSDF_REFLECT`: a mirror reflection. */
  const SpecularReflect: Flags := {Specular, Reflect}

  /** The fields of a sample record that the materials read or write. */
  datatype Sample = Sample(
    flags: Flags, s1: real, reverse: bool,
    pdf: real, sampledFlags: Flags, pdfBack: real, colBack: Rgb)

  /** What the geometry of the shading point decides: does `refract` succeed, and the Fresnel factors. */
  datatype Optics = Optics(refracts: bool, kr: real, kt: real)
  {
    predicate Physical() { 0.0 <= kr <= 1.0 && 0.0 <= kt <= 1.0 }

    /** The probabilities of choosing reflection and refraction, kept away from 0. */
    function PKr(): real { 0.01 + 0.99 * kr }
    function PKt(): real { 0.01 + 0.99 * kt }
  }

  // ---------------------------------------------------------------------
  // Visibility names
  // ---------------------------------------------------------------------

  /** The factory's visibility names; any other name means normal visibility. */
  function VisibilityFromString(s: string): (v: Visibility)
    ensures v == VisibleNoShadows <==> s == "no_shadows"
    ensures v == InvisibleShadowsOnly <==> s == "shadow_only"
    ensures v == Invisible <==> s == "invisible"
  {
    if s == "normal" then NormalVisible
    else if s == "no_shadows" then VisibleNoShadows
    else if s == "shadow_only" then InvisibleShadowsOnly
    else if s == "invisible" then Invisible
    else NormalVisible
  }

  function VisibilityName(v: Visibility): string {
    match v
    case NormalVisible => "normal"
    case VisibleNoShadows => "no_shadows"
    case InvisibleShadowsOnly => "shadow_only"
    case Invisible => "invisible"
  }

  /** Every visibility is read back from its name, and unknown names read as normal. */
  lemma VisibilityRoundTrip(v: Visibility, s: string)
    ensures VisibilityFromString(VisibilityName(v)) == v
    ensures s != "normal" && s != "no_shadows" && s != "shadow_only" && s != "invisible" ==>
      VisibilityFromString(s) == NormalVisible
  {
  }

  // ---------------------------------------------------------------------
  // Glass
  // ---------------------------------------------------------------------

  /** The kinds of outcome of the glass `sample`. */
  datatype Outcome =
    | Declined                                 // pdf 0, black
    | Refracted(pdf: real, flags: Flags)       // the filter colour
    | Reflected(pdf: real)                     // the mirror colour, reported as a specular reflection
    | InnerReflection                          // total internal reflection: white, pdf left at 1

  /**
   * The decision table of the glass `sample`, for the requested flags `req`,
   * the material's flags and transmission flags, whether it is dispersive,
   * whether the render state is chromatic, the optics and the sample `s1`.
   */
  function GlassOutcome(req: Flags, bsdfFlags: Flags, tmFlags: Flags, disperse: bool,
                        chromatic: bool, o: Optics, s1: real): Outcome
  {
    if !(Specular in req) && !(Dispersive in req * bsdfFlags && chromatic) then Declined
    else if disperse && chromatic then
      if o.refracts then
        if !(Specular in req) || s1 < o.PKt() then
          Refracted(if Matches(req, SpecularReflect) then o.PKt() else 1.0, {Dispersive, Transmit})
        else if Matches(req, SpecularReflect) then Reflected(o.PKr())
        else Declined
      else if Matches(req, SpecularReflect) then InnerReflection
      else Declined
    else
      if o.refracts then
        if s1 < o.PKt() && Matches(req, tmFlags) then Refracted(o.PKt(), tmFlags)
        else if Matches(req, SpecularReflect) then Reflected(o.PKr())
        else Declined
      else if Matches(req, SpecularReflect) then InnerReflection
      else Declined
  }

  /** The pdf a sample ends with for each outcome. */
  function OutcomePdf(out: Outcome): real {
    match out
    case Declined => 0.0
    case Refracted(pdf, _) => pdf
    case Reflected(pdf) => pdf
    case InnerReflection => 1.0
  }

  /** The flags a sample reports for each successful outcome. */
  function OutcomeFlags(out: Outcome): Flags
    requires !out.Declined?
  {
    match out
    case Refracted(_, flags) => flags
    case Reflected(_) => SpecularReflect
    case InnerReflection => SpecularReflect
  }

  /**
   * Without a specular request, and unless a dispersive material meets a
   * chromatic state, the glass declines to sample.
   */
  lemma GlassDeclinesWithoutSpecular(req: Flags, bsdfFlags: Flags, tmFlags: Flags, disperse: bool,
                                     chromatic: bool, o: Optics, s1: real)
    requires !(Specular in req)
    requires !(Dispersive in bsdfFlags && Dispersive in req && chromatic)
    ensures GlassOutcome(req, bsdfFlags, tmFlags, disperse, chromatic, o, s1) == Declined
  {
  }

  /**
   * A sample the glass takes has a probability in (0, 1], and the flags it
   * reports are among the material's own.
   */
  lemma GlassOutcomeSound(req: Flags, bsdfFlags: Flags, tmFlags: Flags, disperse: bool,
                          chromatic: bool, o: Optics, s1: real)
    requires o.Physical()
    requires AllSpecular <= bsdfFlags && tmFlags <= bsdfFlags && (disperse ==> Dispersive in bsdfFlags)
    ensures var out := GlassOutcome(req, bsdfFlags, tmFlags, disperse, chromatic, o, s1);
      (out.Declined? <==> OutcomePdf(out) == 0.0) &&
      (!out.Declined? ==> 0.0 < OutcomePdf(out) <= 1.0 && OutcomeFlags(out) <= bsdfFlags)
  {
  }

  /** The glass material. */
  class GlassMat {
    const ior: real
    const filterCol: Rgb
    const specRefCol: Rgb
    const dispersionPower: real
    const fakeShadow: bool
    const visibility: Visibility
    const disperse: bool
    const tmFlags: Flags
    var bsdfFlags: Flags
    var absorb: bool

    /**
     * The flags agree with the settings: all specular kinds, filtering
     * exactly with fake shadows, dispersion exactly when dispersive, and
     * transmission flags among the material's flags.
     */
    ghost predicate Valid()
      reads this
    {
      AllSpecular <= bsdfFlags && (Filter in bsdfFlags <==> fakeShadow) &&
      (Dispersive in bsdfFlags <==> disperse) && tmFlags <= bsdfFlags
    }

    /**
     * The constructor: all specular flags, plus filtering with fake shadows,
     * plus dispersion for a positive dispersion power; transmission is
     * filtered with fake shadows and specular otherwise.
     */
    constructor (iorValue: real, filterColour: Rgb, mirrorColour: Rgb, dispersion: real,
                 fakeShadows: bool, vis: Visibility)
      ensures Valid()
      ensures bsdfFlags == AllSpecular + (if fakeShadows then {Filter} else {})
                           + (if dispersion > 0.0 then {Dispersive} else {})
      ensures tmFlags == if fakeShadows then {Filter, Transmit} else {Specular, Transmit}
      ensures disperse == (dispersion > 0.0) && !absorb
      ensures ior == iorValue && filterCol == filterColour && specRefCol == mirrorColour
      ensures dispersionPower == dispersion && fakeShadow == fakeShadows && visibility == vis
    {
      ior := iorValue;
      filterCol := filterColour;
      specRefCol := mirrorColour;
      dispersionPower := dispersion;
      fakeShadow := fakeShadows;
      visibility := vis;
      tmFlags := if fakeShadows then {Filter, Transmit} else {Specular, Transmit};
      disperse := dispersion > 0.0;
      absorb := false;
      new;
      bsdfFlags := AllSpecular;
      if fakeShadows {
        bsdfFlags := bsdfFlags + {Filter};
      }
      if dispersion > 0.0 {
        bsdfFlags := bsdfFlags + {Dispersive};
      }
    }

    /** `isTransparent`: glass lets shadow rays through exactly with fake shadows. */
    predicate IsTransparent() { fakeShadow }

    /** The mirror colour: the shader node's colour if there is one, otherwise the material's. */
    function MirrorColour(node: Option<Rgb>): Rgb { if node.Some? then node.value else specRefCol }

    /** The filter colour: the shader node's colour if there is one, otherwise the material's. */
    function FilterColour(node: Option<Rgb>): Rgb { if node.Some? then node.value else filterCol }

    /**
     * `sample`: the record, the weight W and the colour after one sample.
     * It follows the decision table: a declined sample has pdf 0 and is
     * black; a refraction reports its flags and the filter colour; a
     * reflection reports a specular reflection and the mirror colour; total
     * internal reflection keeps pdf 1 and is white. W becomes 1 whenever a
     * sample is taken, and reverse samples outside the dispersive path also
     * set the backward pdf and colour.
     */
    method Sample(s: Sample, o: Optics, chromatic: bool, mirrorNode: Option<Rgb>, filterNode: Option<Rgb>, w: real)
      returns (s': Sample, w': real, colour: Rgb)
      ensures var out := GlassOutcome(s.flags, bsdfFlags, tmFlags, disperse, chromatic, o, s.s1);
        var back := s.reverse && !(disperse && chromatic) && !out.Declined?;
        s'.pdf == OutcomePdf(out) &&
        (out.Declined? ==> colour == Black && w' == w && s' == s.(pdf := 0.0)) &&
        (!out.Declined? ==> w' == 1.0 && s'.sampledFlags == OutcomeFlags(out)) &&
        (out.Refracted? ==> colour == FilterColour(filterNode)) &&
        (out.Reflected? ==> colour == MirrorColour(mirrorNode)) &&
        (out.InnerReflection? ==> colour == White) &&
        (back ==> s'.pdfBack == s'.pdf && s'.colBack == colour) &&
        (!back ==> s'.pdfBack == s.pdfBack && s'.colBack == s.colBack) &&
        s'.flags == s.flags && s'.s1 == s.s1 && s'.reverse == s.reverse
    {
      s', w' := s, w;
      if !(Specular in s.flags) && !(Dispersive in s.flags * bsdfFlags && chromatic) {
        s' := s'.(pdf := 0.0);
        return s', w', Black;
      }
      s' := s'.(pdf := 1.0);
      if disperse && chromatic {
        if o.refracts {
          var pKr, pKt := o.PKr(), o.PKt();
          if !(Specular in s.flags) || s.s1 < pKt {
            s' := s'.(pdf := if Matches(s.flags, SpecularReflect) then pKt else 1.0,
                      sampledFlags := {Dispersive, Transmit});
            return s', 1.0, FilterColour(filterNode);
          } else if Matches(s.flags, SpecularReflect) {
            s' := s'.(pdf := pKr, sampledFlags := SpecularReflect);
            return s', 1.0, MirrorColour(mirrorNode);
          }
        } else if Matches(s.flags, SpecularReflect) {
          s' := s'.(sampledFlags := SpecularReflect);
          return s', 1.0, White;
        }
      } else {
        if o.refracts {
          var pKr, pKt := o.PKr(), o.PKt();
          if s.s1 < pKt && Matches(s.flags, tmFlags) {
            s' := s'.(pdf := pKt, sampledFlags := tmFlags);
            colour := FilterColour(filterNode);
            if s.reverse {
              s' := s'.(pdfBack := s'.pdf, colBack := colour);
            }
            return s', 1.0, colour;
          } else if Matches(s.flags, SpecularReflect) {
            s' := s'.(pdf := pKr, sampledFlags := SpecularReflect);
            colour := MirrorColour(mirrorNode);
            if s.reverse {
              s' := s'.(pdfBack := s'.pdf, colBack := colour);
            }
            return s', 1.0, colour;
          }
        } else if Matches(s.flags, SpecularReflect) {
          s' := s'.(sampledFlags := SpecularReflect);
          if s.reverse {
            s' := s'.(pdfBack := s'.pdf, colBack := White);
          }
          return s', 1.0, White;
        }
      }
      s' := s'.(pdf := 0.0);
      return s', w, Black;
    }

    /**
     * `getSpecular`: the perfect reflection goes to `col[0]` and the
     * refraction to `col[1]`. When refraction is impossible (total internal
     * reflection) only the unscaled mirror colour is reflected. Otherwise
     * refraction is specular unless a dispersive material meets a chromatic
     * state, and reflection is followed from outside or below ray level 3.
     * Nothing at all is followed only deep inside a dispersive glass under a
     * chromatic state.
     */
    method GetSpecular(o: Optics, outside: bool, chromatic: bool, rayLevel: int,
                       mirrorNode: Option<Rgb>, filterNode: Option<Rgb>, col: array<Rgb>)
      returns (refl: bool, refr: bool)
      requires col.Length == 2
      modifies col
      ensures !o.refracts ==> refl && !refr && col[0] == MirrorColour(mirrorNode) && col[1] == old(col[1])
      ensures o.refracts ==> refr == !(chromatic && disperse) && refl == (outside || rayLevel < 3)
      ensures o.refracts && refr ==> col[1] == FilterColour(filterNode).Scale(o.kt)
      ensures o.refracts && !refr ==> col[1] == old(col[1])
      ensures o.refracts && refl ==> col[0] == MirrorColour(mirrorNode).Scale(o.kr)
      ensures o.refracts && !refl ==> col[0] == old(col[0])
      ensures (!refl && !refr) <==> (o.refracts && !outside && rayLevel >= 3 && chromatic && disperse)
    {
      if o.refracts {
        if !chromatic || !disperse {
          col[1] := FilterColour(filterNode).Scale(o.kt);
          refr := true;
        } else {
          refr := false;
        }
        if outside || rayLevel < 3 {
          col[0] := MirrorColour(mirrorNode).Scale(o.kr);
          refl := true;
        } else {
          refl := false;
        }
      } else {
        col[0] := MirrorColour(mirrorNode);
        refl := true;
        refr := false;
      }
    }

    /** `getMatIOR`. */
    function GetMatIOR(): real { ior }
  }

  /** The factory's filter colour: `filt * filterColour + (1 - filt)`. */
  function GlassFilterColour(filt: real, filterColour: Rgb): (c: Rgb)
    ensures filt == 0.0 ==> c == White
    ensures filt == 1.0 ==> c == filterColour
  {
    filterColour.Scale(filt).Plus(Rgb(1.0 - filt, 1.0 - filt, 1.0 - filt))
  }

  /** The glass parameters the factory reads; a missing one keeps its default. */
  datatype GlassParams = GlassParams(
    ior: Option<real>, filterColour: Option<Rgb>, transmitFilter: Option<real>,
    mirrorColour: Option<Rgb>, dispersionPower: Option<real>, fakeShadows: Option<bool>,
    visibility: Option<string>, absorption: Option<Rgb>)

  function Or<T>(v: Option<T>, default: T): T { if v.Some? then v.value else default }

  /**
   * The glass factory: IOR 1.4, white filter and mirror colours, no
   * transmit filter, no dispersion, no fake shadows and normal visibility
   * unless given. An absorption colour with a channel below 1 makes the
   * glass absorbing and volumetric.
   */
  method GlassFactory(p: GlassParams) returns (m: GlassMat)
    ensures fresh(m) && m.Valid()
    ensures m.ior == Or(p.ior, 1.4)
    ensures m.filterCol == GlassFilterColour(Or(p.transmitFilter, 0.0), Or(p.filterColour, White))
    ensures m.specRefCol == Or(p.mirrorColour, White)
    ensures m.dispersionPower == Or(p.dispersionPower, 0.0) && m.disperse == (m.dispersionPower > 0.0)
    ensures m.fakeShadow == Or(p.fakeShadows, false)
    ensures m.visibility == VisibilityFromString(Or(p.visibility, "normal"))
    ensures m.absorb <==> p.absorption.Some? && var a := p.absorption.value; (a.r < 1.0 || a.g < 1.0 || a.b < 1.0)
    ensures m.bsdfFlags == AllSpecular + (if m.fakeShadow then {Filter} else {})
                           + (if m.disperse then {Dispersive} else {})
                           + (if m.absorb then {Volumetric} else {})
  {
    var filt := Or(p.transmitFilter, 0.0);
    m := new GlassMat(Or(p.ior, 1.4), GlassFilterColour(filt, Or(p.filterColour, White)), Or(p.mirrorColour, White),
                      Or(p.dispersionPower, 0.0), Or(p.fakeShadows, false),
                      VisibilityFromString(Or(p.visibility, "normal")));
    if p.absorption.Some? {
      var a := p.absorption.value;
      if a.r < 1.0 || a.g < 1.0 || a.b < 1.0 {
        m.absorb := true;
        m.bsdfFlags := m.bsdfFlags + {Volumetric};
      }
    }
  }

  // ---------------------------------------------------------------------
  // Mirror
  // ---------------------------------------------------------------------

  /** The mirror material. */
  class MirrorMat {
    const refCol: Rgb
    const ref: real
    const bsdfFlags: Flags

    /**
     * The constructor clamps the reflectivity to at most 1, but the
     * reflected colour is scaled by the reflectivity as given.
     */
    constructor (rCol: Rgb, refVal: real)
      ensures ref == if refVal > 1.0 then 1.0 else refVal
      ensures refCol == rCol.Scale(refVal)
      ensures bsdfFlags == {Specular}
    {
      ref := if refVal > 1.0 then 1.0 else refVal;
      refCol := rCol.Scale(refVal);
      bsdfFlags := {Specular};
    }

    /** `sample`: always a specular reflection of weight 1; the pdf is left as it was. */
    method Sample(s: Sample, inverseCosine: real) returns (s': Sample, w: real, colour: Rgb)
      ensures s' == s.(sampledFlags := SpecularReflect) && w == 1.0
      ensures colour == refCol.Scale(inverseCosine)
    {
      s' := s.(sampledFlags := SpecularReflect);
      w := 1.0;
      colour := refCol.Scale(inverseCosine);
    }

    /** `getSpecular`: reflection only, of the mirror colour; the refraction slot is white. */
    method GetSpecular(col: array<Rgb>) returns (refl: bool, refr: bool)
      requires col.Length == 2
      modifies col
      ensures refl && !refr && col[0] == refCol && col[1] == White
    {
      col[0] := refCol;
      col[1] := White;
      refl := true;
      refr := false;
    }
  }

  /** The mirror factory: white and fully reflective unless given. */
  method MirrorFactory(colour: Option<Rgb>, reflect: Option<real>) returns (m: MirrorMat)
    ensures fresh(m) && m.refCol == Or(colour, White).Scale(Or(reflect, 1.0))
    ensures m.ref <= 1.0 && m.bsdfFlags == {Specular}
  {
    m := new MirrorMat(Or(colour, White), Or(reflect, 1.0));
  }

  // ---------------------------------------------------------------------
  // Null material
  // ---------------------------------------------------------------------

  /** The null material: it reports no flags and never samples. */
  class NullMat {
    constructor () {}

    /** `initBSDF`: no flags (`BSDF_NONE`). */
    function BsdfFlags(): (f: Flags)
      ensures f == {}
    {
      {}
    }

    /** `sample`: pdf 0, weight 0, black. */
    method Sample(s: Sample, w: real) returns (s': Sample, w': real, colour: Rgb)
      ensures s' == s.(pdf := 0.0) && w' == 0.0 && colour == Black
    {
      s' := s.(pdf := 0.0);
      w' := 0.0;
      colour := Black;
    }
  }
}
