/**
 * The scattering kinds a material reports and a sample asks for (the BSDF
 * flag bits), as sets of flags: a bitwise or is a union, a bitwise and an
 * intersection, and `matches(bits, flags)` an inclusion.
 */
module Bsdf {

  datatype Flag = Specular | Glossy | Diffuse | Dispersive | Reflect | Transmit | Filter | Emit | Volumetric

  type Flags = set<Flag>

  /** `BSDF_ALL_SPECULAR`. */
  const AllSpecular: Flags := {Specular, Reflect, Transmit}

  /** `matches(bits, flags)`: every flag of `flags` is among `bits`. */
  predicate Matches(bits: Flags, flags: Flags) { flags <= bits }
}
