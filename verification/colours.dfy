/** Colours with real channels, as far as the modelled code computes with them. */
module Colours {

  datatype Rgb = Rgb(r: real, g: real, b: real)
  {
    /** `k * c`: every channel scaled by k. */
    function Scale(k: real): (c: Rgb)
      ensures c.r == k * r && c.g == k * g && c.b == k * b
    {
      Rgb(k * r, k * g, k * b)
    }

    /** `c + d`: channel by channel. */
    function Plus(d: Rgb): (c: Rgb)
      ensures c.r == r + d.r && c.g == g + d.g && c.b == b + d.b
    {
      Rgb(r + d.r, g + d.g, b + d.b)
    }
  }

  /** `Rgb{v}`: every channel equal to v. */
  function Grey(v: real): (c: Rgb)
    ensures c.r == v && c.g == v && c.b == v
  {
    Rgb(v, v, v)
  }
}
