/** The viewport resolution value object (AppSize). Floats are modelled as reals. */
module Viewport {

  /** The smallest width and height the game screen is meant to have. */
  const MinWidth: int := 1024
  const MinHeight: int := 576

  /** Java's int arithmetic: the value reduced to the 32-bit two's-complement range. */
  function Wrap32(v: int): (r: int)
    ensures -0x8000_0000 <= r < 0x8000_0000
    ensures (r - v) % 0x1_0000_0000 == 0
  {
    var m := v % 0x1_0000_0000;
    if m < 0x8000_0000 then m else m - 0x1_0000_0000
  }

  class AppSize {
    var width: real
    var height: real

    /** The protected default constructor: the minimum resolution. */
    constructor Default()
      ensures width == MinWidth as real && height == MinHeight as real
    {
      width := MinWidth as real;
      height := MinHeight as real;
    }

    /** Stores both dimensions as given, without validation. */
    constructor (width: real, height: real)
      ensures this.width == width && this.height == height
    {
      this.width := width;
      this.height := height;
    }

    method Clone() returns (c: AppSize)
      ensures fresh(c) && c.width == width && c.height == height
      ensures c.Equals(this) && this.Equals(c)
    {
      c := new AppSize(width, height);
    }

    /**
     * The setter takes an int, so the not-a-number and infinity guard can
     * never reject it: the width always becomes the argument.
     */
    method SetWidth(w: int)
      modifies this`width
      ensures width == w as real && height == old(height)
    {
      width := w as real;
    }

    method SetHeight(h: int)
      modifies this`height
      ensures height == h as real && width == old(width)
    {
      height := h as real;
    }

    /**
     * equals: the same object, or a non-null AppSize with the same width and
     * height; the identity shortcut never changes the answer.
     */
    function Equals(other: AppSize?): (r: bool)
      reads this, other
      ensures r <==> other != null && width == other.width && height == other.height
    {
      this == other || (other != null && width == other.width && height == other.height)
    }

    /**
     * hashCode, with `bits` standing for Float.floatToIntBits: seed 3,
     * multiplier 59, each step in 32-bit int arithmetic.
     */
    function HashCode(bits: real -> int): (r: int)
      reads this
      ensures -0x8000_0000 <= r < 0x8000_0000
    {
      var hash := Wrap32(59 * 3 + bits(width));
      Wrap32(59 * hash + bits(height))
    }
  }

  /** equals is reflexive, symmetric and transitive. */
  lemma EqualsIsEquivalence(a: AppSize, b: AppSize, c: AppSize)
    ensures a.Equals(a)
    ensures a.Equals(b) ==> b.Equals(a)
    ensures a.Equals(b) && b.Equals(c) ==> a.Equals(c)
  {
  }

  /** Equal objects have equal hash codes, whatever the float encoding. */
  lemma EqualsAgreesWithHashCode(a: AppSize, b: AppSize, bits: real -> int)
    requires a.Equals(b)
    ensures a.HashCode(bits) == b.HashCode(bits)
  {
  }
}
