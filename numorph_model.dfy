/** `NumorphShapeAppearanceModel`: the numorphic corner description, a corner family
    and one corner size, built by a `Builder` whose setters write its fields in place. */
module NumorphModel {
  import opened Graphics

  /** The built model. Its two fields are private in the source and read through the
      getters; once built it never changes. */
  datatype NumorphShapeAppearanceModel = NumorphShapeAppearanceModel(cornerFamily: int, cornerSize: real) {
    function GetCornerFamily(): int {
      cornerFamily
    }

    function GetCornerSize(): real {
      cornerSize
    }
  }

  /** The public no-argument constructor: ROUNDED corners of size zero. */
  function DefaultModel(): (m: NumorphShapeAppearanceModel)
    ensures m.GetCornerFamily() == ROUNDED && m.GetCornerSize() == 0.0
  {
    NumorphShapeAppearanceModel(ROUNDED, 0.0)
  }

  class Builder {
    var cornerFamily: int
    var cornerSize: real

    /** A new builder holds the defaults, ROUNDED and zero. */
    constructor ()
      ensures cornerFamily == ROUNDED && cornerSize == 0.0
    {
      cornerFamily := ROUNDED;
      cornerSize := 0.0;
    }

    /** `setAllCorners(cornerFamily, cornerSize)`: the family, then the size, on this builder. */
    method SetAllCorners(cornerFamily: int, cornerSize: real) returns (r: Builder)
      modifies this
      ensures r == this
      ensures this.cornerFamily == cornerFamily && this.cornerSize == cornerSize
    {
      var b := SetAllCornerFamily(cornerFamily);
      r := b.SetAllCornerSizes(cornerSize);
    }

    /** `setAllCorners(cornerFamily)`: only the family changes. */
    method SetAllCornerFamily(cornerFamily: int) returns (r: Builder)
      modifies this`cornerFamily
      ensures r == this && this.cornerFamily == cornerFamily
    {
      this.cornerFamily := cornerFamily;
      r := this;
    }

    /** `setAllCornerSizes(cornerSize)`: only the size changes. */
    method SetAllCornerSizes(cornerSize: real) returns (r: Builder)
      modifies this`cornerSize
      ensures r == this && this.cornerSize == cornerSize
    {
      this.cornerSize := cornerSize;
      r := this;
    }

    /** `build()`: a model whose getters read back exactly the builder's fields. */
    function Build(): (m: NumorphShapeAppearanceModel)
      reads this
      ensures m.GetCornerFamily() == cornerFamily && m.GetCornerSize() == cornerSize
    {
      NumorphShapeAppearanceModel(cornerFamily, cornerSize)
    }
  }

  /** `NumorphShapeAppearanceModel.builder()`: a new builder with the defaults. */
  method NewBuilder() returns (b: Builder)
    ensures fresh(b) && b.cornerFamily == ROUNDED && b.cornerSize == 0.0
  {
    b := new Builder();
  }

  /** Two builders build equal models exactly when they hold the same fields, and a
      builder left at its defaults builds a model equal to what the no-argument
      constructor gives. Equality here is of the models' values: the class declares no
      `equals`, so Kotlin's `==` on two built models compares references and is false
      for any two `build()` calls. */
  lemma BuildFaithful(b1: Builder, b2: Builder)
    ensures b1.Build() == b2.Build() <==> b1.cornerFamily == b2.cornerFamily && b1.cornerSize == b2.cornerSize
    ensures b1.Build() == DefaultModel() <==> b1.cornerFamily == ROUNDED && b1.cornerSize == 0.0
  {
  }

  /** A model's value is fully determined by what its two getters return (value
      equality, not the reference identity Kotlin's `==` tests on this class). */
  lemma ModelByGetters(m1: NumorphShapeAppearanceModel, m2: NumorphShapeAppearanceModel)
    ensures m1 == m2 <==> m1.GetCornerFamily() == m2.GetCornerFamily() && m1.GetCornerSize() == m2.GetCornerSize()
  {
  }
}
