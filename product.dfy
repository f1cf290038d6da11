/**
 * The two choice tables of `Product`: `product_category` behind the
 * `category` field and `sizes` behind the optional `size` field. Each table is
 * kept exactly as declared and paired with a tagged enumeration and its
 * code/label mapping.
 */
module Product {
  import opened Wrappers
  import opened ChoiceTable

  /** `product_category`, in declaration order. */
  const ProductCategory: Choices := [
    ("1", "Motociklai"),
    ("2", "Atsarginės dalys"),
    ("3", "Apranga"),
    ("4", "Aksesuarai")
  ]

  /** `category`: one character wide, neither `null` nor `blank`, no default. */
  const CategoryField: CharField := CharField(1, ProductCategory, None, false, false)

  datatype Category = Motorcycles | Parts | Apparel | Accessories

  function CategoryCode(c: Category): string
  {
    match c
    case Motorcycles => "1"
    case Parts => "2"
    case Apparel => "3"
    case Accessories => "4"
  }

  function CategoryLabel(c: Category): string
  {
    match c
    case Motorcycles => "Motociklai"
    case Parts => "Atsarginės dalys"
    case Apparel => "Apranga"
    case Accessories => "Aksesuarai"
  }

  /** The category a stored code denotes, or `None` for a code outside the table. */
  function ParseCategory(code: string): Option<Category>
  {
    if code == "1" then Some(Motorcycles)
    else if code == "2" then Some(Parts)
    else if code == "3" then Some(Apparel)
    else if code == "4" then Some(Accessories)
    else None
  }

  /** Decoding a category's code gives the category back, and its table label is its label. */
  lemma CategoryRoundTrip(c: Category)
    ensures ParseCategory(CategoryCode(c)) == Some(c)
    ensures Label(ProductCategory, CategoryCode(c)) == Some(CategoryLabel(c))
  {
    CategoryFieldWellDeclared();
  }

  /** A code decodes exactly when the table lists it, and then it is that category's code. */
  lemma ParseCategoryAgrees(code: string)
    ensures ParseCategory(code).Some? <==> HasCode(ProductCategory, code)
    ensures ParseCategory(code).Some? ==> CategoryCode(ParseCategory(code).value) == code
  {
    if HasCode(ProductCategory, code) {
      var i :| 0 <= i < |ProductCategory| && ProductCategory[i].0 == code;
    }
    if ParseCategory(code).Some? {
      assert ProductCategory[CategoryIndex(ParseCategory(code).value)].0 == code;
    }
  }

  /** Position of a category in `product_category`. */
  function CategoryIndex(c: Category): (i: nat)
    ensures i < |ProductCategory| && ProductCategory[i] == (CategoryCode(c), CategoryLabel(c))
  {
    match c
    case Motorcycles => 0
    case Parts => 1
    case Apparel => 2
    case Accessories => 3
  }

  /**
   * `product_category` has four distinct codes of exactly one character, so
   * each fits `max_length=1`; the required field admits no empty value.
   */
  lemma CategoryFieldWellDeclared()
    ensures WellDeclared(CategoryField)
    ensures |ProductCategory| == 4
    ensures forall i :: 0 <= i < |ProductCategory| ==> |ProductCategory[i].0| == 1
    ensures !Admits(CategoryField, None) && !Admits(CategoryField, Some(""))
  {
  }

  /** `sizes`, in declaration order. */
  const Sizes: Choices := [
    ("1", "S"),
    ("2", "M"),
    ("3", "L"),
    ("4", "XL"),
    ("5", "XXL")
  ]

  /** `size`: one character wide, `null=True`, `blank=True`, no default. */
  const SizeField: CharField := CharField(1, Sizes, None, true, true)

  datatype Size = S | M | L | XL | XXL

  function SizeCode(s: Size): string
  {
    match s
    case S => "1"
    case M => "2"
    case L => "3"
    case XL => "4"
    case XXL => "5"
  }

  function SizeLabel(s: Size): string
  {
    match s
    case S => "S"
    case M => "M"
    case L => "L"
    case XL => "XL"
    case XXL => "XXL"
  }

  /** The size a stored code denotes, or `None` for a code outside the table. */
  function ParseSize(code: string): Option<Size>
  {
    if code == "1" then Some(S)
    else if code == "2" then Some(M)
    else if code == "3" then Some(L)
    else if code == "4" then Some(XL)
    else if code == "5" then Some(XXL)
    else None
  }

  /** Position of a size in `sizes`. */
  function SizeIndex(s: Size): (i: nat)
    ensures i < |Sizes| && Sizes[i] == (SizeCode(s), SizeLabel(s))
  {
    match s
    case S => 0
    case M => 1
    case L => 2
    case XL => 3
    case XXL => 4
  }

  /** Decoding a size's code gives the size back, and its table label is its label. */
  lemma SizeRoundTrip(s: Size)
    ensures ParseSize(SizeCode(s)) == Some(s)
    ensures Label(Sizes, SizeCode(s)) == Some(SizeLabel(s))
  {
    SizeFieldWellDeclared();
  }

  /** A code decodes exactly when the table lists it, and then it is that size's code. */
  lemma ParseSizeAgrees(code: string)
    ensures ParseSize(code).Some? <==> HasCode(Sizes, code)
    ensures ParseSize(code).Some? ==> SizeCode(ParseSize(code).value) == code
  {
    if HasCode(Sizes, code) {
      var i :| 0 <= i < |Sizes| && Sizes[i].0 == code;
    }
    if ParseSize(code).Some? {
      assert Sizes[SizeIndex(ParseSize(code).value)].0 == code;
    }
  }

  /**
   * `sizes` has five distinct codes of exactly one character, so each fits
   * `max_length=1`; the field may be left empty, as `None` or as `''`.
   */
  lemma SizeFieldWellDeclared()
    ensures WellDeclared(SizeField)
    ensures |Sizes| == 5
    ensures forall i :: 0 <= i < |Sizes| ==> |Sizes[i].0| == 1
    ensures Admits(SizeField, None) && Admits(SizeField, Some(""))
  {
  }
}
