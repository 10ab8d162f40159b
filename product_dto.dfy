/**
 * `ProductDto`: the product form as it arrives (every field text, an absent
 * optional field or an absent stock None) and the class-validator constraints on it, then the
 * value the validation pipe hands to the service once `stock` has been
 * converted to a number.
 */
module ProductDto {
  import opened Wrappers
  import opened Text
  import opened ObjectIds

  datatype ProductForm = ProductForm(
    name: string,
    description: string,
    pharmacyId: string,
    image: Option<string>,
    stock: Option<string>,
    barcode: string,
    genericName: Option<string>,
    category: string,
    requiresPrescription: string,
    lastStockUpdate: Option<int>)

  /** The form after the pipe: `stock` is the number `Number(stock)` gave. */
  datatype ProductDto = ProductDto(
    name: string,
    description: string,
    pharmacyId: string,
    image: Option<string>,
    stock: int,
    barcode: string,
    genericName: Option<string>,
    category: string,
    requiresPrescription: string,
    lastStockUpdate: Option<int>)

  /** `@Matches(/^[0-9]{12}$/)`. */
  predicate BarcodeValid(barcode: string) {
    |barcode| == 12 && AllDigits(barcode)
  }

  /**
   * `@Type(() => Number)` then `@IsNumber()`: the field is present (a missing
   * one stays `undefined`, which is no number) and its text converts to a
   * number, not NaN; an empty field converts to 0.
   */
  predicate StockValid(stock: Option<string>) {
    stock.Some? && JsNumber(stock.value).Some?
  }

  /** Every constraint of the form. */
  predicate ProductFormValid(f: ProductForm) {
    && f.name != ""
    && f.description != ""
    && IsMongoId(f.pharmacyId)
    && StockValid(f.stock)
    && BarcodeValid(f.barcode)
    && IsMongoId(f.category)
    && f.requiresPrescription != ""
  }

  /** What the pipe hands over for a form that passes. */
  function ToProductDto(f: ProductForm): (d: ProductDto)
    requires ProductFormValid(f)
    ensures d.stock == JsNumber(f.stock.value).value
    ensures d.name == f.name && d.barcode == f.barcode && d.pharmacyId == f.pharmacyId && d.category == f.category
    ensures d.requiresPrescription == f.requiresPrescription
    ensures forall n: nat :: f.stock == Some(DecimalString(n)) ==> d.stock == n
    ensures f.stock == Some("") ==> d.stock == 0
  {
    StockRoundTripsAll();
    ProductDto(f.name, f.description, f.pharmacyId, f.image, JsNumber(f.stock.value).value, f.barcode,
               f.genericName, f.category, f.requiresPrescription, f.lastStockUpdate)
  }

  /** Every decimal writing of a number converts back to it. */
  lemma StockRoundTripsAll()
    ensures forall n: nat :: JsNumber(DecimalString(n)) == Some(n)
  {
    forall n: nat
      ensures JsNumber(DecimalString(n)) == Some(n)
    {
      DecimalRoundTrip(n);
    }
  }

  /** A barcode is exactly twelve decimal digits: one more or one less, or a non-digit at any place, fails. */
  lemma BarcodeShape(barcode: string, c: char, i: nat)
    ensures BarcodeValid(barcode) ==> |barcode| == 12 && forall k | 0 <= k < 12 :: '0' <= barcode[k] <= '9'
    ensures BarcodeValid(barcode) ==> !BarcodeValid(barcode + [c]) && !BarcodeValid(barcode[1..])
    ensures !IsDigit(c) && i < |barcode| ==> !BarcodeValid(barcode[i := c])
  {
    if !IsDigit(c) && i < |barcode| {
      assert barcode[i := c][i] == c;
    }
  }

  /** The ids a valid form carries always convert, so the service's conversions cannot fail on it. */
  lemma ValidFormIdsConvert(f: ProductForm)
    requires ProductFormValid(f)
    ensures ToObjectId(ToProductDto(f).pharmacyId).Ok? && ToObjectId(ToProductDto(f).category).Ok?
  {
  }

  /**
   * Stock given as decimal digits is that number; an empty stock field is 0
   * and passes the number check; a form without the field is refused.
   */
  lemma StockCoercion(n: nat, f: ProductForm)
    ensures StockValid(Some(DecimalString(n))) && JsNumber(DecimalString(n)) == Some(n)
    ensures StockValid(Some("")) && JsNumber("") == Some(0)
    ensures f.stock.None? ==> !StockValid(f.stock) && !ProductFormValid(f)
  {
    DecimalRoundTrip(n);
  }
}
