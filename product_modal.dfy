/**
 * The product form of `src/components/modals/ProductModal.tsx`: defaults
 * from the product being edited, SKU entry, and validation.
 */
module ProductModal {
  import opened Wrappers
  import opened Strings
  import opened Decimal
  import opened ProductsPage

  const Categories: seq<string> := ["Widgets", "Gadgets", "Components", "Parts", "Items"]

  datatype ProductForm = ProductForm(
    name: string, sku: string, category: string, price: string, stock: string, minStock: string)

  /** The displayed price as an editable number: the first '₹' and the first ',' removed. */
  function PriceInput(price: string): (r: string)
    ensures '\U{20B9}' !in price && ',' !in price ==> r == price
    ensures |r| == |price| - (if '\U{20B9}' in price then 1 else 0) - (if ',' in price then 1 else 0)
    ensures multiset(r) <= multiset(price)
    ensures r == RemoveFirst(RemoveFirst(price, '\U{20B9}'), ',')
  {
    var once := RemoveFirst(price, '\U{20B9}');
    assert ',' in once <==> ',' in price by {
      assert multiset(once) <= multiset(price);
      if ',' in price && '\U{20B9}' in price {
        assert multiset(once)[','] == multiset(price)[','];
      }
    }
    RemoveFirst(once, ',')
  }

  /**
   * The form's first state. Without a product: empty text, the first
   * category and a minimum stock of 20. With one: its fields, the price
   * stripped, the numbers as decimal text (0 gives "0"); an empty name, SKU
   * or price stays empty and an empty category becomes the first one.
   */
  function InitialForm(product: Option<Product>): (f: ProductForm)
    ensures product.None? ==> f == ProductForm("", "", "Widgets", "", "", "20")
    ensures product.Some? ==>
              f.name == product.value.name && f.sku == product.value.sku
              && f.price == PriceInput(product.value.price)
              && f.stock == IntString(product.value.stock) && f.minStock == IntString(product.value.minStock)
              && f.category == if product.value.category == "" then "Widgets" else product.value.category
  {
    match product
    case None => ProductForm("", "", Categories[0], "", "", "20")
    case Some(p) =>
      ProductForm(p.name, p.sku, if p.category != "" then p.category else Categories[0],
                  PriceInput(p.price), IntString(p.stock), IntString(p.minStock))
  }

  /** The SKU box upper-cases what is typed. */
  function SkuInput(typed: string): (r: string)
    ensures |r| == |typed| && forall i :: 0 <= i < |r| ==> !IsLower(r[i]) && r[i] == UpperChar(typed[i])
  {
    Upper(typed)
  }

  /** The keys of the form's error record. */
  datatype Field = Name | Sku | Price | Stock | MinStock

  const NameRequired := "Product name is required"
  const NameTooLong := "Name must be less than 100 characters"
  const SkuRequired := "SKU is required"
  const PriceInvalid := "Valid price is required"
  const StockInvalid := "Valid stock quantity is required"
  const MinStockInvalid := "Valid minimum stock is required"

  /** A numeric field passes when it is non-empty and `Number` does not give NaN for it. */
  predicate NumericField(s: string, isNumber: string -> bool)
  {
    s != "" && isNumber(s)
  }

  /** Every field of `form` passes `validate()`. */
  predicate FormPasses(form: ProductForm, isNumber: string -> bool)
  {
    !IsBlank(form.name) && |form.name| <= 100 && !IsBlank(form.sku)
    && NumericField(form.price, isNumber) && NumericField(form.stock, isNumber)
    && NumericField(form.minStock, isNumber)
  }

  /**
   * `errors` is the record `validate()` builds for `form`: a name longer
   * than 100 characters gets the length message, which replaces the
   * "required" one; the SKU must not be blank; each number field must be
   * non-empty and numeric; no other key is present.
   */
  predicate IsErrorRecord(form: ProductForm, isNumber: string -> bool, errors: map<Field, string>)
  {
    && errors.Keys <= {Name, Sku, Price, Stock, MinStock}
    && (Name in errors <==> IsBlank(form.name) || |form.name| > 100)
    && (Name in errors ==> errors[Name] == if |form.name| > 100 then NameTooLong else NameRequired)
    && (Sku in errors <==> IsBlank(form.sku))
    && (Sku in errors ==> errors[Sku] == SkuRequired)
    && (Price in errors <==> !NumericField(form.price, isNumber))
    && (Price in errors ==> errors[Price] == PriceInvalid)
    && (Stock in errors <==> !NumericField(form.stock, isNumber))
    && (Stock in errors ==> errors[Stock] == StockInvalid)
    && (MinStock in errors <==> !NumericField(form.minStock, isNumber))
    && (MinStock in errors ==> errors[MinStock] == MinStockInvalid)
  }

  /** `validate()`'s error map; it is empty exactly when every field passes. */
  method CollectErrors(form: ProductForm, isNumber: string -> bool) returns (errors: map<Field, string>)
    ensures IsErrorRecord(form, isNumber, errors)
    ensures errors == map[] <==> FormPasses(form, isNumber)
  {
    errors := map[];
    if IsBlank(form.name) {
      errors := errors[Name := NameRequired];
    }
    if |form.name| > 100 {
      errors := errors[Name := NameTooLong];
    }
    if IsBlank(form.sku) {
      errors := errors[Sku := SkuRequired];
    }
    if !NumericField(form.price, isNumber) {
      errors := errors[Price := PriceInvalid];
    }
    if !NumericField(form.stock, isNumber) {
      errors := errors[Stock := StockInvalid];
    }
    if !NumericField(form.minStock, isNumber) {
      errors := errors[MinStock := MinStockInvalid];
    }
  }

  class ProductModalState {
    var form: ProductForm
    var errors: map<Field, string>
    var open: bool

    constructor (product: Option<Product>)
      ensures form == InitialForm(product) && errors == map[] && open
    {
      form := InitialForm(product);
      errors := map[];
      open := true;
    }

    method SetSku(typed: string)
      modifies this`form
      ensures form == old(form).(sku := SkuInput(typed))
    {
      form := form.(sku := SkuInput(typed));
    }

    /** `handleSubmit`: the modal closes only when there are no errors. */
    method HandleSubmit(isNumber: string -> bool) returns (valid: bool)
      modifies this`errors, this`open
      ensures IsErrorRecord(form, isNumber, errors)
      ensures valid <==> FormPasses(form, isNumber)
      ensures valid <==> errors == map[]
      ensures open == (old(open) && !valid)
    {
      errors := CollectErrors(form, isNumber);
      valid := errors == map[];
      if valid {
        open := false;
      }
    }
  }
}
