/**
 * The order form of `src/components/modals/OrderModal.tsx`: a customer, a
 * list of line items that always holds at least one item, the running
 * total against the fixed product catalogue, and validation.
 */
module OrderModal {
  import opened Wrappers
  import Lists

  datatype LineItem = LineItem(productId: string, quantity: int)

  datatype CatalogueEntry = CatalogueEntry(id: string, name: string, price: nat)

  const Catalogue: seq<CatalogueEntry> := [
    CatalogueEntry("1", "Premium Widget A", 4500),
    CatalogueEntry("2", "Standard Gadget B", 2800),
    CatalogueEntry("3", "Deluxe Component C", 1900),
    CatalogueEntry("4", "Basic Part D", 1200)]

  /** The item a new row starts with: no product, quantity 1. */
  const BlankItem := LineItem("", 1)

  /** `products.find(p => p.id === id)`: the first entry with that id. */
  function Find(catalogue: seq<CatalogueEntry>, id: string): (r: Option<CatalogueEntry>)
    ensures r.Some? <==> exists i :: 0 <= i < |catalogue| && catalogue[i].id == id
    ensures r.Some? ==> r.value in catalogue && r.value.id == id
    ensures r.Some? ==> exists i :: 0 <= i < |catalogue| && catalogue[i] == r.value
                                    && forall j :: 0 <= j < i ==> catalogue[j].id != id
  {
    if catalogue == [] then None
    else if catalogue[0].id == id then Some(catalogue[0])
    else
      var r := Find(catalogue[1..], id);
      assert forall i :: 1 <= i < |catalogue| ==> catalogue[i] == catalogue[1..][i - 1];
      r
  }

  /** `product?.price || 0`: the catalogue price, or 0 for an empty or unknown id. */
  function UnitPrice(id: string): (p: nat)
    ensures Find(Catalogue, id).Some? ==> p == Find(Catalogue, id).value.price && p > 0
    ensures Find(Catalogue, id).None? ==> p == 0
    ensures id == "" ==> p == 0
  {
    match Find(Catalogue, id)
    case Some(entry) => entry.price
    case None => 0
  }

  function LineTotal(item: LineItem): int
  {
    UnitPrice(item.productId) * item.quantity
  }

  /** `calculateTotal()`: the sum of price times quantity over the items. */
  function Total(items: seq<LineItem>): int
  {
    Lists.Sum(items, LineTotal)
  }

  /** A blank row adds nothing to the total. */
  lemma AddItemKeepsTotal(items: seq<LineItem>)
    ensures Total(items + [BlankItem]) == Total(items)
  {
    Lists.SumAppend(items, [BlankItem], LineTotal);
  }

  /** Replacing one item changes the total by the difference of the two line totals. */
  lemma {:induction false} UpdateItemTotal(items: seq<LineItem>, index: nat, item: LineItem)
    requires index < |items|
    ensures Total(items[index := item]) == Total(items) - LineTotal(items[index]) + LineTotal(item)
  {
    if index > 0 {
      assert items[index := item][1..] == items[1..][index - 1 := item];
      UpdateItemTotal(items[1..], index - 1, item);
    } else {
      assert items[index := item][1..] == items[1..];
    }
  }

  /** The items with the one at `index` dropped: `items.filter((_, i) => i !== index)`. */
  function Without(items: seq<LineItem>, index: int): (r: seq<LineItem>)
    ensures 0 <= index < |items| ==> |r| == |items| - 1
    ensures 0 <= index < |items| ==> forall i :: 0 <= i < |r| ==> r[i] == if i < index then items[i] else items[i + 1]
    ensures !(0 <= index < |items|) ==> r == items
  {
    if 0 <= index < |items| then items[..index] + items[index + 1..] else items
  }

  /** Removing an item takes exactly its line total off the total. */
  lemma RemoveItemTotal(items: seq<LineItem>, index: nat)
    requires index < |items|
    ensures Total(Without(items, index)) == Total(items) - LineTotal(items[index])
  {
    assert items == items[..index] + [items[index]] + items[index + 1..];
    Lists.SumAppend(items[..index] + [items[index]], items[index + 1..], LineTotal);
    Lists.SumAppend(items[..index], [items[index]], LineTotal);
    Lists.SumAppend(items[..index], items[index + 1..], LineTotal);
  }

  /** `parseInt(value) || 1`: a typed quantity falls back to 1 when it is NaN or 0. */
  function QuantityInput(parsed: Option<int>): (q: int)
    ensures q != 0
    ensures parsed.Some? && parsed.value != 0 ==> q == parsed.value
    ensures parsed.None? || parsed.value == 0 ==> q == 1
  {
    match parsed
    case Some(n) => if n != 0 then n else 1
    case None => 1
  }

  /** One edit from a row: a product chosen, or a quantity typed. */
  datatype ItemEdit = SetProduct(id: string) | SetQuantity(quantity: int)

  function Edited(item: LineItem, edit: ItemEdit): LineItem
  {
    match edit
    case SetProduct(id) => item.(productId := id)
    case SetQuantity(q) => item.(quantity := q)
  }

  const CustomerRequired := "Please select a customer"
  const ProductsRequired := "Please select products for all items"

  /** `validate()`'s error map. */
  function OrderErrors(customer: string, items: seq<LineItem>): (errors: map<string, string>)
    ensures errors.Keys <= {"customer", "items"}
    ensures "customer" in errors <==> customer == ""
    ensures "customer" in errors ==> errors["customer"] == CustomerRequired
    ensures "items" in errors <==> exists i :: 0 <= i < |items| && items[i].productId == ""
    ensures "items" in errors ==> errors["items"] == ProductsRequired
  {
    var e := if customer == "" then map["customer" := CustomerRequired] else map[];
    if exists i :: 0 <= i < |items| && items[i].productId == "" then e["items" := ProductsRequired] else e
  }

  class OrderForm {
    var customer: string
    var items: seq<LineItem>
    var notes: string
    var errors: map<string, string>
    var open: bool

    /** The form always holds at least one item. */
    predicate Valid()
      reads this
    {
      |items| >= 1
    }

    constructor ()
      ensures Valid()
      ensures customer == "" && items == [BlankItem] && notes == "" && errors == map[] && open
    {
      customer, items, notes := "", [BlankItem], "";
      errors := map[];
      open := true;
    }

    method SetCustomer(value: string)
      modifies this`customer
      ensures customer == value
    {
      customer := value;
    }

    /** `addItem`: a blank row at the end; earlier rows and the total are unchanged. */
    method AddItem()
      requires Valid()
      modifies this`items
      ensures Valid()
      ensures items == old(items) + [BlankItem]
      ensures Total(items) == Total(old(items))
    {
      AddItemKeepsTotal(items);
      items := items + [BlankItem];
    }

    /** `removeItem(index)`: refused when only one row is left. */
    method RemoveItem(index: int)
      requires Valid()
      modifies this`items
      ensures Valid()
      ensures |old(items)| == 1 ==> items == old(items)
      ensures |old(items)| > 1 ==> items == Without(old(items), index)
      ensures |old(items)| > 1 && 0 <= index < |old(items)| ==>
                Total(items) == Total(old(items)) - LineTotal(old(items)[index])
    {
      if |items| > 1 {
        if 0 <= index < |items| {
          RemoveItemTotal(items, index);
        }
        items := Without(items, index);
      }
    }

    /** `updateItem(index, field, value)`: one field of one row. */
    method UpdateItem(index: nat, edit: ItemEdit)
      requires Valid() && index < |items|
      modifies this`items
      ensures Valid()
      ensures |items| == |old(items)|
      ensures items[index] == Edited(old(items)[index], edit)
      ensures forall i :: 0 <= i < |items| && i != index ==> items[i] == old(items)[i]
      ensures Total(items) == Total(old(items)) - LineTotal(old(items)[index]) + LineTotal(items[index])
    {
      var item := Edited(items[index], edit);
      UpdateItemTotal(items, index, item);
      items := items[index := item];
    }

    /** `validate()`: records the errors and reports whether there are none. */
    method Validate() returns (ok: bool)
      modifies this`errors
      ensures errors == OrderErrors(customer, items)
      ensures ok <==> customer != "" && forall i :: 0 <= i < |items| ==> items[i].productId != ""
    {
      errors := OrderErrors(customer, items);
      ok := "customer" !in errors && "items" !in errors;
    }

    /** `handleSubmit`: the modal closes only when validation passes. */
    method HandleSubmit()
      modifies this`errors, this`open
      ensures errors == OrderErrors(customer, items)
      ensures open == (old(open) && !(customer != "" && forall i :: 0 <= i < |items| ==> items[i].productId != ""))
    {
      var ok := Validate();
      if ok {
        open := false;
      }
    }
  }
}
