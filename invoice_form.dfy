/** The state of the invoice form component: each `useState` pair becomes a field, and
    each handler that calls a setter becomes a method that assigns the field the new
    value computed by the pure functions of LineItems and InvoiceDetails. */
module InvoiceForm {
  import opened Wrappers
  import opened LineItems
  import opened InvoiceDetails

  /** A calendar date, kept opaque: only its identity matters to the form. */
  datatype Date = Date(epochMillis: int)

  class InvoiceGenerator {
    var customer: Customer
    var items: seq<Item>
    var paymentMethod: PaymentMethod
    var invoiceNumber: string
    var invoiceDate: Option<Date>

    /** Every row of the table has its own id. */
    ghost predicate Valid()
      reads this
    {
      UniqueIds(items)
    }

    /** `calculateTotal()`, recomputed from the current rows on every call. */
    function CalculateTotal(): real
      reads this
    {
      Total(items)
    }

    /** The initial state; `now` is the moment the form is created (`new Date()`). */
    constructor (now: Date)
      ensures Valid()
      ensures items == INITIAL_ITEMS && CalculateTotal() == 0.0
      ensures customer == EMPTY_CUSTOMER && paymentMethod == NO_PAYMENT
      ensures invoiceNumber == "" && invoiceDate == Some(now)
    {
      customer := EMPTY_CUSTOMER;
      items := INITIAL_ITEMS;
      paymentMethod := NO_PAYMENT;
      invoiceNumber := "";
      invoiceDate := Some(now);
      InitialItems();
    }

    /** The "add item" button. `freshId` stands for `Date.now().toString()`. */
    method AddItem(freshId: string)
      requires Valid() && !HasId(items, freshId)
      modifies this
      ensures Valid() && HasId(items, freshId)
      ensures items == WithNewItem(old(items), freshId)
      ensures CalculateTotal() == old(CalculateTotal())
      ensures customer == old(customer) && paymentMethod == old(paymentMethod)
      ensures invoiceNumber == old(invoiceNumber) && invoiceDate == old(invoiceDate)
    {
      WithNewItemKeepsUnique(items, freshId);
      WithNewItemKeepsTotal(items, freshId);
      items := WithNewItem(items, freshId);
    }

    /** The delete button of a row; it is offered on every row, even the last one. */
    method RemoveItem(id: string)
      requires Valid()
      modifies this
      ensures Valid() && !HasId(items, id)
      ensures items == WithoutId(old(items), id)
      ensures !HasId(old(items), id) ==> items == old(items)
      ensures forall k :: 0 <= k < |old(items)| && old(items)[k].id == id ==>
        items == old(items)[..k] + old(items)[k + 1..] &&
        CalculateTotal() == old(CalculateTotal()) - Amount(old(items)[k])
      ensures customer == old(customer) && paymentMethod == old(paymentMethod)
      ensures invoiceNumber == old(invoiceNumber) && invoiceDate == old(invoiceDate)
    {
      ghost var before := items;
      WithoutIdKeepsUnique(items, id);
      if !HasId(items, id) {
        WithoutAbsentId(items, id);
      }
      forall k | 0 <= k < |before| && before[k].id == id
        ensures WithoutId(before, id) == before[..k] + before[k + 1..]
        ensures Total(WithoutId(before, id)) == Total(before) - Amount(before[k])
      {
        WithoutPresentId(before, k);
        WithoutPresentIdTotal(before, k);
      }
      items := WithoutId(items, id);
    }

    /** `updateItem(id, field, value)` for the description, quantity and price fields. */
    method UpdateItem(id: string, e: Edit)
      requires Valid()
      modifies this
      ensures Valid()
      ensures items == WithEdit(old(items), id, e)
      ensures !HasId(old(items), id) ==> items == old(items)
      ensures forall k :: 0 <= k < |old(items)| && old(items)[k].id == id ==>
        items == old(items)[..k] + [Apply(old(items)[k], e)] + old(items)[k + 1..] &&
        CalculateTotal() == old(CalculateTotal()) - Amount(old(items)[k]) + Amount(Apply(old(items)[k], e))
      ensures e.SetDescription? ==> CalculateTotal() == old(CalculateTotal())
      ensures customer == old(customer) && paymentMethod == old(paymentMethod)
      ensures invoiceNumber == old(invoiceNumber) && invoiceDate == old(invoiceDate)
    {
      ghost var before := items;
      WithEditKeepsIds(items, id, e);
      if e.SetDescription? {
        DescriptionEditKeepsTotal(items, id, e.text);
      }
      forall k | 0 <= k < |before| && before[k].id == id
        ensures WithEdit(before, id, e) == before[..k] + [Apply(before[k], e)] + before[k + 1..]
        ensures Total(WithEdit(before, id, e)) == Total(before) - Amount(before[k]) + Amount(Apply(before[k], e))
      {
        WithEditPresentId(before, k, e);
        WithEditPresentIdTotal(before, k, e);
      }
      items := WithEdit(items, id, e);
    }

    /** The description textarea of a row. */
    method OnDescriptionChange(id: string, text: string)
      requires Valid()
      modifies this
      ensures Valid()
      ensures items == WithEdit(old(items), id, SetDescription(text))
      ensures CalculateTotal() == old(CalculateTotal())
      ensures customer == old(customer) && paymentMethod == old(paymentMethod)
      ensures invoiceNumber == old(invoiceNumber) && invoiceDate == old(invoiceDate)
    {
      UpdateItem(id, SetDescription(text));
    }

    /** The quantity input of a row; `parsed` is what `parseInt` made of the text. */
    method OnQuantityChange(id: string, parsed: Option<int>)
      requires Valid()
      modifies this
      ensures Valid()
      ensures items == WithEdit(old(items), id, SetQuantity(QuantityFromInput(parsed)))
      ensures customer == old(customer) && paymentMethod == old(paymentMethod)
      ensures invoiceNumber == old(invoiceNumber) && invoiceDate == old(invoiceDate)
    {
      UpdateItem(id, SetQuantity(QuantityFromInput(parsed)));
    }

    /** The unit-price input of a row; `parsed` is what `parseFloat` made of the text. */
    method OnPriceChange(id: string, parsed: Option<real>)
      requires Valid()
      modifies this
      ensures Valid()
      ensures items == WithEdit(old(items), id, SetPrice(PriceFromInput(parsed)))
      ensures customer == old(customer) && paymentMethod == old(paymentMethod)
      ensures invoiceNumber == old(invoiceNumber) && invoiceDate == old(invoiceDate)
    {
      UpdateItem(id, SetPrice(PriceFromInput(parsed)));
    }

    /** One of the name, phone and address inputs. */
    method SetCustomerField(f: CustomerField, value: string)
      modifies this
      ensures customer == WithField(old(customer), f, value)
      ensures items == old(items) && paymentMethod == old(paymentMethod)
      ensures invoiceNumber == old(invoiceNumber) && invoiceDate == old(invoiceDate)
    {
      customer := WithField(customer, f, value);
    }

    /** One of the four payment checkboxes. */
    method SetPaymentFlag(f: PaymentFlag, checked: bool)
      modifies this
      ensures paymentMethod == WithFlag(old(paymentMethod), f, checked)
      ensures items == old(items) && customer == old(customer)
      ensures invoiceNumber == old(invoiceNumber) && invoiceDate == old(invoiceDate)
    {
      paymentMethod := WithFlag(paymentMethod, f, checked);
    }

    /** The invoice-number input; the text is stored as typed. */
    method SetInvoiceNumber(text: string)
      modifies this
      ensures invoiceNumber == text
      ensures items == old(items) && customer == old(customer)
      ensures paymentMethod == old(paymentMethod) && invoiceDate == old(invoiceDate)
    {
      invoiceNumber := text;
    }

    /** The calendar picker; deselecting the day gives `None`. */
    method SetInvoiceDate(date: Option<Date>)
      modifies this
      ensures invoiceDate == date
      ensures items == old(items) && customer == old(customer)
      ensures paymentMethod == old(paymentMethod) && invoiceNumber == old(invoiceNumber)
    {
      invoiceDate := date;
    }
  }

  /** A session of the form, with what its contracts let a client conclude:
      editing, removing the default row, and removing the last row (there is no floor). */
  method Session(now: Date, day: Date)
  {
    var form := new InvoiceGenerator(now);
    assert form.CalculateTotal() == 0.0;
    form.AddItem("2");
    assert form.items == [Item("1", "", 1, 0.0), Item("2", "", 1, 0.0)];
    form.OnQuantityChange("2", Some(3));
    assert form.items[1] == Item("2", "", 3, 0.0);
    form.OnPriceChange("2", Some(12.5));
    assert form.items == [Item("1", "", 1, 0.0), Item("2", "", 3, 12.5)];
    assert form.items[1..] == [Item("2", "", 3, 12.5)];
    assert Sum([Item("2", "", 3, 12.5)]) == 37.5 by {
      assert [Item("2", "", 3, 12.5)][1..] == [];
    }
    assert form.CalculateTotal() == 37.5;
    form.RemoveItem("1");
    assert form.items == [Item("2", "", 3, 12.5)];
    assert form.CalculateTotal() == 37.5;
    form.OnQuantityChange("2", None);
    assert form.items == [Item("2", "", 0, 12.5)];
    form.RemoveItem("2");
    assert form.items == [];
    form.SetInvoiceNumber("1002");
    form.SetInvoiceDate(Some(day));
    assert form.invoiceNumber == "1002" && form.invoiceDate == Some(day);
  }
}
