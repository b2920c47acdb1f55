/** The customer record and the payment-method flags of the invoice, with the
    single-field updates the form's inputs and checkboxes perform
    (`{ ...customer, name: value }`, `{ ...paymentMethod, cash: checked }`). */
module InvoiceDetails {

  datatype Customer = Customer(name: string, address: string, phone: string)

  datatype CustomerField = Name | Address | Phone

  /** The payment methods the customer may use; independent flags, not exclusive. */
  datatype PaymentMethod = PaymentMethod(cash: bool, check: bool, bit: bool, bankTransfer: bool)

  datatype PaymentFlag = Cash | Check | Bit | BankTransfer

  const EMPTY_CUSTOMER: Customer := Customer("", "", "")

  const NO_PAYMENT: PaymentMethod := PaymentMethod(false, false, false, false)

  function GetField(c: Customer, f: CustomerField): string
  {
    match f
    case Name => c.name
    case Address => c.address
    case Phone => c.phone
  }

  /** Replaces one customer field; the other two keep their values. */
  function WithField(c: Customer, f: CustomerField, value: string): (r: Customer)
    ensures GetField(r, f) == value
    ensures forall g :: g != f ==> GetField(r, g) == GetField(c, g)
  {
    match f
    case Name => c.(name := value)
    case Address => c.(address := value)
    case Phone => c.(phone := value)
  }

  function GetFlag(p: PaymentMethod, f: PaymentFlag): bool
  {
    match f
    case Cash => p.cash
    case Check => p.check
    case Bit => p.bit
    case BankTransfer => p.bankTransfer
  }

  /** Sets one payment flag to the checkbox's new state; the other flags keep theirs. */
  function WithFlag(p: PaymentMethod, f: PaymentFlag, checked: bool): (r: PaymentMethod)
    ensures GetFlag(r, f) == checked
    ensures forall g :: g != f ==> GetFlag(r, g) == GetFlag(p, g)
  {
    match f
    case Cash => p.(cash := checked)
    case Check => p.(check := checked)
    case Bit => p.(bit := checked)
    case BankTransfer => p.(bankTransfer := checked)
  }

  /** Unchecking a box right after checking it restores the previous selection. */
  lemma FlagRoundTrip(p: PaymentMethod, f: PaymentFlag, checked: bool)
    ensures WithFlag(WithFlag(p, f, checked), f, GetFlag(p, f)) == p
  {
  }

  /** The form starts with an empty customer and no payment method selected. */
  lemma InitialDetails()
    ensures forall f :: GetField(EMPTY_CUSTOMER, f) == ""
    ensures forall f :: !GetFlag(NO_PAYMENT, f)
  {
  }
}
