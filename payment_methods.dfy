/** The saved payment methods panel (src/components/PaymentMethods.tsx): adding
    a method, making one the default, and the label each kind shows. */
module PaymentMethods {
  import opened Wrappers
  import opened Types
  import opened Text

  const MockPaymentMethods: seq<PaymentMethod> := [
    PaymentMethod("1", CreditCard,
      PaymentDetails(Some("\U{2022}\U{2022}\U{2022}\U{2022} \U{2022}\U{2022}\U{2022}\U{2022} \U{2022}\U{2022}\U{2022}\U{2022} 4242"),
                     Some("John Doe"), Some("12/25"), None, None, None, None),
      true),
    PaymentMethod("2", PayPal, PaymentDetails(None, None, None, None, None, None, Some("john@example.com")), false)
  ]

  predicate HasPaymentId(methods: seq<PaymentMethod>, id: string)
  {
    exists i :: 0 <= i < |methods| && methods[i].id == id
  }

  predicate UniquePaymentIds(methods: seq<PaymentMethod>)
  {
    forall i, j :: 0 <= i < j < |methods| ==> methods[i].id != methods[j].id
  }

  predicate AtMostOneDefault(methods: seq<PaymentMethod>)
  {
    forall i, j :: 0 <= i < |methods| && 0 <= j < |methods| && methods[i].isDefault && methods[j].isDefault ==> i == j
  }

  /** The list after `handleSetDefault(id)`. */
  function WithDefault(methods: seq<PaymentMethod>, id: string): (r: seq<PaymentMethod>)
    ensures |r| == |methods|
    ensures forall i :: 0 <= i < |r| ==> r[i] == methods[i].(isDefault := methods[i].id == id)
  {
    seq(|methods|, i requires 0 <= i < |methods| => methods[i].(isDefault := methods[i].id == id))
  }

  /** With ids unique, making a listed id the default leaves exactly that method
      default; an unlisted id leaves no default at all. */
  lemma WithDefaultExactlyOne(methods: seq<PaymentMethod>, id: string)
    requires UniquePaymentIds(methods)
    ensures AtMostOneDefault(WithDefault(methods, id))
    ensures HasPaymentId(methods, id) <==> exists i :: 0 <= i < |methods| && WithDefault(methods, id)[i].isDefault
    ensures forall i :: 0 <= i < |methods| ==> (WithDefault(methods, id)[i].isDefault <==> methods[i].id == id)
  {
  }

  /** The method `handleNewPayment` appends: a fresh id, and the default flag
      only when it is the first method. */
  function NewPayment(methods: seq<PaymentMethod>, payment: PaymentMethod, newId: string): (r: PaymentMethod)
    ensures r.id == newId && r.kind == payment.kind && r.details == payment.details
    ensures r.isDefault <==> methods == []
  {
    payment.(id := newId, isDefault := |methods| == 0)
  }

  /** Appending a new payment keeps ids unique and at most one default. */
  lemma NewPaymentKeepsInvariant(methods: seq<PaymentMethod>, payment: PaymentMethod, newId: string)
    requires UniquePaymentIds(methods) && AtMostOneDefault(methods) && !HasPaymentId(methods, newId)
    ensures var r := methods + [NewPayment(methods, payment, newId)];
            UniquePaymentIds(r) && AtMostOneDefault(r)
  {
  }

  /** `${value}` of an optional field: an absent one prints as "undefined". */
  function Shown(value: Option<string>): string
  {
    value.GetOr("undefined")
  }

  /** `getPaymentLabel`. The kind is a closed enumeration here, so the source's
      "Unknown payment method" fallback cannot arise. */
  function GetPaymentLabel(payment: PaymentMethod): (r: string)
    ensures payment.kind == Cash <==> r == "Cash on delivery"
    ensures payment.kind == PayPal ==> "PayPal (" <= r
    ensures payment.kind == BankTransfer ==>
              "Bank Account ending in " <= r && |r| <= |"Bank Account ending in "| + |"undefined"|
  {
    match payment.kind
    case CreditCard =>
      (var shown := Shown(payment.details.cardNumber) + " (Expires: " + Shown(payment.details.expiryDate) + ")";
       assert shown[|shown| - 1] == ')';
       shown)
    case PayPal =>
      (var shown := "PayPal (" + Shown(payment.details.paypalEmail) + ")";
       assert shown[0] == 'P';
       shown)
    case BankTransfer =>
      (var shown := "Bank Account ending in " +
         (match payment.details.accountNumber case Some(n) => LastChars(n, 4) case None => "undefined");
       assert shown[0] == 'B';
       shown)
    case Cash => "Cash on delivery"
  }

  /** A bank account's label reveals at most its last four characters: two
      accounts that end alike are labelled alike, whatever else differs. */
  lemma BankLabelShowsLastFour(a: PaymentMethod, b: PaymentMethod)
    requires a.kind == BankTransfer && b.kind == BankTransfer
    requires a.details.accountNumber.Some? && b.details.accountNumber.Some?
    requires |a.details.accountNumber.value| >= 4 && |b.details.accountNumber.value| >= 4
    ensures var n := a.details.accountNumber.value;
            GetPaymentLabel(a) == "Bank Account ending in " + n[|n| - 4..]
    ensures var n, m := a.details.accountNumber.value, b.details.accountNumber.value;
            n[|n| - 4..] == m[|m| - 4..] ==> GetPaymentLabel(a) == GetPaymentLabel(b)
  {
  }

  /** Cash always reads "Cash on delivery". */
  lemma CashLabel(payment: PaymentMethod)
    requires payment.kind == Cash
    ensures GetPaymentLabel(payment) == "Cash on delivery"
  {
  }

  class PaymentMethodsPanel {
    var paymentMethods: seq<PaymentMethod>

    ghost predicate Valid()
      reads this
    {
      UniquePaymentIds(paymentMethods) && AtMostOneDefault(paymentMethods)
    }

    constructor ()
      ensures Valid() && paymentMethods == MockPaymentMethods
    {
      paymentMethods := MockPaymentMethods;
    }

    /** `handleNewPayment(payment)`: `newId` stands for `new-${Date.now()}`;
        the appended method is also the one handed to `onSelectPayment`. */
    method HandleNewPayment(payment: PaymentMethod, newId: string) returns (selected: PaymentMethod)
      requires Valid() && !HasPaymentId(paymentMethods, newId)
      modifies this
      ensures Valid()
      ensures selected == NewPayment(old(paymentMethods), payment, newId)
      ensures paymentMethods == old(paymentMethods) + [selected]
      ensures selected.isDefault <==> old(paymentMethods) == []
    {
      selected := NewPayment(paymentMethods, payment, newId);
      NewPaymentKeepsInvariant(paymentMethods, payment, newId);
      paymentMethods := paymentMethods + [selected];
    }

    /** `handleSetDefault(id)`. */
    method HandleSetDefault(id: string)
      requires Valid()
      modifies this
      ensures Valid()
      ensures paymentMethods == WithDefault(old(paymentMethods), id)
      ensures HasPaymentId(old(paymentMethods), id) <==>
                exists i :: 0 <= i < |paymentMethods| && paymentMethods[i].isDefault
    {
      WithDefaultExactlyOne(paymentMethods, id);
      paymentMethods := WithDefault(paymentMethods, id);
    }
  }
}
