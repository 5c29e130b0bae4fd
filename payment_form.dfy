/** The payment form (src/components/PaymentForm.tsx): the field rules of its
    three tabs and the payment record each submit handler builds. A handler
    runs only when every rule of its tab passes, so submitting is modelled as
    a function that yields the record or the first failing field's message. */
module PaymentForm {
  import opened Wrappers
  import opened Types
  import opened Text

  datatype CreditCardFormValues = CreditCardFormValues(
    cardholderName: string, cardNumber: string, expiryDate: string, cvv: string)

  datatype PayPalFormValues = PayPalFormValues(paypalEmail: string)

  datatype BankTransferFormValues = BankTransferFormValues(
    accountName: string, accountNumber: string, routingNumber: string, bankName: string)

  datatype Submission = Submitted(payment: PaymentMethod) | Rejected(message: string)

  /** `^[cls]{lo,hi}$` read one character at a time: each character must be
      in the class, at most `hi` may be read, and at least `lo` must be. */
  function RepeatMatch(s: string, cls: char -> bool, lo: nat, hi: nat): bool
    decreases |s|
  {
    if s == [] then lo == 0
    else hi > 0 && cls(s[0]) && RepeatMatch(s[1..], cls, if lo > 0 then lo - 1 else 0, hi - 1)
  }

  /** The pattern `^[cls]{lo,hi}$` holds exactly for texts of `lo` to `hi`
      characters, all in the class. */
  lemma {:induction false} RepeatMatchSpec(s: string, cls: char -> bool, lo: nat, hi: nat)
    ensures RepeatMatch(s, cls, lo, hi) <==> lo <= |s| <= hi && forall i :: 0 <= i < |s| ==> cls(s[i])
    decreases |s|
  {
    if s != [] && hi > 0 {
      RepeatMatchSpec(s[1..], cls, if lo > 0 then lo - 1 else 0, hi - 1);
      assert forall i :: 1 <= i < |s| ==> s[i] == s[1..][i - 1];
    }
  }

  /** `^[0-9]{16}$`. */
  function IsCardNumber(s: string): (r: bool)
    ensures r <==> RepeatMatch(s, IsDigit, 16, 16)
  {
    RepeatMatchSpec(s, IsDigit, 16, 16);
    |s| == 16 && AllDigits(s)
  }

  /** `^[0-9]{3,4}$`. */
  function IsCvv(s: string): (r: bool)
    ensures r <==> RepeatMatch(s, IsDigit, 3, 4)
  {
    RepeatMatchSpec(s, IsDigit, 3, 4);
    3 <= |s| <= 4 && AllDigits(s)
  }

  /** `^[0-9]{8,17}$`. */
  function IsAccountNumber(s: string): (r: bool)
    ensures r <==> RepeatMatch(s, IsDigit, 8, 17)
  {
    RepeatMatchSpec(s, IsDigit, 8, 17);
    8 <= |s| <= 17 && AllDigits(s)
  }

  /** `^[0-9]{9}$`. */
  function IsRoutingNumber(s: string): (r: bool)
    ensures r <==> RepeatMatch(s, IsDigit, 9, 9)
  {
    RepeatMatchSpec(s, IsDigit, 9, 9);
    |s| == 9 && AllDigits(s)
  }

  /** `^(0[1-9]|1[0-2])\/[0-9]{2}$`. */
  predicate IsExpiryDate(s: string)
  {
    |s| == 5 && s[2] == '/' && IsDigit(s[3]) && IsDigit(s[4]) &&
    ((s[0] == '0' && '1' <= s[1] <= '9') || (s[0] == '1' && '0' <= s[1] <= '2'))
  }

  /** An expiry passes exactly when it is two digits naming a month from 1 to
      12, a slash, and two more digits. */
  lemma ExpiryDateIsMonthSlashYear(s: string)
    ensures IsExpiryDate(s) <==>
              |s| == 5 && s[2] == '/' && AllDigits(s[..2]) && AllDigits(s[3..]) &&
              1 <= DigitsValue(s[..2]) <= 12
  {
    if |s| == 5 && AllDigits(s[..2]) {
      var mm := s[..2];
      assert mm[..1][..0] == [];
      assert mm[0] == s[0] && mm[1] == s[1];
      assert DigitsValue(mm[..1]) == DigitValue(s[0]);
      assert DigitsValue(mm) == DigitValue(s[0]) * 10 + DigitValue(s[1]);
      if AllDigits(s[3..]) {
        assert IsDigit(s[3..][0]) && IsDigit(s[3..][1]);
      }
    }
    if IsExpiryDate(s) {
      assert AllDigits(s[..2]);
    }
  }

  predicate IsLetter(c: char) { 'a' <= c <= 'z' || 'A' <= c <= 'Z' }

  /** `[A-Z0-9._%+-]` under the `i` flag. */
  predicate IsLocalChar(c: char) { IsLetter(c) || IsDigit(c) || c in "._%+-" }

  /** `[A-Z0-9.-]` under the `i` flag. */
  predicate IsDomainChar(c: char) { IsLetter(c) || IsDigit(c) || c in ".-" }

  /** The email pattern with its `@` at `at` and its last dot at `dot`. */
  predicate EmailSplit(s: string, at: int, dot: int)
  {
    0 < at && at + 1 < dot && dot + 2 < |s| &&
    s[at] == '@' && s[dot] == '.' &&
    (forall i :: 0 <= i < at ==> IsLocalChar(s[i])) &&
    (forall i :: at < i < dot ==> IsDomainChar(s[i])) &&
    (forall i :: dot < i < |s| ==> IsLetter(s[i]))
  }

  /** A text matching the email pattern has at least six characters and
      exactly one `@`. */
  lemma EmailShape(s: string)
    requires exists at, dot :: 0 < at < dot < |s| && EmailSplit(s, at, dot)
    ensures |s| >= 6
    ensures exists at :: 0 < at < |s| && s[at] == '@' && forall i :: 0 <= i < |s| && s[i] == '@' ==> i == at
  {
    var at, dot :| 0 < at < dot < |s| && EmailSplit(s, at, dot);
    assert forall i :: 0 <= i < |s| && s[i] == '@' ==> i == at;
  }

  /** `^[A-Z0-9._%+-]+@[A-Z0-9.-]+\.[A-Z]{2,}$` with the `i` flag: a local part,
      `@`, a domain, a dot and a top-level part of at least two letters; such
      an address has at least six characters and exactly one `@`. */
  function IsEmail(s: string): (r: bool)
    ensures r ==> |s| >= 6
    ensures r ==> exists at :: 0 < at < |s| && s[at] == '@' && forall i :: 0 <= i < |s| && s[i] == '@' ==> i == at
  {
    if exists at, dot :: 0 < at < dot < |s| && EmailSplit(s, at, dot) then
      EmailShape(s);
      true
    else false
  }

  /** A field rule: the `required` message for an empty value, then the
      pattern's message when the value does not match. */
  function CheckField(value: string, matches: bool, requiredMessage: string, patternMessage: string): (r: Option<string>)
    ensures r.None? <==> value != "" && matches
    ensures value == "" ==> r == Some(requiredMessage)
    ensures r.Some? && value != "" ==> r == Some(patternMessage)
  {
    if value == "" then Some(requiredMessage)
    else if !matches then Some(patternMessage)
    else None
  }

  /** `initialPayment?.id || ""`. */
  function SubmittedId(initialPayment: Option<PaymentMethod>): (r: string)
    ensures initialPayment.Some? ==> r == initialPayment.value.id
    ensures initialPayment.None? ==> r == ""
  {
    match initialPayment
    case Some(p) => if p.id != "" then p.id else ""
    case None => ""
  }

  const MaskPrefix: string := "\U{2022}\U{2022}\U{2022}\U{2022} \U{2022}\U{2022}\U{2022}\U{2022} \U{2022}\U{2022}\U{2022}\U{2022} "

  /** `•••• •••• •••• ${cardNumber.slice(-4)}`. */
  function MaskCardNumber(cardNumber: string): (r: string)
    ensures MaskPrefix <= r
    ensures |cardNumber| >= 4 ==> |r| == |MaskPrefix| + 4 && r[|MaskPrefix|..] == cardNumber[|cardNumber| - 4..]
  {
    MaskPrefix + LastChars(cardNumber, 4)
  }

  /** The stored number keeps the last four digits of a valid card number and
      nothing else: two cards that end alike mask alike. */
  lemma MaskKeepsLastFour(a: string, b: string)
    requires IsCardNumber(a) && IsCardNumber(b)
    ensures |MaskCardNumber(a)| == 19
    ensures MaskCardNumber(a)[15..] == a[12..]
    ensures a[12..] == b[12..] ==> MaskCardNumber(a) == MaskCardNumber(b)
    ensures forall i :: 0 <= i < 15 ==> !IsDigit(MaskCardNumber(a)[i])
  {
    assert MaskCardNumber(a)[15..] == LastChars(a, 4);
  }

  /** The record `handleCreditCardSubmit` passes to `onSubmit`. */
  function CreditCardPayment(initialPayment: Option<PaymentMethod>, data: CreditCardFormValues): PaymentMethod
  {
    PaymentMethod(SubmittedId(initialPayment), CreditCard,
      PaymentDetails(Some(MaskCardNumber(data.cardNumber)), Some(data.cardholderName), Some(data.expiryDate),
                     Some(data.cvv), None, None, None),
      false)
  }

  /** The credit-card tab: its rules in field order, then the submit handler. */
  function SubmitCreditCard(initialPayment: Option<PaymentMethod>, data: CreditCardFormValues): (r: Submission)
    ensures r.Submitted? <==>
              data.cardholderName != "" && IsCardNumber(data.cardNumber) && IsExpiryDate(data.expiryDate) &&
              IsCvv(data.cvv)
    ensures r.Submitted? ==> r.payment.kind == CreditCard && r.payment.id == SubmittedId(initialPayment)
    ensures r.Submitted? ==> r.payment.details.cardNumber == Some(MaskCardNumber(data.cardNumber))
  {
    var checks := [
      CheckField(data.cardholderName, true, "Cardholder name is required", ""),
      CheckField(data.cardNumber, IsCardNumber(data.cardNumber), "Card number is required",
                 "Please enter a valid 16-digit card number"),
      CheckField(data.expiryDate, IsExpiryDate(data.expiryDate), "Expiry date is required", "Please use MM/YY format"),
      CheckField(data.cvv, IsCvv(data.cvv), "CVV is required", "CVV must be 3 or 4 digits")];
    match FirstError(checks)
    case Some(message) => Rejected(message)
    case None =>
      assert checks[0].None? && checks[1].None? && checks[2].None? && checks[3].None?;
      Submitted(CreditCardPayment(initialPayment, data))
  }

  /** The PayPal tab. */
  function SubmitPayPal(initialPayment: Option<PaymentMethod>, data: PayPalFormValues): (r: Submission)
    ensures r.Submitted? <==> IsEmail(data.paypalEmail)
    ensures r.Submitted? ==>
              r.payment == PaymentMethod(SubmittedId(initialPayment), PayPal,
                                         PaymentDetails(None, None, None, None, None, None, Some(data.paypalEmail)), false)
  {
    match CheckField(data.paypalEmail, IsEmail(data.paypalEmail), "PayPal email is required", "Invalid email address")
    case Some(message) => Rejected(message)
    case None =>
      Submitted(PaymentMethod(SubmittedId(initialPayment), PayPal,
                              PaymentDetails(None, None, None, None, None, None, Some(data.paypalEmail)), false))
  }

  /** The record `handleBankTransferSubmit` passes to `onSubmit`: account and
      bank names are validated but not kept. */
  function BankTransferPayment(initialPayment: Option<PaymentMethod>, data: BankTransferFormValues): PaymentMethod
  {
    PaymentMethod(SubmittedId(initialPayment), BankTransfer,
      PaymentDetails(None, None, None, None, Some(data.accountNumber), Some(data.routingNumber), None), false)
  }

  /** The bank-transfer tab. */
  function SubmitBankTransfer(initialPayment: Option<PaymentMethod>, data: BankTransferFormValues): (r: Submission)
    ensures r.Submitted? <==>
              data.accountName != "" && IsAccountNumber(data.accountNumber) &&
              IsRoutingNumber(data.routingNumber) && data.bankName != ""
    ensures r.Submitted? ==> r.payment.kind == BankTransfer && r.payment.id == SubmittedId(initialPayment)
  {
    var checks := [
      CheckField(data.accountName, true, "Account name is required", ""),
      CheckField(data.accountNumber, IsAccountNumber(data.accountNumber), "Account number is required",
                 "Please enter a valid account number"),
      CheckField(data.routingNumber, IsRoutingNumber(data.routingNumber), "Routing number is required",
                 "Please enter a valid 9-digit routing number"),
      CheckField(data.bankName, true, "Bank name is required", "")];
    match FirstError(checks)
    case Some(message) => Rejected(message)
    case None =>
      assert checks[0].None? && checks[1].None? && checks[2].None? && checks[3].None?;
      Submitted(BankTransferPayment(initialPayment, data))
  }

  /** Two bank forms that differ only in the account and bank names submit the
      same record: only the two numbers are kept. */
  lemma BankTransferKeepsOnlyNumbers(initialPayment: Option<PaymentMethod>, a: BankTransferFormValues, b: BankTransferFormValues)
    requires a.accountNumber == b.accountNumber && a.routingNumber == b.routingNumber
    requires SubmitBankTransfer(initialPayment, a).Submitted? && SubmitBankTransfer(initialPayment, b).Submitted?
    ensures SubmitBankTransfer(initialPayment, a) == SubmitBankTransfer(initialPayment, b)
    ensures var d := SubmitBankTransfer(initialPayment, a).payment.details;
            d.accountNumber == Some(a.accountNumber) && d.routingNumber == Some(a.routingNumber) &&
            d.cardNumber.None? && d.cardholderName.None? && d.expiryDate.None? && d.cvv.None? && d.paypalEmail.None?
  {
  }

  /** The first failing rule's message, if any. */
  function FirstError(checks: seq<Option<string>>): (r: Option<string>)
    ensures r.None? <==> forall i :: 0 <= i < |checks| ==> checks[i].None?
  {
    if checks == [] then None
    else if checks[0].Some? then checks[0]
    else FirstError(checks[1..])
  }

  /** The form's starting values when editing `initialPayment`: the card
      number and CVV always start blank. */
  function CreditCardDefaults(initialPayment: Option<PaymentMethod>): (r: CreditCardFormValues)
    ensures r.cardNumber == "" && r.cvv == ""
    ensures initialPayment.None? ==> r.cardholderName == "" && r.expiryDate == ""
  {
    match initialPayment
    case None => CreditCardFormValues("", "", "", "")
    case Some(p) => CreditCardFormValues(p.details.cardholderName.GetOr(""), "", p.details.expiryDate.GetOr(""), "")
  }

  /** The tab shown first: the initial payment's kind, or the card tab. */
  function InitialPaymentType(initialPayment: Option<PaymentMethod>): (r: PaymentType)
    ensures initialPayment.None? ==> r == CreditCard
    ensures initialPayment.Some? ==> r == initialPayment.value.kind
  {
    match initialPayment
    case None => CreditCard
    case Some(p) => p.kind
  }
}
