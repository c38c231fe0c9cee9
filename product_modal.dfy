/** The purchase inquiry dialog (src/components/ProductModal.tsx): its form
    schema and the order of the submit handler's guards. */
module ProductModal {

  /** `customer_name: z.string().min(2)` (ProductModal.tsx:11). */
  predicate ValidName(name: string)
  {
    |name| >= 2
  }

  predicate IsDigit(c: char) { '0' <= c <= '9' }

  /** `[1-9]\d{1,14}` matching the whole of `s`. */
  predicate DigitsBody(s: string)
  {
    2 <= |s| <= 15 && '1' <= s[0] <= '9' && forall i :: 1 <= i < |s| ==> IsDigit(s[i])
  }

  /** `phone: z.string().regex(/^\+?[1-9]\d{1,14}$/)` (ProductModal.tsx:12). */
  predicate ValidPhone(phone: string)
  {
    DigitsBody(phone) || (|phone| > 0 && phone[0] == '+' && DigitsBody(phone[1..]))
  }

  /** The digits of a string. */
  function Digits(s: string): (r: string)
    ensures |r| <= |s|
    ensures forall c :: c in r ==> IsDigit(c)
  {
    if s == [] then []
    else (if IsDigit(s[0]) then [s[0]] else []) + Digits(s[1..])
  }

  /** The digits of an all-digit string are the string itself. */
  lemma {:induction false} DigitsOfDigits(s: string)
    requires forall i :: 0 <= i < |s| ==> IsDigit(s[i])
    ensures Digits(s) == s
  {
    if s != [] {
      DigitsOfDigits(s[1..]);
    }
  }

  /** An accepted phone holds 2 to 15 digits, the first of them not 0, and
      nothing else but an optional leading '+'. */
  lemma AcceptedPhoneShape(phone: string)
    requires ValidPhone(phone)
    ensures var d := Digits(phone); 2 <= |d| <= 15 && d[0] != '0'
    ensures forall i :: 0 <= i < |phone| ==> IsDigit(phone[i]) || (i == 0 && phone[i] == '+')
  {
    if DigitsBody(phone) {
      DigitsOfDigits(phone);
    } else {
      DigitsOfDigits(phone[1..]);
      assert phone == [phone[0]] + phone[1..];
    }
  }

  /** A phone with a leading 0 is refused, with or without '+'. */
  lemma LeadingZeroRefused(rest: string)
    ensures !ValidPhone("0" + rest)
    ensures !ValidPhone("+0" + rest)
  {
    assert ("+0" + rest)[1..] == "0" + rest;
  }

  datatype SubmitOutcome = Invalid | NoProduct | InsertFailed | Threw | MessageOpened

  /** What the inquiry insert does: it stores the row, answers with an error
      object, or throws. */
  datatype InsertReply = Stored | ErrorReply | Thrown

  /** The dialog after a submit: what happened and the `isSubmitting` flag.
      The schema is checked before the handler runs; the handler needs a
      product, then a successful inquiry insert, before the outbound message
      is built (ProductModal.tsx:32-82). Only a thrown error clears the flag
      (the catch at :78-81); an error reply returns with it still set. */
  datatype AfterSubmit = AfterSubmit(outcome: SubmitOutcome, isSubmitting: bool)

  function Submit(name: string, phone: string, hasProduct: bool, insert: InsertReply, wasSubmitting: bool): (r: AfterSubmit)
    ensures r.outcome == Invalid <==> !ValidName(name) || !ValidPhone(phone)
    ensures r.outcome == NoProduct <==> ValidName(name) && ValidPhone(phone) && !hasProduct
    ensures r.outcome == InsertFailed <==> ValidName(name) && ValidPhone(phone) && hasProduct && insert == ErrorReply
    ensures r.outcome == Threw <==> ValidName(name) && ValidPhone(phone) && hasProduct && insert == Thrown
    ensures r.outcome == MessageOpened <==> ValidName(name) && ValidPhone(phone) && hasProduct && insert == Stored
    ensures r.outcome == InsertFailed || r.outcome == MessageOpened ==> r.isSubmitting
    ensures r.outcome == Threw ==> !r.isSubmitting
    ensures r.outcome == Invalid || r.outcome == NoProduct ==> r.isSubmitting == wasSubmitting
  {
    if !ValidName(name) || !ValidPhone(phone) then AfterSubmit(Invalid, wasSubmitting)
    else if !hasProduct then AfterSubmit(NoProduct, wasSubmitting)
    else
      match insert
      case ErrorReply => AfterSubmit(InsertFailed, true)
      case Thrown => AfterSubmit(Threw, false)
      case Stored => AfterSubmit(MessageOpened, true)
  }
}
