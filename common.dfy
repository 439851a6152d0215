/** Shared vocabulary of the payment backend: optional values, results,
    the canonical payment-attempt / intent / refund statuses, and the
    decimal rendering that Rust's `to_string` gives an unsigned integer. */
module Common {

  datatype Option<+T> = None | Some(value: T)

  /** A fallible computation (`Result<T, E>` in the source). */
  datatype Result<+T, +E> = Ok(value: T) | Err(error: E)

  /** A fallible computation that yields nothing on success (`Result<(), E>`). */
  datatype Outcome<+E> = Pass | Fail(error: E)

  /** Canonical status of one payment attempt (`common_enums::AttemptStatus`). */
  datatype AttemptStatus =
    | Started
    | AuthenticationFailed
    | RouterDeclined
    | AuthenticationPending
    | AuthenticationSuccessful
    | Authorized
    | AuthorizationFailed
    | Charged
    | Authorizing
    | CodInitiated
    | Voided
    | VoidInitiated
    | CaptureInitiated
    | CaptureFailed
    | VoidFailed
    | AutoRefunded
    | PartialCharged
    | PartialChargedAndChargeable
    | Unresolved
    | Pending
    | Failure
    | PaymentMethodAwaited
    | ConfirmationAwaited
    | DeviceDataCollectionPending

  /** Canonical status of a payment intent (`api_models::enums::IntentStatus`). */
  datatype IntentStatus =
    | Succeeded
    | Failed
    | Cancelled
    | Processing
    | RequiresCustomerAction
    | RequiresMerchantAction
    | RequiresPaymentMethod
    | RequiresConfirmation
    | RequiresCapture
    | PartiallyCaptured
    | PartiallyCapturedAndCapturable

  /** Canonical status of a refund (`enums::RefundStatus`); the constructors carry
      a `Refund` prefix so that they do not clash with the attempt statuses. */
  datatype RefundStatus =
    | RefundFailure
    | RefundManualReview
    | RefundPending
    | RefundSuccess
    | RefundTransactionFailure

  predicate IsDigit(c: char) {
    '0' <= c <= '9'
  }

  predicate AllDigits(s: string) {
    forall i :: 0 <= i < |s| ==> IsDigit(s[i])
  }

  function DigitChar(d: nat): (c: char)
    requires d < 10
    ensures IsDigit(c) && c as int - '0' as int == d
  {
    (d + '0' as int) as char
  }

  /** Decimal rendering of an unsigned integer, without leading zeros. */
  function NatToString(n: nat): (s: string)
    ensures |s| >= 1 && AllDigits(s)
    ensures s[0] == '0' <==> n == 0
    ensures n < 10 <==> |s| == 1
    decreases n
  {
    if n < 10 then [DigitChar(n)] else NatToString(n / 10) + [DigitChar(n % 10)]
  }

  /** Reads back a string of decimal digits; the inverse of NatToString. */
  function ParseDigits(s: string): nat
    requires AllDigits(s)
  {
    if s == [] then 0
    else 10 * ParseDigits(s[..|s| - 1]) + (s[|s| - 1] as int - '0' as int)
  }

  lemma {:induction false} ParseNatToString(n: nat)
    ensures ParseDigits(NatToString(n)) == n
    decreases n
  {
    var s := NatToString(n);
    if n >= 10 {
      ParseNatToString(n / 10);
      assert s[..|s| - 1] == NatToString(n / 10);
    }
  }

  /** Distinct codes are rendered as distinct strings. */
  lemma NatToStringInjective(a: nat, b: nat)
    requires NatToString(a) == NatToString(b)
    ensures a == b
  {
    ParseNatToString(a);
    ParseNatToString(b);
  }
}
