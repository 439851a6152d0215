/** The HiPay connector's transformers (`connectors/hipay/transformers.rs`):
    the wire status enums and their mapping onto canonical statuses, the
    request bodies built from router data, and the shaping of each connector
    response into the router's status and response-or-error. */
module Hipay {
  import opened Common

  // ---------------------------------------------------------------------------
  // Errors and small wire types

  datatype ConnectorError =
    | NotImplemented(message: string)
    /** `unimplemented_payment_method!(method, connector)` */
    | UnimplementedPaymentMethod(paymentMethod: string, connector: string)
    /** `get_unimplemented_payment_method_error_message(connector)` */
    | SelectedPaymentMethodNotImplemented(connector: string)
    | FailedToObtainAuthType
    /** An error raised by one of the router-data getters, passed through. */
    | GetterFailed(field: string)

  /** `Operation`, serialised in lower case. */
  datatype Operation = Authorization | Sale | Capture | Refund | Cancel

  function OperationName(op: Operation): (name: string)
    ensures name != []
  {
    match op
    case Authorization => "authorization"
    case Sale => "sale"
    case Capture => "capture"
    case Refund => "refund"
    case Cancel => "cancel"
  }

  /** The wire names tell the operations apart. */
  lemma OperationNameInjective(a: Operation, b: Operation)
    requires OperationName(a) == OperationName(b)
    ensures a == b
  {
  }

  // ---------------------------------------------------------------------------
  // Payment status

  /** `HipayPaymentStatus`; each variant travels as its numeric code. */
  datatype HipayPaymentStatus =
    | AuthenticationFailed | Blocked | Denied | AuthorizedAndPending | Refused | Expired
    | Cancelled | Authorized | CaptureRequested | Captured | PartiallyCaptured | ChargedBack
    | CaptureRefused | AwaitingTerminal | AuthorizationCancellationRequested | ChallengeRequested
    | SoftDeclined | PendingPayment | Created | UnableToAuthenticate | CardholderAuthenticated
    | AuthenticationAttempted | CouldNotAuthenticate | Collected | PartiallyCollected | Settled
    | PartiallySettled | AuthenticationRequested | Authenticated | AcquirerNotFound | RiskAccepted
    | AuthorizationRefused

  /** The code each status is (de)serialised as. */
  function PaymentStatusCode(s: HipayPaymentStatus): (code: nat)
    ensures 101 <= code <= 200
  {
    match s
    case AuthenticationFailed => 109
    case Blocked => 110
    case Denied => 111
    case AuthorizedAndPending => 112
    case Refused => 113
    case Expired => 114
    case Cancelled => 115
    case Authorized => 116
    case CaptureRequested => 117
    case Captured => 118
    case PartiallyCaptured => 119
    case ChargedBack => 129
    case CaptureRefused => 173
    case AwaitingTerminal => 174
    case AuthorizationCancellationRequested => 175
    case ChallengeRequested => 177
    case SoftDeclined => 178
    case PendingPayment => 200
    case Created => 101
    case UnableToAuthenticate => 105
    case CardholderAuthenticated => 106
    case AuthenticationAttempted => 107
    case CouldNotAuthenticate => 108
    case Collected => 120
    case PartiallyCollected => 121
    case Settled => 122
    case PartiallySettled => 123
    case AuthenticationRequested => 140
    case Authenticated => 141
    case AcquirerNotFound => 151
    case RiskAccepted => 161
    case AuthorizationRefused => 163
  }

  /** Deserialisation: a code that names no status is rejected. */
  function PaymentStatusFromCode(code: nat): Option<HipayPaymentStatus> {
    match code
    case 109 => Some(HipayPaymentStatus.AuthenticationFailed)
    case 110 => Some(Blocked)
    case 111 => Some(Denied)
    case 112 => Some(AuthorizedAndPending)
    case 113 => Some(Refused)
    case 114 => Some(Expired)
    case 115 => Some(HipayPaymentStatus.Cancelled)
    case 116 => Some(HipayPaymentStatus.Authorized)
    case 117 => Some(CaptureRequested)
    case 118 => Some(Captured)
    case 119 => Some(HipayPaymentStatus.PartiallyCaptured)
    case 129 => Some(ChargedBack)
    case 173 => Some(CaptureRefused)
    case 174 => Some(AwaitingTerminal)
    case 175 => Some(AuthorizationCancellationRequested)
    case 177 => Some(ChallengeRequested)
    case 178 => Some(SoftDeclined)
    case 200 => Some(PendingPayment)
    case 101 => Some(Created)
    case 105 => Some(UnableToAuthenticate)
    case 106 => Some(CardholderAuthenticated)
    case 107 => Some(AuthenticationAttempted)
    case 108 => Some(CouldNotAuthenticate)
    case 120 => Some(Collected)
    case 121 => Some(PartiallyCollected)
    case 122 => Some(Settled)
    case 123 => Some(PartiallySettled)
    case 140 => Some(AuthenticationRequested)
    case 141 => Some(Authenticated)
    case 151 => Some(AcquirerNotFound)
    case 161 => Some(RiskAccepted)
    case 163 => Some(AuthorizationRefused)
    case _ => None
  }

  /** Serialising then deserialising a status gives it back, and the only
      code that deserialises to a status is its own. */
  lemma PaymentStatusCodeRoundTrip(s: HipayPaymentStatus, code: nat)
    ensures PaymentStatusFromCode(PaymentStatusCode(s)) == Some(s)
    ensures PaymentStatusFromCode(code) == Some(s) ==> PaymentStatusCode(s) == code
  {
  }

  /** Statuses the mapping sends to `Failure`. */
  predicate IsFailureStatus(s: HipayPaymentStatus) {
    s in {Blocked, Refused, Expired, Denied, SoftDeclined, ChargedBack, AcquirerNotFound, AuthorizationRefused}
  }

  /** Statuses the mapping sends to `Charged`. */
  predicate IsChargedStatus(s: HipayPaymentStatus) {
    s in {Captured, Collected, PartiallyCollected, Settled, PartiallySettled}
  }

  /** `From<HipayPaymentStatus> for AttemptStatus`. */
  function ToAttemptStatus(s: HipayPaymentStatus): (a: AttemptStatus)
    ensures a == Failure <==> IsFailureStatus(s)
    ensures a == Charged <==> IsChargedStatus(s)
    ensures a == CaptureFailed <==> s == CaptureRefused
    ensures a == AttemptStatus.AuthenticationFailed <==> s in {HipayPaymentStatus.AuthenticationFailed, UnableToAuthenticate, CouldNotAuthenticate}
  {
    match s
    case AuthenticationFailed => AttemptStatus.AuthenticationFailed
    case Blocked => Failure
    case Refused => Failure
    case Expired => Failure
    case Denied => Failure
    case AuthorizedAndPending => Pending
    case Cancelled => Voided
    case Authorized => AttemptStatus.Authorized
    case CaptureRequested => CaptureInitiated
    case Captured => Charged
    case PartiallyCaptured => PartialCharged
    case CaptureRefused => CaptureFailed
    case AwaitingTerminal => Pending
    case AuthorizationCancellationRequested => VoidInitiated
    case ChallengeRequested => AuthenticationPending
    case SoftDeclined => Failure
    case PendingPayment => Pending
    case ChargedBack => Failure
    case Created => Started
    case UnableToAuthenticate => AttemptStatus.AuthenticationFailed
    case CouldNotAuthenticate => AttemptStatus.AuthenticationFailed
    case CardholderAuthenticated => Pending
    case AuthenticationAttempted => AuthenticationPending
    case Collected => Charged
    case PartiallySettled => Charged
    case PartiallyCollected => Charged
    case Settled => Charged
    case AuthenticationRequested => AuthenticationPending
    case Authenticated => AuthenticationSuccessful
    case AcquirerNotFound => Failure
    case RiskAccepted => Pending
    case AuthorizationRefused => Failure
  }

  /** State codes the sync endpoint reports for a failed payment. */
  const SyncFailureCodes: set<int> := {10, 11, 13, 14, 29, 51, 63, 78}

  /** Every state code `get_sync_status` names. */
  const KnownSyncCodes: set<int> :=
    {9, 10, 11, 12, 13, 14, 15, 16, 17, 18, 19, 29, 73, 74, 75, 77, 78, 200,
     1, 5, 6, 7, 8, 20, 21, 22, 23, 40, 41, 51, 61, 63}

  /** `get_sync_status`: the sync endpoint's numeric state; anything not listed is a failure. */
  function GetSyncStatus(state: int): (a: AttemptStatus)
    ensures a == Charged <==> state in {18, 20, 21, 22, 23}
    ensures a == Failure <==> state in SyncFailureCodes || state !in KnownSyncCodes
  {
    match state
    case 9 => AttemptStatus.AuthenticationFailed
    case 10 => Failure
    case 11 => Failure
    case 12 => Pending
    case 13 => Failure
    case 14 => Failure
    case 15 => Voided
    case 16 => AttemptStatus.Authorized
    case 17 => CaptureInitiated
    case 18 => Charged
    case 19 => PartialCharged
    case 29 => Failure
    case 73 => CaptureFailed
    case 74 => Pending
    case 75 => VoidInitiated
    case 77 => AuthenticationPending
    case 78 => Failure
    case 200 => Pending
    case 1 => Started
    case 5 => AttemptStatus.AuthenticationFailed
    case 6 => Pending
    case 7 => AuthenticationPending
    case 8 => AttemptStatus.AuthenticationFailed
    case 20 => Charged
    case 21 => Charged
    case 22 => Charged
    case 23 => Charged
    case 40 => AuthenticationPending
    case 41 => AuthenticationSuccessful
    case 51 => Failure
    case 61 => Pending
    case 63 => Failure
    case _ => Failure
  }

  /** A bridge between the two status tables, not a conversion the connector
      performs: the sync table's numeric states line up with the payment-status
      codes less 100 (pending-payment, which has no sync state of its own, is
      sent to 200). */
  function SyncStateCode(s: HipayPaymentStatus): (code: int)
    ensures s != PendingPayment ==> code + 100 == PaymentStatusCode(s)
  {
    if s == PendingPayment then 200 else PaymentStatusCode(s) - 100
  }

  /** The two status tables agree: reading a status through the sync endpoint's
      code gives the same canonical status as the payment-status mapping. */
  lemma SyncStatusAgreesWithPaymentStatus(s: HipayPaymentStatus)
    ensures GetSyncStatus(SyncStateCode(s)) == ToAttemptStatus(s)
    ensures SyncStateCode(s) in KnownSyncCodes
  {
  }

  // ---------------------------------------------------------------------------
  // Refund status

  /** Hipay's `RefundStatus`, travelling as codes 124, 125, 126 and 165. */
  datatype HipayRefundStatus = RefundRequested | Refunded | PartiallyRefunded | RefundRefused

  function RefundStatusCode(s: HipayRefundStatus): (code: nat)
    ensures code == 165 || 124 <= code <= 126
  {
    match s
    case RefundRequested => 124
    case Refunded => 125
    case PartiallyRefunded => 126
    case RefundRefused => 165
  }

  /** `From<RefundStatus> for enums::RefundStatus`. */
  function ToRefundStatus(s: HipayRefundStatus): (r: RefundStatus)
    ensures r == RefundSuccess <==> s in {Refunded, PartiallyRefunded}
    ensures r == RefundFailure <==> s == RefundRefused
    ensures r == RefundPending <==> s == RefundRequested
  {
    match s
    case RefundRequested => RefundPending
    case Refunded => RefundSuccess
    case PartiallyRefunded => RefundSuccess
    case RefundRefused => RefundFailure
  }

  /** The numeric refund status of a refund-sync reply; unknown codes stay pending. */
  function RSyncRefundStatus(status: nat): (r: RefundStatus)
    ensures r == RefundSuccess <==> status in {25, 26}
    ensures r == RefundFailure <==> status == 65
    ensures r == RefundPending <==> status !in {25, 26, 65}
  {
    match status
    case 25 => RefundSuccess
    case 26 => RefundSuccess
    case 65 => RefundFailure
    case 24 => RefundPending
    case _ => RefundPending
  }

  /** Refund sync and refund execution agree on every refund status (code less 100). */
  lemma RSyncAgreesWithRefundStatus(s: HipayRefundStatus)
    ensures RSyncRefundStatus(RefundStatusCode(s) - 100) == ToRefundStatus(s)
  {
  }

  // ---------------------------------------------------------------------------
  // Card network and payment product

  datatype CardNetwork =
    | Visa | Mastercard | AmericanExpress | JCB | DinersClub | Discover | CartesBancaires
    | UnionPay | Interac | RuPay | Maestro | Star | Accel | Pulse | Nyce

  /** The product name for a card brand string, for the brands the table knows. */
  function BrandProduct(brand: string): (p: Option<string>)
    ensures p.Some? <==> brand in {"VISA", "MASTERCARD", "MAESTRO", "AMERICAN EXPRESS", "CB", "BCMC"}
  {
    if brand == "VISA" then Some("visa")
    else if brand == "MASTERCARD" then Some("mastercard")
    else if brand == "MAESTRO" then Some("maestro")
    else if brand == "AMERICAN EXPRESS" then Some("american-express")
    else if brand == "CB" then Some("cb")
    else if brand == "BCMC" then Some("bcmc")
    else None
  }

  /** The product name for the card's own network; the US debit networks and
      an unknown network give the empty name. */
  function NetworkProduct(network: Option<CardNetwork>): (p: string)
    ensures p == [] <==> network.None? || network.value in {Star, Accel, Pulse, Nyce}
  {
    match network
    case Some(Visa) => "visa"
    case Some(Mastercard) => "mastercard"
    case Some(AmericanExpress) => "american-express"
    case Some(JCB) => "jcb"
    case Some(DinersClub) => "diners"
    case Some(Discover) => "discover"
    case Some(CartesBancaires) => "cb"
    case Some(UnionPay) => "unionpay"
    case Some(Interac) => "interac"
    case Some(RuPay) => "rupay"
    case Some(Maestro) => "maestro"
    case _ => ""
  }

  /** `payment_product`: the domestic network wins, then a recognised brand
      from the tokenisation reply, then the card's own network. */
  function PaymentProduct(domesticNetwork: Option<string>, brand: Option<string>, network: Option<CardNetwork>): (p: string)
    ensures domesticNetwork.Some? ==> p == domesticNetwork.value
    ensures domesticNetwork.None? && brand.Some? && BrandProduct(brand.value).Some? ==> p == BrandProduct(brand.value).value
    ensures domesticNetwork.None? && (brand.None? || BrandProduct(brand.value).None?) ==> p == NetworkProduct(network)
  {
    match (domesticNetwork, brand)
    case (Some(domestic), _) => domestic
    case (None, Some(b)) => if BrandProduct(b).Some? then BrandProduct(b).value else NetworkProduct(network)
    case (None, None) => NetworkProduct(network)
  }

  /** The brand a network is reported under, where the brand table knows it. */
  function NetworkBrand(n: CardNetwork): Option<string> {
    match n
    case Visa => Some("VISA")
    case Mastercard => Some("MASTERCARD")
    case Maestro => Some("MAESTRO")
    case AmericanExpress => Some("AMERICAN EXPRESS")
    case CartesBancaires => Some("CB")
    case _ => None
  }

  /** The brand table and the network table name the same product wherever
      both apply, so a brand that agrees with the card's network never changes
      the product. */
  lemma BrandAndNetworkTablesAgree(n: CardNetwork)
    requires NetworkBrand(n).Some?
    ensures BrandProduct(NetworkBrand(n).value) == Some(NetworkProduct(Some(n)))
    ensures PaymentProduct(None, NetworkBrand(n), Some(n)) == PaymentProduct(None, None, Some(n))
  {
  }

  // ---------------------------------------------------------------------------
  // Browser info

  datatype BrowserInformation = BrowserInformation(
    javaEnabled: Option<bool>, javaScriptEnabled: Option<bool>, ipAddress: Option<string>,
    acceptHeader: Option<string>, userAgent: Option<string>, language: Option<string>,
    colorDepth: Option<nat>, screenHeight: Option<nat>, screenWidth: Option<nat>, timeZone: Option<int>)

  datatype HipayBrowserInfo = HipayBrowserInfo(
    javaEnabled: Option<bool>, javascriptEnabled: Option<bool>, ipaddr: Option<string>,
    httpAccept: string, httpUserAgent: Option<string>, language: Option<string>,
    colorDepth: Option<nat>, screenHeight: Option<nat>, screenWidth: Option<nat>, timezone: Option<int>)

  /** `From<BrowserInformation> for HipayBrowserInfo`: the accept header sent is
      always the wildcard, whatever the browser reported (two browsers that
      differ only in their accept header are described identically); the rest
      is copied. */
  function BrowserInfoFrom(b: BrowserInformation): (h: HipayBrowserInfo)
    ensures h.httpAccept == "*/*"
    ensures h.javaEnabled == b.javaEnabled && h.javascriptEnabled == b.javaScriptEnabled && h.ipaddr == b.ipAddress
    ensures h.httpUserAgent == b.userAgent && h.language == b.language && h.colorDepth == b.colorDepth
    ensures h.screenHeight == b.screenHeight && h.screenWidth == b.screenWidth && h.timezone == b.timeZone
  {
    HipayBrowserInfo(b.javaEnabled, b.javaScriptEnabled, b.ipAddress, "*/*", b.userAgent, b.language,
                     b.colorDepth, b.screenHeight, b.screenWidth, b.timeZone)
  }

  // ---------------------------------------------------------------------------
  // Payments (authorize) request

  datatype CardDetails = CardDetails(
    cardNumber: string, cardExpMonth: string, cardExpYear: string, cardCvc: string, cardNetwork: Option<CardNetwork>)

  datatype PaymentMethodData = Card(card: CardDetails) | OtherPaymentMethod(kind: string)

  datatype PaymentMethodToken = Token(token: string) | ApplePayDecrypt | PazeDecrypt | GooglePayDecrypt

  /** The card part of the additional payment-method data stored with the
      attempt (absent, or not a card, is `None`). */
  datatype CardConnectorResponse = CardConnectorResponse(cardNetwork: Option<string>, domesticNetwork: Option<string>)

  datatype Address = Address(
    firstName: Option<string>, lastName: Option<string>, line1: Option<string>, city: Option<string>,
    zip: Option<string>, state: Option<string>, country: Option<string>)

  /** The router data an authorize request is built from. The getters of the
      router data (`is_auto_capture`, `get_payment_method_token`,
      `get_billing_address`, the e-mail getters, `get_browser_info`) can fail
      and appear as `Result`s. */
  datatype AuthorizeRouterData = AuthorizeRouterData(
    amount: string, connectorResponse: Option<CardConnectorResponse>, paymentMethodData: PaymentMethodData,
    autoCapture: Result<bool, ConnectorError>, threeDs: bool,
    paymentMethodToken: Result<PaymentMethodToken, ConnectorError>, connectorRequestReferenceId: string,
    currency: string, description: Option<string>, routerReturnUrl: Option<string>,
    billingAddress: Result<Address, ConnectorError>, billingEmail: Result<string, ConnectorError>,
    requestEmail: Result<string, ConnectorError>, browserInfo: Result<BrowserInformation, ConnectorError>)

  datatype ThreeDsPaymentData = ThreeDsPaymentData(
    firstname: Option<string>, lastname: Option<string>, email: Option<string>, streetaddress: Option<string>,
    city: Option<string>, zipcode: Option<string>, state: Option<string>, country: Option<string>,
    browserInfo: Option<HipayBrowserInfo>)

  datatype HipayPaymentsRequest = HipayPaymentsRequest(
    operation: Operation, authenticationIndicator: nat, cardtoken: string, orderid: string, currency: string,
    paymentProduct: string, amount: string, description: string, declineUrl: Option<string>,
    pendingUrl: Option<string>, cancelUrl: Option<string>, acceptUrl: Option<string>, notifyUrl: Option<string>,
    threeDsData: Option<ThreeDsPaymentData>)

  const DefaultDescription: string := "Short Description"

  /** The card token, or the error for a decrypted wallet token. */
  function CardToken(t: PaymentMethodToken): (r: Result<string, ConnectorError>)
    ensures t.Token? ==> r == Ok(t.token)
    ensures t.ApplePayDecrypt? ==> r == Err(UnimplementedPaymentMethod("Apple Pay", "Hipay"))
    ensures t.PazeDecrypt? ==> r == Err(UnimplementedPaymentMethod("Paze", "Hipay"))
    ensures t.GooglePayDecrypt? ==> r == Err(UnimplementedPaymentMethod("Google Pay", "Hipay"))
  {
    match t
    case Token(token) => Ok(token)
    case ApplePayDecrypt => Err(UnimplementedPaymentMethod("Apple Pay", "Hipay"))
    case PazeDecrypt => Err(UnimplementedPaymentMethod("Paze", "Hipay"))
    case GooglePayDecrypt => Err(UnimplementedPaymentMethod("Google Pay", "Hipay"))
  }

  /** The 3-D Secure block: billing address first, then an e-mail (billing, else
      the request's), then the browser info; the first failure is returned. */
  function ThreeDsData(item: AuthorizeRouterData): (r: Result<ThreeDsPaymentData, ConnectorError>)
    ensures item.billingAddress.Err? ==> r == Err(item.billingAddress.error)
    // `.or`: with both e-mail getters failing, the request's error is the one reported
    ensures item.billingAddress.Ok? && item.billingEmail.Err? && item.requestEmail.Err?
            ==> r == Err(item.requestEmail.error)
    ensures item.billingAddress.Ok? && (item.billingEmail.Ok? || item.requestEmail.Ok?) && item.browserInfo.Err?
            ==> r == Err(item.browserInfo.error)
    ensures r.Ok? <==> item.billingAddress.Ok? && (item.billingEmail.Ok? || item.requestEmail.Ok?) && item.browserInfo.Ok?
    ensures r.Ok? ==>
      var address := item.billingAddress.value;
      && r.value.email == Some(if item.billingEmail.Ok? then item.billingEmail.value else item.requestEmail.value)
      && r.value.browserInfo == Some(BrowserInfoFrom(item.browserInfo.value))
      && r.value.firstname == address.firstName && r.value.lastname == address.lastName
      && r.value.streetaddress == address.line1 && r.value.city == address.city
      && r.value.zipcode == address.zip && r.value.state == address.state && r.value.country == address.country
  {
    match item.billingAddress
    case Err(e) => Err(e)
    case Ok(address) =>
      var email := if item.billingEmail.Ok? then item.billingEmail else item.requestEmail;
      match email
      case Err(e) => Err(e)
      case Ok(mail) =>
        match item.browserInfo
        case Err(e) => Err(e)
        case Ok(browser) =>
          Ok(ThreeDsPaymentData(address.firstName, address.lastName, Some(mail), address.line1, address.city,
                                address.zip, address.state, address.country, Some(BrowserInfoFrom(browser))))
  }

  /** `TryFrom<&HipayRouterData<&PaymentsAuthorizeRouterData>> for HipayPaymentsRequest`. */
  function BuildPaymentsRequest(item: AuthorizeRouterData): (r: Result<HipayPaymentsRequest, ConnectorError>)
    // only cards are supported
    ensures item.paymentMethodData.OtherPaymentMethod? ==> r == Err(NotImplemented("Payment method"))
    // errors surface in field order: capture method, token, then the 3-D Secure block
    ensures item.paymentMethodData.Card? && item.autoCapture.Err? ==> r == Err(item.autoCapture.error)
    ensures item.paymentMethodData.Card? && item.autoCapture.Ok? && item.paymentMethodToken.Err?
            ==> r == Err(item.paymentMethodToken.error)
    ensures item.paymentMethodData.Card? && item.autoCapture.Ok? && item.paymentMethodToken.Ok?
            ==> (r.Err? <==> CardToken(item.paymentMethodToken.value).Err? || (item.threeDs && ThreeDsData(item).Err?))
    ensures item.paymentMethodData.Card? && item.autoCapture.Ok? && item.paymentMethodToken.Ok?
            && CardToken(item.paymentMethodToken.value).Err?
            ==> r == Err(CardToken(item.paymentMethodToken.value).error)
    ensures item.paymentMethodData.Card? && item.autoCapture.Ok? && item.paymentMethodToken.Ok?
            && CardToken(item.paymentMethodToken.value).Ok? && item.threeDs && ThreeDsData(item).Err?
            ==> r == Err(ThreeDsData(item).error)
    ensures r.Ok? ==>
      var q := r.value;
      && item.paymentMethodData.Card? && item.autoCapture.Ok?
      && (q.operation == Sale <==> item.autoCapture.value)
      && (q.operation == Authorization <==> !item.autoCapture.value)
      && (q.authenticationIndicator == 2 <==> item.threeDs)
      && (q.authenticationIndicator == 0 <==> !item.threeDs)
      && (q.threeDsData.Some? <==> item.threeDs)
      && (item.threeDs ==> ThreeDsData(item).Ok? && q.threeDsData == Some(ThreeDsData(item).value))
      // the stored card data (domestic network, then brand) and the card's own network decide the product
      && q.paymentProduct == PaymentProduct(
           if item.connectorResponse.Some? then item.connectorResponse.value.domesticNetwork else None,
           if item.connectorResponse.Some? then item.connectorResponse.value.cardNetwork else None,
           item.paymentMethodData.card.cardNetwork)
      && item.paymentMethodToken == Ok(Token(q.cardtoken))
      && q.orderid == item.connectorRequestReferenceId && q.amount == item.amount && q.currency == item.currency
      && q.description == (if item.description.Some? then item.description.value else DefaultDescription)
      && q.declineUrl == q.pendingUrl == q.cancelUrl == q.acceptUrl == q.notifyUrl == item.routerReturnUrl
  {
    var cardResponse := if item.connectorResponse.Some? then item.connectorResponse.value
                        else CardConnectorResponse(None, None);
    match item.paymentMethodData
    case OtherPaymentMethod(_) => Err(NotImplemented("Payment method"))
    case Card(card) =>
      match item.autoCapture
      case Err(e) => Err(e)
      case Ok(autoCapture) =>
        match item.paymentMethodToken
        case Err(e) => Err(e)
        case Ok(token) =>
          match CardToken(token)
          case Err(e) => Err(e)
          case Ok(cardtoken) =>
            if item.threeDs && ThreeDsData(item).Err? then Err(ThreeDsData(item).error)
            else
              Ok(HipayPaymentsRequest(
                if autoCapture then Sale else Authorization,
                if item.threeDs then 2 else 0,
                cardtoken,
                item.connectorRequestReferenceId,
                item.currency,
                PaymentProduct(cardResponse.domesticNetwork, cardResponse.cardNetwork, card.cardNetwork),
                item.amount,
                if item.description.Some? then item.description.value else DefaultDescription,
                item.routerReturnUrl, item.routerReturnUrl, item.routerReturnUrl, item.routerReturnUrl,
                item.routerReturnUrl,
                if item.threeDs then Some(ThreeDsData(item).value) else None))
  }

  // ---------------------------------------------------------------------------
  // Tokenisation request and response

  datatype TokenizationRouterData = TokenizationRouterData(
    paymentMethodData: PaymentMethodData, billingFullName: Result<string, ConnectorError>)

  datatype HipayTokenRequest = HipayTokenRequest(
    cardNumber: string, cardExpiryMonth: string, cardExpiryYear: string, cardHolder: string, cvc: string)

  /** `get_expiry_year_4_digit`: a two-digit year is read as 20xx. */
  function ExpiryYearFourDigit(year: string): (y: string)
    ensures |year| == 2 ==> y == "20" + year && |y| == 4
    ensures |year| != 2 ==> y == year
  {
    if |year| == 2 then "20" + year else year
  }

  /** `TryFrom<&TokenizationRouterData> for HiPayTokenRequest`. */
  function BuildTokenRequest(item: TokenizationRouterData): (r: Result<HipayTokenRequest, ConnectorError>)
    ensures item.paymentMethodData.OtherPaymentMethod? ==> r == Err(SelectedPaymentMethodNotImplemented("Hipay"))
    ensures item.paymentMethodData.Card? && item.billingFullName.Err? ==> r == Err(item.billingFullName.error)
    ensures r.Ok? <==> item.paymentMethodData.Card? && item.billingFullName.Ok?
    ensures r.Ok? ==>
      var card := item.paymentMethodData.card;
      && r.value.cardNumber == card.cardNumber && r.value.cardExpiryMonth == card.cardExpMonth
      && r.value.cardExpiryYear == ExpiryYearFourDigit(card.cardExpYear)
      && r.value.cardHolder == item.billingFullName.value && r.value.cvc == card.cardCvc
  {
    match item.paymentMethodData
    case OtherPaymentMethod(_) => Err(SelectedPaymentMethodNotImplemented("Hipay"))
    case Card(card) =>
      match item.billingFullName
      case Err(e) => Err(e)
      case Ok(holder) =>
        Ok(HipayTokenRequest(card.cardNumber, card.cardExpMonth, ExpiryYearFourDigit(card.cardExpYear), holder, card.cardCvc))
  }

  datatype HipayTokenResponse = HipayTokenResponse(token: string, brand: string, domesticNetwork: Option<string>)

  /** The tokenisation reply: the token becomes the response and the brand and
      domestic network are kept as the card's additional data. */
  function TokenResponse(resp: HipayTokenResponse): (r: (string, CardConnectorResponse))
    ensures r.0 == resp.token
    ensures r.1.cardNetwork == Some(resp.brand) && r.1.domesticNetwork == resp.domesticNetwork
  {
    (resp.token, CardConnectorResponse(Some(resp.brand), resp.domesticNetwork))
  }

  /** What the tokenisation reply stored decides the product of the later
      authorize request: its domestic network if any, else its brand when the
      table knows it, else the card's own network. */
  lemma TokenReplyDecidesProduct(resp: HipayTokenResponse, item: AuthorizeRouterData)
    requires item.connectorResponse == Some(TokenResponse(resp).1)
    requires BuildPaymentsRequest(item).Ok?
    ensures var p := BuildPaymentsRequest(item).value.paymentProduct;
      && (resp.domesticNetwork.Some? ==> p == resp.domesticNetwork.value)
      && (resp.domesticNetwork.None? && BrandProduct(resp.brand).Some? ==> p == BrandProduct(resp.brand).value)
      && (resp.domesticNetwork.None? && BrandProduct(resp.brand).None? ==> p == NetworkProduct(item.paymentMethodData.card.cardNetwork))
  {
  }

  // ---------------------------------------------------------------------------
  // Authentication

  datatype ConnectorAuthType =
    | HeaderKey(apiKey: string)
    | BodyKey(apiKey: string, key1: string)
    | SignatureKey(apiKey: string, key1: string, apiSecret: string)
    | MultiAuthKey(apiKey: string, key1: string, apiSecret: string, key2: string)
    | NoKey

  datatype HipayAuthType = HipayAuthType(apiKey: string, key1: string)

  /** `TryFrom<&ConnectorAuthType> for HipayAuthType`: only a body key is accepted. */
  function HipayAuthTypeFrom(auth: ConnectorAuthType): (r: Result<HipayAuthType, ConnectorError>)
    ensures r.Ok? <==> auth.BodyKey?
    ensures r.Ok? ==> r.value.apiKey == auth.apiKey && r.value.key1 == auth.key1
    ensures r.Err? ==> r.error == FailedToObtainAuthType
  {
    match auth
    case BodyKey(apiKey, key1) => Ok(HipayAuthType(apiKey, key1))
    case _ => Err(FailedToObtainAuthType)
  }

  // ---------------------------------------------------------------------------
  // Maintenance (capture, cancel, refund) requests

  datatype HipayMaintenanceRequest = HipayMaintenanceRequest(
    operation: Operation, currency: Option<string>, amount: Option<string>)

  function RefundRequest(amount: string, currency: string): (q: HipayMaintenanceRequest)
    ensures q.operation == Refund && q.amount == Some(amount) && q.currency == Some(currency)
  {
    HipayMaintenanceRequest(Refund, Some(currency), Some(amount))
  }

  function CaptureRequest(amount: string, currency: string): (q: HipayMaintenanceRequest)
    ensures q.operation == Capture && q.amount == Some(amount) && q.currency == Some(currency)
  {
    HipayMaintenanceRequest(Capture, Some(currency), Some(amount))
  }

  /** A cancel carries no amount, and the currency only when the request has one. */
  function CancelRequest(currency: Option<string>): (q: HipayMaintenanceRequest)
    ensures q.operation == Cancel && q.amount.None? && q.currency == currency
  {
    HipayMaintenanceRequest(Cancel, currency, None)
  }

  // ---------------------------------------------------------------------------
  // Responses

  const NoErrorCode: string := "No error code"
  const NoErrorMessage: string := "No error message"

  datatype ResponseId = ConnectorTransactionId(id: string) | NoResponseId

  /** A redirect to `endpoint` by GET with no form fields. */
  datatype RedirectForm = RedirectGet(endpoint: string)

  datatype PaymentsResponseData = TransactionResponse(resourceId: ResponseId, redirection: Option<RedirectForm>)

  datatype ErrorResponse = ErrorResponse(
    code: string, message: string, reason: Option<string>, connectorTransactionId: Option<string>, statusCode: int)

  /** What a response transformer writes back into the router data. */
  datatype PaymentsUpdate = PaymentsUpdate(status: AttemptStatus, response: Result<PaymentsResponseData, ErrorResponse>)

  datatype HipayPaymentsResponse = HipayPaymentsResponse(
    status: HipayPaymentStatus, message: string, orderId: string, forwardUrl: string, transactionReference: string)

  /** The authorize reply: a failure status becomes an error carrying the
      message and the transaction reference; otherwise the reference is the
      resource id, with a redirect to the forward URL exactly under 3-D Secure. */
  function AuthorizeResponse(resp: HipayPaymentsResponse, threeDs: bool, httpCode: int): (u: PaymentsUpdate)
    ensures u.status == ToAttemptStatus(resp.status)
    ensures u.response.Err? <==> IsFailureStatus(resp.status)
    ensures u.response.Err? ==>
      u.response.error == ErrorResponse(NoErrorCode, resp.message, Some(resp.message), Some(resp.transactionReference), httpCode)
    ensures u.response.Ok? ==>
      && u.response.value.resourceId == ConnectorTransactionId(resp.transactionReference)
      && (u.response.value.redirection.Some? <==> threeDs)
      && (threeDs ==> u.response.value.redirection == Some(RedirectGet(resp.forwardUrl)))
  {
    var status := ToAttemptStatus(resp.status);
    if status == Failure then
      PaymentsUpdate(status, Err(ErrorResponse(NoErrorCode, resp.message, Some(resp.message),
                                               Some(resp.transactionReference), httpCode)))
    else
      PaymentsUpdate(status, Ok(TransactionResponse(ConnectorTransactionId(resp.transactionReference),
                                                    if threeDs then Some(RedirectGet(resp.forwardUrl)) else None)))
  }

  datatype HipayMaintenanceResponse<S> = HipayMaintenanceResponse(status: S, message: string, transactionReference: string)

  /** The capture and the cancel reply (the same shaping): the mapped status and
      the reference as resource id, and never an error response, even when the
      status is a failure: a refused capture is a `CaptureFailed` attempt with
      an `Ok` response. */
  function MaintenanceResponse(resp: HipayMaintenanceResponse<HipayPaymentStatus>): (u: PaymentsUpdate)
    ensures u.status == ToAttemptStatus(resp.status)
    ensures u.response == Ok(TransactionResponse(ConnectorTransactionId(resp.transactionReference), None))
  {
    PaymentsUpdate(ToAttemptStatus(resp.status), Ok(TransactionResponse(ConnectorTransactionId(resp.transactionReference), None)))
  }

  datatype RefundsResponseData = RefundsResponseData(connectorRefundId: string, refundStatus: RefundStatus)

  /** The refund-execute reply. */
  function RefundExecuteResponse(resp: HipayMaintenanceResponse<HipayRefundStatus>): (r: RefundsResponseData)
    ensures r.connectorRefundId == resp.transactionReference
    ensures r.refundStatus == ToRefundStatus(resp.status)
  {
    RefundsResponseData(resp.transactionReference, ToRefundStatus(resp.status))
  }

  datatype RefundSyncResponse = RefundSyncResponse(id: nat, status: nat)

  /** The refund-sync reply: the numeric id rendered in decimal and the
      numeric status mapped. */
  function RefundSyncResponseData(resp: RefundSyncResponse): (r: RefundsResponseData)
    ensures AllDigits(r.connectorRefundId) && ParseDigits(r.connectorRefundId) == resp.id
    ensures r.refundStatus == RSyncRefundStatus(resp.status)
  {
    ParseNatToString(resp.id);
    RefundsResponseData(NatToString(resp.id), RSyncRefundStatus(resp.status))
  }

  /** Distinct refund ids from the sync endpoint stay distinct once rendered. */
  lemma RefundSyncIdsDistinct(a: RefundSyncResponse, b: RefundSyncResponse)
    requires a.id != b.id
    ensures RefundSyncResponseData(a).connectorRefundId != RefundSyncResponseData(b).connectorRefundId
  {
    if NatToString(a.id) == NatToString(b.id) {
      NatToStringInjective(a.id, b.id);
    }
  }

  datatype Reason = Reason(reason: Option<string>, code: Option<nat>)

  /** `HipaySyncResponse`: a state with its reason, or an error object. */
  datatype HipaySyncResponse = SyncState(status: int, reason: Reason) | SyncError(message: string, code: nat)

  /** The payment-sync reply. An error object is a failure carrying its code
      and message; a state is mapped, and a failure state carries the reason's
      code and text (or the stock placeholders); nothing carries an id. */
  function SyncResponse(resp: HipaySyncResponse, httpCode: int): (u: PaymentsUpdate)
    ensures resp.SyncError? ==>
      && u.status == Failure
      && u.response == Err(ErrorResponse(NatToString(resp.code), resp.message, Some(resp.message), None, httpCode))
    ensures resp.SyncState? ==> u.status == GetSyncStatus(resp.status)
    ensures u.response.Err? <==> u.status == Failure
    ensures resp.SyncState? && u.response.Err? ==>
      && u.response.error.code == (if resp.reason.code.Some? then NatToString(resp.reason.code.value) else NoErrorCode)
      && u.response.error.message == (if resp.reason.reason.Some? then resp.reason.reason.value else NoErrorMessage)
      && u.response.error.reason == Some(u.response.error.message)
      && u.response.error.connectorTransactionId.None?
    ensures u.response.Ok? ==> u.response.value == TransactionResponse(NoResponseId, None)
  {
    match resp
    case SyncError(message, code) =>
      PaymentsUpdate(Failure, Err(ErrorResponse(NatToString(code), message, Some(message), None, httpCode)))
    case SyncState(state, reason) =>
      var status := GetSyncStatus(state);
      if status == Failure then
        var code := if reason.code.Some? then NatToString(reason.code.value) else NoErrorCode;
        var message := if reason.reason.Some? then reason.reason.value else NoErrorMessage;
        PaymentsUpdate(status, Err(ErrorResponse(code, message, Some(message), None, httpCode)))
      else
        PaymentsUpdate(status, Ok(TransactionResponse(NoResponseId, None)))
  }

  /** A numeric reason code is never confused with the placeholder code. */
  lemma SyncErrorCodeIsNumericOrPlaceholder(resp: HipaySyncResponse, httpCode: int)
    requires SyncResponse(resp, httpCode).response.Err?
    ensures var code := SyncResponse(resp, httpCode).response.error.code;
            AllDigits(code) != (code == NoErrorCode)
  {
    assert !IsDigit(NoErrorCode[0]);
  }
}
