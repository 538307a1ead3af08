/**
 * The feed-item record of the account-feed response, its mapping to the
 * domain `AccountFeedItem`, and the keyed decoding of `CurrencyAndAmount`.
 */
module AccountFeedOutput {
  import opened Wrappers
  import opened Numerics
  import Models

  // ---------------------------------------------------------------------
  // Keyed JSON containers and the CurrencyAndAmount coding keys

  /** A JSON value as a keyed container holds it. */
  datatype JsonValue = JsonString(text: string) | JsonNumber(number: int) | JsonBool(flag: bool) | JsonNull

  /** A keyed decoding or encoding container: the members of one JSON object. */
  type KeyedContainer = map<string, JsonValue>

  const CurrencyKey: string := "currency"
  const MinorUnitsKey: string := "minorUnits"

  /** Why `container.decode(_:forKey:)` throws. */
  datatype DecodingError =
    | KeyNotFound(key: string)
    | ValueNotFound(key: string)
    | TypeMismatch(key: string)
    | DataCorrupted(key: string)

  /** `container.decode(String.self, forKey: key)`. */
  function DecodeString(container: KeyedContainer, key: string): (r: Result<string, DecodingError>)
    ensures r.Success? <==> key in container && container[key].JsonString?
    ensures r.Success? ==> r.value == container[key].text
  {
    if key !in container then Failure(KeyNotFound(key))
    else match container[key]
      case JsonString(text) => Success(text)
      case JsonNull => Failure(ValueNotFound(key))
      case _ => Failure(TypeMismatch(key))
  }

  /** `container.decode(Int.self, forKey: key)`: a JSON number that must fit in `Int`. */
  function DecodeInt(container: KeyedContainer, key: string): (r: Result<Int64, DecodingError>)
    ensures r.Success? <==> key in container && container[key].JsonNumber? && InInt64Range(container[key].number)
    ensures r.Success? ==> r.value as int == container[key].number
  {
    if key !in container then Failure(KeyNotFound(key))
    else match container[key]
      case JsonNumber(n) => if InInt64Range(n) then Success(n as Int64) else Failure(DataCorrupted(key))
      case JsonNull => Failure(ValueNotFound(key))
      case _ => Failure(TypeMismatch(key))
  }

  /**
   * `CurrencyAndAmount.init(from:)`: reads "currency", then "minorUnits", and
   * copies them; the first failing read is the error thrown.
   */
  function DecodeCurrencyAndAmount(container: KeyedContainer): (r: Result<Models.CurrencyAndAmount, DecodingError>)
    ensures r.Success? <==> DecodeString(container, CurrencyKey).Success? && DecodeInt(container, MinorUnitsKey).Success?
    ensures r.Success? ==> && r.value.currency == container[CurrencyKey].text
                           && r.value.minorUnits as int == container[MinorUnitsKey].number
    ensures DecodeString(container, CurrencyKey).Failure? ==> r == Failure(DecodeString(container, CurrencyKey).error)
    ensures DecodeString(container, CurrencyKey).Success? && DecodeInt(container, MinorUnitsKey).Failure? ==>
              r == Failure(DecodeInt(container, MinorUnitsKey).error)
  {
    match DecodeString(container, CurrencyKey)
    case Failure(e) => Failure(e)
    case Success(currency) =>
      match DecodeInt(container, MinorUnitsKey)
      case Failure(e) => Failure(e)
      case Success(minorUnits) => Success(Models.CurrencyAndAmount(currency, minorUnits))
  }

  /** Decoding looks at the keys "currency" and "minorUnits" and at nothing else. */
  lemma DecodeReadsOnlyCodingKeys(c1: KeyedContainer, c2: KeyedContainer)
    requires forall k | k == CurrencyKey || k == MinorUnitsKey :: (k in c1 <==> k in c2) && (k in c1 ==> c1[k] == c2[k])
    ensures DecodeCurrencyAndAmount(c1) == DecodeCurrencyAndAmount(c2)
  {
  }

  // ---------------------------------------------------------------------
  // The feed-item record

  /** The direction field: money in or out. */
  datatype Direction = In | Out
  {
    function RawValue(): string {
      match this
      case In => "IN"
      case Out => "OUT"
    }
  }

  /**
   * The source field: the kind of transaction. Its raw value is the wire
   * name listed at the case's position in `SourceRawValues`.
   */
  datatype Source =
    | BritishBusinessBankFees
    | CardFeeCharge
    | CashDeposit
    | CashDepositCharge
    | CashWithdrawal
    | CashWithdrawalCharge
    | Chaps
    | Cheque
    | CicsCheque
    | CurrencyCloud
    | DirectCredit
    | DirectDebit
    | DirectDebitDispute
    | InternalTransfer
    | MasterCard
    | MastercardMoneysend
    | MastercardChargeback
    | MissedPaymentFee
    | FasterPaymentsIn
    | FasterPaymentsOut
    | FasterPaymentsReversal
    | StripeFunding
    | InterestPayment
    | NostroDeposit
    | Overdraft
    | OverdraftInterestWaived
    | FasterPaymentsRefund
    | StarlingPayStripe
    | OnUsPayMe
    | LoanPrincipalPayment
    | LoanRepayment
    | LoanOverpayment
    | LoanLatePayment
    | LoanFeePayment
    | LoanInterestCharge
    | SepaCreditTransfer
    | SepaDirectDebit
    | Target2CustomerPayment
    | FxTransfer
    | IssPayment
    | StarlingPayment
    | SubscriptionCharge
    | OverdraftFee
    | WithheldTax
    | ErrorsAndOmissions
    | InterestV2Payment
  {
    /** The position of the case in its declaration. */
    function Ordinal(): (k: nat)
      ensures k < |SourceRawValues|
    {
      match this
      case BritishBusinessBankFees => 0
      case CardFeeCharge => 1
      case CashDeposit => 2
      case CashDepositCharge => 3
      case CashWithdrawal => 4
      case CashWithdrawalCharge => 5
      case Chaps => 6
      case Cheque => 7
      case CicsCheque => 8
      case CurrencyCloud => 9
      case DirectCredit => 10
      case DirectDebit => 11
      case DirectDebitDispute => 12
      case InternalTransfer => 13
      case MasterCard => 14
      case MastercardMoneysend => 15
      case MastercardChargeback => 16
      case MissedPaymentFee => 17
      case FasterPaymentsIn => 18
      case FasterPaymentsOut => 19
      case FasterPaymentsReversal => 20
      case StripeFunding => 21
      case InterestPayment => 22
      case NostroDeposit => 23
      case Overdraft => 24
      case OverdraftInterestWaived => 25
      case FasterPaymentsRefund => 26
      case StarlingPayStripe => 27
      case OnUsPayMe => 28
      case LoanPrincipalPayment => 29
      case LoanRepayment => 30
      case LoanOverpayment => 31
      case LoanLatePayment => 32
      case LoanFeePayment => 33
      case LoanInterestCharge => 34
      case SepaCreditTransfer => 35
      case SepaDirectDebit => 36
      case Target2CustomerPayment => 37
      case FxTransfer => 38
      case IssPayment => 39
      case StarlingPayment => 40
      case SubscriptionCharge => 41
      case OverdraftFee => 42
      case WithheldTax => 43
      case ErrorsAndOmissions => 44
      case InterestV2Payment => 45
    }

    function RawValue(): string {
      SourceRawValues[Ordinal()]
    }
  }

  /** The wire names of the cases of `Source`, in declaration order. */
  const SourceRawValues: seq<string> := [
    "BRITISH_BUSINESS_BANK_FEES",
    "CARD_FEE_CHARGE",
    "CASH_DEPOSIT",
    "CASH_DEPOSIT_CHARGE",
    "CASH_WITHDRAWAL",
    "CASH_WITHDRAWAL_CHARGE",
    "CHAPS",
    "CHEQUE",
    "CICS_CHEQUE",
    "CURRENCY_CLOUD",
    "DIRECT_CREDIT",
    "DIRECT_DEBIT",
    "DIRECT_DEBIT_DISPUTE",
    "INTERNAL_TRANSFER",
    "MASTER_CARD",
    "MASTERCARD_MONEYSEND",
    "MASTERCARD_CHARGEBACK",
    "MISSED_PAYMENT_FEE",
    "FASTER_PAYMENTS_IN",
    "FASTER_PAYMENTS_OUT",
    "FASTER_PAYMENTS_REVERSAL",
    "STRIPE_FUNDING",
    "INTEREST_PAYMENT",
    "NOSTRO_DEPOSIT",
    "OVERDRAFT",
    "OVERDRAFT_INTEREST_WAIVED",
    "FASTER_PAYMENTS_REFUND",
    "STARLING_PAY_STRIPE",
    "ON_US_PAY_ME",
    "LOAN_PRINCIPAL_PAYMENT",
    "LOAN_REPAYMENT",
    "LOAN_OVERPAYMENT",
    "LOAN_LATE_PAYMENT",
    "LOAN_FEE_PAYMENT",
    "LOAN_INTEREST_CHARGE",
    "SEPA_CREDIT_TRANSFER",
    "SEPA_DIRECT_DEBIT",
    "TARGET2_CUSTOMER_PAYMENT",
    "FX_TRANSFER",
    "ISS_PAYMENT",
    "STARLING_PAYMENT",
    "SUBSCRIPTION_CHARGE",
    "OVERDRAFT_FEE",
    "WITHHELD_TAX",
    "ERRORS_AND_OMISSIONS",
    "INTEREST_V2_PAYMENT"
  ]

  /** The sourceSubType field (read, never used). */
  datatype SourceSubType =
    | Contactless
    | MagneticStrip
    | ManualKeyEntry
    | ChipAndPin
    | Online
    | Atm
    | CreditAuth
    | ApplePay
    | ApplePayOnline
    | AndroidPay
    | AndroidPayOnline
    | FitbitPay
    | GarminPay
    | SamsungPay
    | OtherWallet
    | CardSubscription
    | NotApplicable
    | Unknown
    | Deposit
    | Overdraft
    | SettleUp
    | Nearby
    | TransferSameCurrency
    | NewCard
    | NewCardOverseas
  {
    function RawValue(): string {
      match this
      case Contactless => "CONTACTLESS"
      case MagneticStrip => "MAGNETIC_STRIP"
      case ManualKeyEntry => "MANUAL_KEY_ENTRY"
      case ChipAndPin => "CHIP_AND_PIN"
      case Online => "ONLINE"
      case Atm => "ATM"
      case CreditAuth => "CREDIT_AUTH"
      case ApplePay => "APPLE_PAY"
      case ApplePayOnline => "APPLE_PAY_ONLINE"
      case AndroidPay => "ANDROID_PAY"
      case AndroidPayOnline => "ANDROID_PAY_ONLINE"
      case FitbitPay => "FITBIT_PAY"
      case GarminPay => "GARMIN_PAY"
      case SamsungPay => "SAMSUNG_PAY"
      case OtherWallet => "OTHER_WALLET"
      case CardSubscription => "CARD_SUBSCRIPTION"
      case NotApplicable => "NOT_APPLICABLE"
      case Unknown => "UNKNOWN"
      case Deposit => "DEPOSIT"
      case Overdraft => "OVERDRAFT"
      case SettleUp => "SETTLE_UP"
      case Nearby => "NEARBY"
      case TransferSameCurrency => "TRANSFER_SAME_CURRENCY"
      case NewCard => "NEW_CARD"
      case NewCardOverseas => "NEW_CARD_OVERSEAS"
    }
  }

  /** The status field (read, never used). */
  datatype Status =
    | Upcoming
    | UpcomingCancelled
    | Pending
    | Reversed
    | Settled
    | Declined
    | Refunded
    | Retrying
    | AccountCheck
  {
    function RawValue(): string {
      match this
      case Upcoming => "UPCOMING"
      case UpcomingCancelled => "UPCOMING_CANCELLED"
      case Pending => "PENDING"
      case Reversed => "REVERSED"
      case Settled => "SETTLED"
      case Declined => "DECLINED"
      case Refunded => "REFUNDED"
      case Retrying => "RETRYING"
      case AccountCheck => "ACCOUNT_CHECK"
    }
  }

  /** The counterPartyType field (read, never used). */
  datatype CounterPartyType =
    | Category
    | Cheque
    | Customer
    | Payee
    | Merchant
    | Sender
    | Starling
    | Loan
  {
    function RawValue(): string {
      match this
      case Category => "CATEGORY"
      case Cheque => "CHEQUE"
      case Customer => "CUSTOMER"
      case Payee => "PAYEE"
      case Merchant => "MERCHANT"
      case Sender => "SENDER"
      case Starling => "STARLING"
      case Loan => "LOAN"
    }
  }

  datatype AssociatedFeedRoundUp = AssociatedFeedRoundUp(
    goalCategoryID: Option<Models.UUID>,
    amount: Option<Models.CurrencyAndAmount>
  )

  /** One element of `feedItems`; every field may be absent. */
  datatype FeedItem = FeedItem(
    feedItemID: Option<Models.UUID>,
    categoryID: Option<Models.UUID>,
    amount: Option<Models.CurrencyAndAmount>,
    sourceAmount: Option<Models.CurrencyAndAmount>,
    direction: Option<Direction>,
    updatedAt: Option<Models.Date>,
    transactionTime: Option<Models.Date>,
    settlementTime: Option<Models.Date>,
    retryAllocationUntilTime: Option<Models.Date>,
    source: Option<Source>,
    sourceSubType: Option<SourceSubType>,
    status: Option<Status>,
    transactingApplicationUserID: Option<string>,
    counterPartyType: Option<CounterPartyType>,
    counterPartyID: Option<Models.UUID>,
    counterPartyName: Option<string>,
    counterPartySubEntityID: Option<Models.UUID>,
    counterPartySubEntityName: Option<string>,
    counterPartySubEntityIdentifier: Option<string>,
    counterPartySubEntitySubIdentifier: Option<string>,
    exchangeRate: Option<real>,
    totalFees: Option<real>,
    totalFeeAmount: Option<Models.CurrencyAndAmount>,
    reference: Option<string>,
    country: Option<string>,
    spendingCategory: Option<string>,
    userNote: Option<string>,
    roundUp: Option<AssociatedFeedRoundUp>,
    hasAttachment: Option<bool>,
    hasReceipt: Option<bool>
  )

  datatype GetAccountFeedOutput = GetAccountFeedOutput(feedItems: seq<FeedItem>)

  // ---------------------------------------------------------------------
  // Mapping to the domain

  /** `AccountFeedItem.Direction.init(direction:)`. */
  function ToDirection(d: Direction): (r: Models.Direction)
    ensures r.Inbound? <==> d.In?
  {
    match d
    case In => Models.Inbound
    case Out => Models.Outbound
  }

  /** The direction mapping is one-to-one and onto. */
  lemma DirectionBijective(a: Direction, b: Direction, m: Models.Direction)
    ensures ToDirection(a) == ToDirection(b) ==> a == b
    ensures exists d: Direction :: ToDirection(d) == m
  {
    if m.Inbound? {
      assert ToDirection(In) == m;
    } else {
      assert ToDirection(Out) == m;
    }
  }

  /** `AccountFeedItem.Source.init?(source:)`: the domain case with the same raw value. */
  function ToSource(s: Source): (r: Option<Models.Source>)
    ensures r.Some? ==> r.value.RawValue() == s.RawValue()
  {
    Models.SourceFromRawValue(s.RawValue())
  }

  /** The record's enum and the domain enum list the same 46 wire names, in the same order. */
  lemma SameSourceRawValues()
    ensures SourceRawValues == Models.SourceRawValues
  {
  }

  /** Both enums list the same raw values, so the mapping never yields `nil`. */
  lemma SourceMappingTotal(s: Source)
    ensures ToSource(s).Some? && ToSource(s).value.RawValue() == s.RawValue()
  {
    SameSourceRawValues();
  }

  /**
   * `AccountFeedItem.init?(item:)`: `nil` exactly when the id or the direction
   * is missing; otherwise the id, reference, amount and transaction time are
   * copied, the direction is mapped, and a present source is mapped by raw value.
   */
  function ToAccountFeedItem(item: FeedItem): (r: Option<Models.AccountFeedItem>)
    ensures r.None? <==> item.feedItemID.None? || item.direction.None?
    ensures r.Some? ==> && r.value.id == item.feedItemID.value
                        && r.value.direction == ToDirection(item.direction.value)
                        && r.value.reference == item.reference
                        && r.value.amount == item.amount
                        && r.value.transactionTime == item.transactionTime
    ensures r.Some? ==> (r.value.source.Some? <==> item.source.Some?)
    ensures r.Some? && item.source.Some? ==> r.value.source.value.RawValue() == item.source.value.RawValue()
  {
    if item.feedItemID.None? || item.direction.None? then None
    else
      var source := if item.source.Some? then ToSource(item.source.value) else None;
      if item.source.Some? then
        SourceMappingTotal(item.source.value);
        Some(Models.AccountFeedItem(item.feedItemID.value, ToDirection(item.direction.value), item.reference, item.amount, source, item.transactionTime))
      else
        Some(Models.AccountFeedItem(item.feedItemID.value, ToDirection(item.direction.value), item.reference, item.amount, source, item.transactionTime))
  }

  /**
   * Only six fields are read: records that agree on them map to the same
   * item, whatever their status, counterparty or round-up fields say.
   */
  lemma ToAccountFeedItemReadsSixFields(a: FeedItem, b: FeedItem)
    requires a.feedItemID == b.feedItemID && a.direction == b.direction && a.reference == b.reference
    requires a.amount == b.amount && a.source == b.source && a.transactionTime == b.transactionTime
    ensures ToAccountFeedItem(a) == ToAccountFeedItem(b)
  {
  }
}
