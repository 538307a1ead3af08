/** The app's domain values: accounts, feed items, amounts and savings goals. */
module Models {
  import opened Wrappers
  import opened Numerics

  /** A `UUID`: 128 bits, compared by value. */
  datatype UUID = UUID(bits: bv128)

  /** A Foundation `Date`, its seconds since the reference date (a `Double`, only ever copied). */
  datatype Date = Date(timeIntervalSinceReferenceDate: real)

  /** An amount of money in the minor units of a currency. */
  datatype CurrencyAndAmount = CurrencyAndAmount(currency: string, minorUnits: Int64)

  datatype SavingsGoal = SavingsGoal(id: UUID)

  // ---------------------------------------------------------------------
  // AccountFeedItem

  datatype Direction = Inbound | Outbound

  /**
   * The kind of transaction behind a feed item. Its raw value is the wire
   * name listed at the case's position in `SourceRawValues`.
   */
  datatype Source =
    | BritishBusinessBankFees
    | CardFeeCharge
    | CashDeposit
    | CashDepositCharge
    | CashWithdrawal
    | CashWithdrawalCharge
    | Chaps
    | Cheque
    | CicsCheque
    | CurrencyCloud
    | DirectCredit
    | DirectDebit
    | DirectDebitDispute
    | InternalTransfer
    | MasterCard
    | MastercardMoneysend
    | MastercardChargeback
    | MissedPaymentFee
    | FasterPaymentsIn
    | FasterPaymentsOut
    | FasterPaymentsReversal
    | StripeFunding
    | InterestPayment
    | NostroDeposit
    | Overdraft
    | OverdraftInterestWaived
    | FasterPaymentsRefund
    | StarlingPayStripe
    | OnUsPayMe
    | LoanPrincipalPayment
    | LoanRepayment
    | LoanOverpayment
    | LoanLatePayment
    | LoanFeePayment
    | LoanInterestCharge
    | SepaCreditTransfer
    | SepaDirectDebit
    | Target2CustomerPayment
    | FxTransfer
    | IssPayment
    | StarlingPayment
    | SubscriptionCharge
    | OverdraftFee
    | WithheldTax
    | ErrorsAndOmissions
    | InterestV2Payment
  {
    /** The position of the case in its declaration. */
    function Ordinal(): (k: nat)
      ensures k < SourceCount
    {
      match this
      case BritishBusinessBankFees => 0
      case CardFeeCharge => 1
      case CashDeposit => 2
      case CashDepositCharge => 3
      case CashWithdrawal => 4
      case CashWithdrawalCharge => 5
      case Chaps => 6
      case Cheque => 7
      case CicsCheque => 8
      case CurrencyCloud => 9
      case DirectCredit => 10
      case DirectDebit => 11
      case DirectDebitDispute => 12
      case InternalTransfer => 13
      case MasterCard => 14
      case MastercardMoneysend => 15
      case MastercardChargeback => 16
      case MissedPaymentFee => 17
      case FasterPaymentsIn => 18
      case FasterPaymentsOut => 19
      case FasterPaymentsReversal => 20
      case StripeFunding => 21
      case InterestPayment => 22
      case NostroDeposit => 23
      case Overdraft => 24
      case OverdraftInterestWaived => 25
      case FasterPaymentsRefund => 26
      case StarlingPayStripe => 27
      case OnUsPayMe => 28
      case LoanPrincipalPayment => 29
      case LoanRepayment => 30
      case LoanOverpayment => 31
      case LoanLatePayment => 32
      case LoanFeePayment => 33
      case LoanInterestCharge => 34
      case SepaCreditTransfer => 35
      case SepaDirectDebit => 36
      case Target2CustomerPayment => 37
      case FxTransfer => 38
      case IssPayment => 39
      case StarlingPayment => 40
      case SubscriptionCharge => 41
      case OverdraftFee => 42
      case WithheldTax => 43
      case ErrorsAndOmissions => 44
      case InterestV2Payment => 45
    }

    function RawValue(): string {
      SourceRawValues[Ordinal()]
    }
  }

  /** The number of cases of `Source`. */
  const SourceCount: nat := 46

  /** The wire names of the cases of `Source`, in declaration order. */
  const SourceRawValues: seq<string> := [
    "BRITISH_BUSINESS_BANK_FEES",
    "CARD_FEE_CHARGE",
    "CASH_DEPOSIT",
    "CASH_DEPOSIT_CHARGE",
    "CASH_WITHDRAWAL",
    "CASH_WITHDRAWAL_CHARGE",
    "CHAPS",
    "CHEQUE",
    "CICS_CHEQUE",
    "CURRENCY_CLOUD",
    "DIRECT_CREDIT",
    "DIRECT_DEBIT",
    "DIRECT_DEBIT_DISPUTE",
    "INTERNAL_TRANSFER",
    "MASTER_CARD",
    "MASTERCARD_MONEYSEND",
    "MASTERCARD_CHARGEBACK",
    "MISSED_PAYMENT_FEE",
    "FASTER_PAYMENTS_IN",
    "FASTER_PAYMENTS_OUT",
    "FASTER_PAYMENTS_REVERSAL",
    "STRIPE_FUNDING",
    "INTEREST_PAYMENT",
    "NOSTRO_DEPOSIT",
    "OVERDRAFT",
    "OVERDRAFT_INTEREST_WAIVED",
    "FASTER_PAYMENTS_REFUND",
    "STARLING_PAY_STRIPE",
    "ON_US_PAY_ME",
    "LOAN_PRINCIPAL_PAYMENT",
    "LOAN_REPAYMENT",
    "LOAN_OVERPAYMENT",
    "LOAN_LATE_PAYMENT",
    "LOAN_FEE_PAYMENT",
    "LOAN_INTEREST_CHARGE",
    "SEPA_CREDIT_TRANSFER",
    "SEPA_DIRECT_DEBIT",
    "TARGET2_CUSTOMER_PAYMENT",
    "FX_TRANSFER",
    "ISS_PAYMENT",
    "STARLING_PAYMENT",
    "SUBSCRIPTION_CHARGE",
    "OVERDRAFT_FEE",
    "WITHHELD_TAX",
    "ERRORS_AND_OMISSIONS",
    "INTEREST_V2_PAYMENT"
  ]

  /** The case declared at position `k`, for `k < SourceCount`. */
  function SourceAt(k: nat): Source
  {
    match k
    case 0 => BritishBusinessBankFees
    case 1 => CardFeeCharge
    case 2 => CashDeposit
    case 3 => CashDepositCharge
    case 4 => CashWithdrawal
    case 5 => CashWithdrawalCharge
    case 6 => Chaps
    case 7 => Cheque
    case 8 => CicsCheque
    case 9 => CurrencyCloud
    case 10 => DirectCredit
    case 11 => DirectDebit
    case 12 => DirectDebitDispute
    case 13 => InternalTransfer
    case 14 => MasterCard
    case 15 => MastercardMoneysend
    case 16 => MastercardChargeback
    case 17 => MissedPaymentFee
    case 18 => FasterPaymentsIn
    case 19 => FasterPaymentsOut
    case 20 => FasterPaymentsReversal
    case 21 => StripeFunding
    case 22 => InterestPayment
    case 23 => NostroDeposit
    case 24 => Overdraft
    case 25 => OverdraftInterestWaived
    case 26 => FasterPaymentsRefund
    case 27 => StarlingPayStripe
    case 28 => OnUsPayMe
    case 29 => LoanPrincipalPayment
    case 30 => LoanRepayment
    case 31 => LoanOverpayment
    case 32 => LoanLatePayment
    case 33 => LoanFeePayment
    case 34 => LoanInterestCharge
    case 35 => SepaCreditTransfer
    case 36 => SepaDirectDebit
    case 37 => Target2CustomerPayment
    case 38 => FxTransfer
    case 39 => IssPayment
    case 40 => StarlingPayment
    case 41 => SubscriptionCharge
    case 42 => OverdraftFee
    case 43 => WithheldTax
    case 44 => ErrorsAndOmissions
    case _ => InterestV2Payment
  }

  // `SourceAt` inverts `Ordinal` on one stretch of positions at a time, which
  // keeps each case analysis small; `SourceAtOrdinal` puts the stretches together.

  lemma SourceAtOrdinal8(k: nat)
    requires 0 <= k < 8
    ensures SourceAt(k).Ordinal() == k
  {
  }

  lemma SourceAtOrdinal16(k: nat)
    requires 8 <= k < 16
    ensures SourceAt(k).Ordinal() == k
  {
  }

  lemma SourceAtOrdinal22(k: nat)
    requires 16 <= k < 22
    ensures SourceAt(k).Ordinal() == k
  {
  }

  lemma SourceAtOrdinal28(k: nat)
    requires 22 <= k < 28
    ensures SourceAt(k).Ordinal() == k
  {
  }

  lemma SourceAtOrdinal34(k: nat)
    requires 28 <= k < 34
    ensures SourceAt(k).Ordinal() == k
  {
  }

  lemma SourceAtOrdinal40(k: nat)
    requires 34 <= k < 40
    ensures SourceAt(k).Ordinal() == k
  {
  }

  lemma SourceAtOrdinal46(k: nat)
    requires 40 <= k < 46
    ensures SourceAt(k).Ordinal() == k
  {
  }

  /** `SourceAt` undoes `Ordinal`: the case at position `k` sits at position `k`. */
  lemma SourceAtOrdinal(k: nat)
    requires k < SourceCount
    ensures SourceAt(k).Ordinal() == k
    ensures SourceAt(k).RawValue() == SourceRawValues[k]
  {
    if k < 8 {
      SourceAtOrdinal8(k);
    } else if k < 16 {
      SourceAtOrdinal16(k);
    } else if k < 22 {
      SourceAtOrdinal22(k);
    } else if k < 28 {
      SourceAtOrdinal28(k);
    } else if k < 34 {
      SourceAtOrdinal34(k);
    } else if k < 40 {
      SourceAtOrdinal40(k);
    } else {
      SourceAtOrdinal46(k);
    }
  }

  /** No case among `caseAt(lo)`, ..., `caseAt(hi - 1)` has the raw value `raw`. */
  predicate NoneWithRawValue<T>(caseAt: nat -> T, rawValue: T -> string, lo: nat, hi: nat, raw: string) {
    forall j: nat | lo <= j < hi :: rawValue(caseAt(j)) != raw
  }

  /**
   * The first of the cases `caseAt(k)`, ..., `caseAt(count - 1)` whose raw
   * value is `raw`: the search a raw-value enum initialiser performs.
   */
  function FirstWithRawValue<T>(caseAt: nat -> T, rawValue: T -> string, k: nat, count: nat, raw: string): (r: Option<T>)
    requires k <= count
    ensures r.Some? ==> rawValue(r.value) == raw
    ensures r.Some? ==> exists j: nat | k <= j < count :: r.value == caseAt(j) && NoneWithRawValue(caseAt, rawValue, k, j, raw)
    ensures r.None? <==> NoneWithRawValue(caseAt, rawValue, k, count, raw)
    decreases count - k
  {
    if k == count then None
    else if rawValue(caseAt(k)) == raw then
      assert NoneWithRawValue(caseAt, rawValue, k, k, raw);
      Some(caseAt(k))
    else
      var r := FirstWithRawValue(caseAt, rawValue, k + 1, count, raw);
      assert forall j: nat | k + 1 <= j <= count ::
        NoneWithRawValue(caseAt, rawValue, k + 1, j, raw) ==> NoneWithRawValue(caseAt, rawValue, k, j, raw);
      r
  }

  /** `Source(rawValue:)`: the case named `raw`, or `nil` when no case has that name. */
  function SourceFromRawValue(raw: string): (r: Option<Source>)
    ensures r.Some? ==> r.value.RawValue() == raw
    ensures r.None? <==> raw !in SourceRawValues
    ensures r.None? <==> forall s: Source :: s.RawValue() != raw
  {
    var r := FirstWithRawValue(SourceAt, (s: Source) => s.RawValue(), 0, SourceCount, raw);
    if r.None? then
      assert raw !in SourceRawValues by {
        forall k: nat | k < SourceCount ensures SourceRawValues[k] != raw {
          SourceAtOrdinal(k);
        }
      }
      r
    else
      r
  }

  datatype AccountFeedItem = AccountFeedItem(
    id: UUID,
    direction: Direction,
    reference: Option<string>,
    amount: Option<CurrencyAndAmount>,
    source: Option<Source>,
    transactionTime: Option<Date>
  )

  // ---------------------------------------------------------------------
  // Account

  datatype AccountType = Primary | Additional | Loan | FixedTermDeposit
  {
    function RawValue(): string {
      match this
      case Primary => "PRIMARY"
      case Additional => "ADDITIONAL"
      case Loan => "LOAN"
      case FixedTermDeposit => "FIXED_TERM_DEPOSIT"
    }

    /**
     * The label shown to the user: the raw value in word case, each `_`
     * becoming a space and each word keeping only its first capital.
     */
    function Description(): (text: string)
      ensures |text| == |RawValue()|
      ensures forall i | 0 <= i < |text| :: text[i] == WordCased(RawValue(), i)
    {
      match this
      case Primary => "Primary"
      case Additional => "Additional"
      case FixedTermDeposit => "Fixed Term Deposit"
      case Loan => "Loan"
    }
  }

  /** An ASCII capital letter in lower case; any other character unchanged. */
  function Lower(c: char): char {
    if 'A' <= c <= 'Z' then (c as int + 32) as char else c
  }

  /**
   * The `i`-th character of `raw` in word case: `_` becomes a space, a
   * character starting a word is kept and any other is lowered.
   */
  function WordCased(raw: string, i: nat): char
    requires i < |raw|
  {
    if raw[i] == '_' then ' '
    else if i == 0 || raw[i - 1] == '_' then raw[i]
    else Lower(raw[i])
  }

  /** `AccountType(rawValue:)`. */
  function AccountTypeFromRawValue(raw: string): (r: Option<AccountType>)
    ensures r.Some? ==> r.value.RawValue() == raw
    ensures r.None? <==> forall t: AccountType :: t.RawValue() != raw
  {
    if raw == "PRIMARY" then Some(Primary)
    else if raw == "ADDITIONAL" then Some(Additional)
    else if raw == "LOAN" then Some(Loan)
    else if raw == "FIXED_TERM_DEPOSIT" then Some(FixedTermDeposit)
    else None
  }

  /** Raw values and labels are both one-to-one, and every raw value reads back as its case. */
  lemma AccountTypeNamesDistinct(a: AccountType, b: AccountType)
    ensures a.RawValue() == b.RawValue() ==> a == b
    ensures a.Description() == b.Description() ==> a == b
    ensures AccountTypeFromRawValue(a.RawValue()) == Some(a)
  {
  }

  datatype Account = Account(
    id: UUID,
    accountType: AccountType,
    defaultCategory: string,
    createdAt: Date,
    name: string,
    currency: string
  )

  /** `Account.init`: `currency` defaults to "GBP" when the caller leaves it out. */
  function NewAccount(
    accountID: UUID,
    accountType: AccountType,
    defaultCategory: string,
    createdAt: Date,
    name: string,
    currency: string := "GBP"
  ): (a: Account)
    ensures a.id == accountID && a.accountType == accountType && a.defaultCategory == defaultCategory
    ensures a.createdAt == createdAt && a.name == name && a.currency == currency
  {
    Account(accountID, accountType, defaultCategory, createdAt, name, currency)
  }

  lemma NewAccountDefaultsToPounds(accountID: UUID, accountType: AccountType, defaultCategory: string, createdAt: Date, name: string)
    ensures NewAccount(accountID, accountType, defaultCategory, createdAt, name).currency == "GBP"
  {
  }
}
