/** The account record of the accounts response and its mapping to the domain `Account`. */
module AccountsOutput {
  import opened Wrappers
  import Models

  /** The accountType field: the record's own copy of the four account kinds. */
  datatype AccountType = Primary | Additional | Loan | FixedTermDeposit
  {
    function RawValue(): string {
      match this
      case Primary => "PRIMARY"
      case Additional => "ADDITIONAL"
      case Loan => "LOAN"
      case FixedTermDeposit => "FIXED_TERM_DEPOSIT"
    }
  }

  /** One element of `accounts`; every field may be absent. */
  datatype AccountRecord = AccountRecord(
    accountID: Option<Models.UUID>,
    accountType: Option<AccountType>,
    defaultCategory: Option<string>,
    createdAt: Option<Models.Date>,
    name: Option<string>,
    currency: Option<string>
  )

  datatype GetAccountsOutput = GetAccountsOutput(accounts: seq<AccountRecord>)

  /**
   * `Account.AccountType.init?(from:)`: the domain case with the same raw
   * value. Both enums list the same four names, so it never yields `nil`.
   */
  function ToAccountType(t: AccountType): (r: Option<Models.AccountType>)
    ensures r.Some? && r.value.RawValue() == t.RawValue()
  {
    Models.AccountTypeFromRawValue(t.RawValue())
  }

  /** The account-type mapping is one-to-one and reaches every domain case. */
  lemma ToAccountTypeBijective(a: AccountType, b: AccountType, m: Models.AccountType)
    ensures ToAccountType(a) == ToAccountType(b) ==> a == b
    ensures exists t: AccountType :: ToAccountType(t) == Some(m)
  {
    match m
    case Primary => assert ToAccountType(Primary) == Some(m);
    case Additional => assert ToAccountType(Additional) == Some(m);
    case Loan => assert ToAccountType(Loan) == Some(m);
    case FixedTermDeposit => assert ToAccountType(FixedTermDeposit) == Some(m);
  }

  /** Every field is present, so the guard in `Account.init?(from:)` can pass. */
  predicate Complete(record: AccountRecord) {
    && record.accountID.Some?
    && record.accountType.Some?
    && record.defaultCategory.Some?
    && record.createdAt.Some?
    && record.name.Some?
    && record.currency.Some?
  }

  /**
   * `Account.init?(from:)`: `nil` exactly when one of the six fields is
   * missing; otherwise all six are copied, the currency from the record.
   */
  function ToAccount(record: AccountRecord): (r: Option<Models.Account>)
    ensures r.Some? <==> Complete(record)
    ensures r.Some? ==> && r.value.id == record.accountID.value
                        && r.value.accountType.RawValue() == record.accountType.value.RawValue()
                        && r.value.defaultCategory == record.defaultCategory.value
                        && r.value.createdAt == record.createdAt.value
                        && r.value.name == record.name.value
                        && r.value.currency == record.currency.value
  {
    if record.accountID.None? || record.accountType.None? then None
    else
      var accountType := ToAccountType(record.accountType.value);
      if accountType.None? || record.defaultCategory.None? || record.createdAt.None?
         || record.name.None? || record.currency.None?
      then None
      else
        Some(Models.NewAccount(
          record.accountID.value,
          accountType.value,
          record.defaultCategory.value,
          record.createdAt.value,
          record.name.value,
          record.currency.value))
  }

  /** The mapped currency is the record's, whatever it is, and never the "GBP" default in its place. */
  lemma ToAccountKeepsCurrency(record: AccountRecord, currency: string)
    requires Complete(record) && record.currency == Some(currency)
    ensures ToAccount(record).Some? && ToAccount(record).value.currency == currency
  {
  }
}
