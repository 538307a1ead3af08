/**
 * The API client's own account value, the one `getAccounts()` returns and
 * the data-load feature hands to its parent. It is a different type from
 * the domain `Models.Account`: its id is a plain string and it has no
 * currency.
 */
module APIAccounts {
  import Models

  /** `Account.AccountType`; only carried, so its raw values are not modelled. */
  datatype AccountType = Primary | Additional | Loan | FixedTermDeposit

  datatype Account = Account(
    accountID: string,
    accountType: AccountType,
    defaultCategory: string,
    createdAt: Models.Date,
    name: string)
}
