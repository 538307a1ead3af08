# StarlingTechChallenge core, modelled in Dafny

This project models the small, sequential logic of an iOS banking client for the Starling API:

- the round-up arithmetic behind "round up the week's spending into a savings goal";
- the data-load reducer, which loads the account list, shows a loading flag and reports failures;
- the mapping of the API's response records (feed items, accounts, savings goals) to the app's domain values;
- the keyed JSON decoding and encoding of `CurrencyAndAmount`;
- the API and app error types and the text they describe themselves with;
- the bearer-token header;
- the title and subtitle of a feed row.

One Dafny module covers each source file or component:

| module | file | models |
|---|---|---|
| `IntExtensions` | `int_extensions.dfy` | `Int.roundUpToNearestHundred()` over 64-bit `Int`, with truncating division |
| `DataLoadFeature` | `data_load.dfy` | the `DataLoad` reducer: a class with the two state fields, and its effects as the action sequences they send |
| `APIAccounts` | `api_account.dfy` | the API client's own `Account`, the payload the data-load feature receives and hands on (a string id and no currency, unlike the domain `Account`) |
| `AccountFeedOutput` | `feed_output.dfy` | the feed-item record, `AccountFeedItem.init?(item:)`, the direction and source mappings, and `CurrencyAndAmount.init(from:)` |
| `TransferInput` | `transfer_input.dfy` | `CurrencyAndAmount.encode(to:)` as a method filling a keyed container |
| `AccountsOutput` | `accounts_output.dfy` | `Account.init?(from:)` and `AccountType.init?(from:)` |
| `SavingsGoalOutput` | `savings_goal_output.dfy` | `SavingsGoal.init?(output:)` and `SavingsGoal.init?(goal:)` |
| `APIErrors` | `api_error.dfy` | `APIError.init?(response:data:)` and `errorDescription` |
| `AppErrors` | `app_error.dfy` | `AppError`'s identifiers, `ErrorSource.description` and `errorDescription` |
| `HTTPHeaders` | `http_headers.dfy` | the header names and values, and `bearer(jwt:)` |
| `FeedItemText` | `feed_item_text.dfy` | `AccountFeedItem.title` and `subtitle` |
| `Models` | `models.dfy` | the domain values: `AccountFeedItem` with its `Source` enum, `Account` with its `AccountType`, `CurrencyAndAmount`, `SavingsGoal` |
| `Numerics`, `Text`, `Wrappers` | `numerics.dfy`, `text.dfy`, `wrappers.dfy` | Swift's `Int` range, truncating `/`, `"\(n)"`, `joined(separator:)`, `split(separator:)`, and `Option`/`Result` |

Swift's `Int` is the newtype `Numerics.Int64`; arithmetic that could trap carries a precondition.
Optional fields are `Option`; a thrown decoding error is a `Result` failure.
A `UUID` is 128 bits and a `Date` is its `Double` offset as a `real`; both are only copied.
Each description builder in the source (`ErrorSource.description`, both `errorDescription`s and the feed row's `subtitle`) appends to a local array of parts and then joins it.
Each is modelled twice: a method that appends in the same way, and a function stating the resulting text, which the lemmas use.

## Model

| member | source | states |
|---|---|---|
| IntExtensions.RoundUpToNearestHundred | Sources/Utils/Extensions/Int+Extensions.swift:4-6 | callers must keep `x <= Int.max - 99`, where `self + 99` traps; the result is a multiple of 100 and at least `x`; it is at most `x + 99` when `x >= -99`, and between `x + 99` and `x + 198` below that, because `/` truncates toward zero; together these fix the result for every `x` |
| Numerics.TruncDiv | Sources/Utils/Extensions/Int+Extensions.swift:5 | Swift's `/` by a positive divisor: the remainder lies in `[0, b)` for a non-negative dividend and in `(-b, 0]` for a negative one |
| IntExtensions.RoundUpIsCeiling | Sources/Utils/Extensions/Int+Extensions.swift:5 | for `x >= 0` the result is the least multiple of 100 that is at least `x`, and lies in `[x, x + 99]` |
| IntExtensions.RoundUpFixesMultiples | Sources/Utils/Extensions/Int+Extensions.swift:5 | a non-negative multiple of 100, zero included, is returned unchanged |
| IntExtensions.RoundUpIdempotent | Sources/Utils/Extensions/Int+Extensions.swift:5 | for `0 <= x <= Int.max - 107`, rounding again is allowed and changes nothing |
| IntExtensions.RoundUpTwiceTrapsNearMax | Sources/Utils/Extensions/Int+Extensions.swift:5 | every `x` from `Int.max - 106` to `Int.max - 99` rounds to `Int.max - 7`, above `Int.max - 99`, so a second rounding would trap; the idempotence bound `Int.max - 107` cannot be raised |
| IntExtensions.RoundUpOnNegatives | Sources/Utils/Extensions/Int+Extensions.swift:5 | below -99 truncating `/` gives the ceiling only for `x` one more than a multiple of 100: -199 gives its ceiling -100, but -100 gives 0 and -250 gives -100; -99 gives 0 |
| IntExtensions.RoundAll | Tests/UtilsTests/Int+ExtensionsTests.swift:14 | `map` of the rounding: the same length, and each element is the rounding of the input element at that position |
| IntExtensions.Total | Tests/UtilsTests/Int+ExtensionsTests.swift:24 | `reduce(0, +)`: the total of non-negative amounts is non-negative |
| IntExtensions.TotalConcat | Tests/UtilsTests/Int+ExtensionsTests.swift:24 | the total of two lists one after the other is the sum of their totals |
| IntExtensions.RoundUpDifferenceBounds | Sources/Utils/Extensions/Int+Extensions.swift:5 | for non-negative amounts, the rounded total minus the total lies in `[0, 99 * n]`, and is 0 exactly when every amount is a multiple of 100 |
| IntExtensions.RoundUpExample | Sources/Utils/Extensions/Int+Extensions.swift:5 | 435, 520 and 87 round to 500, 600 and 100, a round-up of 158 |
| DataLoadFeature.Next | Sources/DataLoad/DataLoad.swift:38-58 | `view(.task)` sets only the loading flag; `isLoadingDataUpdated` sets only the flag; `errorMessageUpdated` sets only the message; `delegate` changes nothing |
| DataLoadFeature.Effect | Sources/DataLoad/DataLoad.swift:40-58 | only `view(.task)` starts work; on success it sends `isLoadingDataUpdated(false)` and then `delegate(.accountsUpdated(accounts))`; on failure it sends `errorMessageUpdated(description)` and then `isLoadingDataUpdated(false)` |
| DataLoadFeature.LoadOutcome | Sources/DataLoad/DataLoad.swift:40-55 | once a load and everything it sent are handled, the loading flag is false; a failure leaves its description as the message; a success keeps the previous message, so it never clears an old error |
| DataLoadFeature.DelegateOnlyOnSuccess | Sources/DataLoad/DataLoad.swift:42-49 | a successful load delegates the accounts exactly once, as the last action; a failed load never delegates |
| DataLoadFeature.SentActionsRunNothing | Sources/DataLoad/DataLoad.swift:50-57 | every action a load sends returns no further effect |
| DataLoadFeature.DataLoad.constructor | Sources/DataLoad/DataLoad.swift:8-14 | the initial state has no error message and is not loading |
| DataLoadFeature.DataLoad.Reduce | Sources/DataLoad/DataLoad.swift:38-58 | updates the fields in place as `Next` says and returns the actions of `Effect` |
| DataLoadFeature.DataLoad.Load | Sources/DataLoad/DataLoad.swift:40-55 | sends `view(.task)` and feeds back the actions its effect sends, in order; afterwards the flag is false, and the message is the failure's description or the old message |
| AccountFeedOutput.DecodeString | Sources/APIClient/APIModels/GetAccountFeedOutput.swift:155 | a string is read only when the key holds a JSON string, and it is copied |
| AccountFeedOutput.DecodeInt | Sources/APIClient/APIModels/GetAccountFeedOutput.swift:156 | a number is read only when the key holds a JSON number within `Int`'s range, and it is copied |
| AccountFeedOutput.DecodeCurrencyAndAmount | Sources/APIClient/APIModels/GetAccountFeedOutput.swift:153-158 | decoding succeeds exactly when both reads do, and copies both values; a bad "currency" is the error reported even when "minorUnits" is also bad; when "currency" reads, a bad "minorUnits" is the error reported |
| AccountFeedOutput.DecodeReadsOnlyCodingKeys | Sources/APIClient/APIModels/GetAccountFeedOutput.swift:148-158 | containers that agree on "currency" and "minorUnits" decode alike |
| AccountFeedOutput.ToDirection | Sources/APIClient/APIModels/GetAccountFeedOutput.swift:107-116 | `IN` maps to inbound and `OUT` to outbound |
| AccountFeedOutput.DirectionBijective | Sources/APIClient/APIModels/GetAccountFeedOutput.swift:100-116 | the direction mapping is one-to-one and onto |
| AccountFeedOutput.ToSource | Sources/APIClient/APIModels/GetAccountFeedOutput.swift:228-232 | a mapped source has the record's raw value |
| AccountFeedOutput.SourceMappingTotal | Sources/APIClient/APIModels/GetAccountFeedOutput.swift:178-232 | the source mapping never yields `nil`, and keeps the raw value |
| AccountFeedOutput.ToAccountFeedItem | Sources/APIClient/APIModels/GetAccountFeedOutput.swift:75-96 | `nil` exactly when the id or the direction is missing; otherwise the id, reference, amount and transaction time are copied, the direction is mapped, and the source is present exactly when the record's is, with the same raw value |
| AccountFeedOutput.ToAccountFeedItemReadsSixFields | Sources/APIClient/APIModels/GetAccountFeedOutput.swift:74-97 | records that agree on the six fields read map to the same item, whatever their status, counterparty or round-up fields, so nothing is filtered by status |
| Models.FirstWithRawValue | Sources/Models/AccountFeedItem.swift:40 | the search of a raw-value initialiser: a case it returns is the first declared with the raw value, and it returns `nil` exactly when no case has it |
| Models.SourceAtOrdinal | Sources/Models/AccountFeedItem.swift:40-87 | the case declared at position `k` has the `k`-th raw value |
| Models.SourceFromRawValue | Sources/Models/AccountFeedItem.swift:40-87 | `Source(rawValue:)` returns a case with that raw value, and `nil` exactly when none of the 46 names matches |
| TransferInput.Encode | Sources/APIClient/APIModels/TransferToSavingsGoalInput.swift:9-13 | writes exactly the keys "currency" and "minorUnits", with the values unchanged, and decoding the container gives the amount back |
| AccountsOutput.ToAccountType | Sources/APIClient/APIModels/GetAccountsOutput.swift:57-61 | the account-type mapping never yields `nil`, and keeps the raw value |
| AccountsOutput.ToAccountTypeBijective | Sources/APIClient/APIModels/GetAccountsOutput.swift:6-11 | the account-type mapping is one-to-one and reaches every domain case |
| AccountsOutput.ToAccount | Sources/APIClient/APIModels/GetAccountsOutput.swift:33-54 | `nil` exactly when one of the six fields is missing; otherwise all six are copied, with the account type mapped by raw value |
| AccountsOutput.ToAccountKeepsCurrency | Sources/APIClient/APIModels/GetAccountsOutput.swift:41-52 | a complete record maps, and its currency is the record's, never the "GBP" default |
| Models.AccountTypeFromRawValue | Sources/Models/Account.swift:4-9 | `AccountType(rawValue:)` returns the case with that raw value, and `nil` exactly when none matches |
| Models.AccountType.Description | Sources/Models/Account.swift:35-44 | the label is the raw value in word case: as long as it, each `_` a space, each word's first letter kept and the others lowered ("FIXED_TERM_DEPOSIT" gives "Fixed Term Deposit") |
| Models.AccountTypeNamesDistinct | Sources/Models/Account.swift:4-9 | raw values and descriptions are one-to-one, and each raw value reads back as its case |
| Models.NewAccount | Sources/Models/Account.swift:18-32 | `Account.init` copies its six arguments |
| Models.NewAccountDefaultsToPounds | Sources/Models/Account.swift:24 | without a currency argument the account's currency is "GBP" |
| SavingsGoalOutput.FromCreateOutput | Sources/APIClient/APIModels/CreateSavingsGoalOutput.swift:14-25 | a goal exactly when `success` is true and an id is present; the id is copied |
| SavingsGoalOutput.CreateOutputNeedsSuccess | Sources/APIClient/APIModels/CreateSavingsGoalOutput.swift:17 | an id with a missing or false `success` gives no goal |
| SavingsGoalOutput.FromGoalRecord | Sources/APIClient/APIModels/GetSavingGoalsOutput.swift:35-40 | a goal exactly when the id is present; the id is copied |
| SavingsGoalOutput.FromGoalRecordReadsOnlyId | Sources/APIClient/APIModels/GetSavingGoalsOutput.swift:35-40 | only the id is read, so goals of every state, archived ones included, map |
| APIErrors.FromResponse | Sources/APIClient/APIModels/APIError.swift:17-24 | an error exactly for an HTTP response with status 400 or more; the code is the status and the body is the decoded one |
| APIErrors.ErrorClassesOnly | Sources/APIClient/APIModels/APIError.swift:18 | among the statuses 100 to 599, exactly the 4xx and 5xx classes give an error |
| APIErrors.Messages | Sources/APIClient/APIModels/APIError.swift:33 | `errors.map(\.message)` keeps the order and the messages |
| APIErrors.DescriptionText | Sources/APIClient/APIModels/APIError.swift:28-38 | "APIError code: " and the code, followed, when there is a body, by the bar separator, "Errors: " and the messages joined by ", " |
| APIErrors.ErrorDescription | Sources/APIClient/APIModels/APIError.swift:28-38 | the appended parts, joined, are that text |
| APIErrors.Rest | Sources/APIClient/APIModels/APIError.swift:32-37 | what follows the code is empty or starts with a space |
| APIErrors.DescriptionNamesCode | Sources/APIClient/APIModels/APIError.swift:31 | equal descriptions mean equal codes |
| APIErrors.DescriptionIgnoresSuccess | Sources/APIClient/APIModels/APIError.swift:32-35 | the body's `success` flag does not show |
| APIErrors.DescriptionOfEmptyBody | Sources/APIClient/APIModels/APIError.swift:33-34 | a body without messages still adds an empty "Errors: " part |
| Numerics.Description | Sources/APIClient/APIModels/APIError.swift:31 | `"\(n)"` is non-empty, starts with a minus sign exactly for negatives, has no leading zero, and its digits read back as the magnitude |
| Numerics.DescriptionHasNoSpace | Sources/APIClient/APIModels/APIError.swift:31 | the text of an integer contains no space |
| Numerics.DescriptionInjective | Sources/APIClient/APIModels/APIError.swift:31 | different integers have different texts |
| Numerics.ParseDigitsOfDigits | Sources/APIClient/APIModels/APIError.swift:31 | the decimal digits of a number read back as that number |
| Text.Join | Sources/Models/AppError.swift:45 | `joined(separator:)` is empty for no parts, and otherwise starts with the first part |
| Text.JoinLength | Sources/Models/AppError.swift:45 | the joined text's length is the parts' lengths plus one separator between each two neighbours |
| Text.JoinAppend | Sources/Models/AppError.swift:41-45 | appending a part to a non-empty list appends the separator and that part to the joined text |
| Text.Split | Sources/Models/AppError.swift:6 | `split(separator:)` yields non-empty parts without the separator |
| Text.SplitLast | Sources/Models/AppError.swift:6 | the last part is the last run of non-separators, and there are no parts exactly when that run is empty |
| AppErrors.TypeIdentifier | Sources/Models/AppError.swift:4-7 | the last dot-separated component of the type's name, or the whole name when there is none |
| AppErrors.TypeIdentifierDropsQualifier | Sources/Models/AppError.swift:6 | a module-qualified name and the plain name give the same identifier |
| AppErrors.AppErrorTypeIdentifier | Sources/Models/AppError.swift:4-7 | the identifier of `AppError`, qualified or not, is "AppError" |
| AppErrors.SourceText | Sources/Models/AppError.swift:40-46 | "File: ", "Function: " and "Line: " parts joined by ", "; the column and range do not show |
| AppErrors.SourceDescription | Sources/Models/AppError.swift:40-46 | the appended parts, joined, are that text |
| AppErrors.SourceTextShowsLine | Sources/Models/AppError.swift:40-46 | locations in one function on different lines are described differently |
| AppErrors.NewAppError | Sources/Models/AppError.swift:70-84 | the value is kept and the call site is always recorded, without a range |
| AppErrors.Identifier | Sources/Models/AppError.swift:53-58 | the unknown case is identified as "unknown" |
| AppErrors.Reason | Sources/Models/AppError.swift:60-65 | the unknown case's reason is "Unknown Error Occured." |
| AppErrors.FullIdentifier | Sources/Models/AppError.swift:88-90 | "AppError", a dot, and the case identifier |
| AppErrors.DescriptionText | Sources/Models/AppError.swift:92-102 | the full identifier and the reason, followed by the bar separator and the source's text only in a debug build with a recorded source |
| AppErrors.ErrorDescription | Sources/Models/AppError.swift:92-102 | the appended parts, joined, are that text |
| AppErrors.ReleaseDescriptionIsFixed | Sources/Models/AppError.swift:95-99 | outside debug builds every app error has the same description |
| AppErrors.DebugDescriptionShowsLine | Sources/Models/AppError.swift:95-99 | in debug builds, errors raised on different lines of one function are described differently |
| HTTPHeaders.Bearer | Sources/APIClient/RestClient/HTTPHeaders.swift:13 | "Bearer " followed by the token, unchanged |
| HTTPHeaders.BearerInjective | Sources/APIClient/RestClient/HTTPHeaders.swift:13 | different tokens give different values |
| HTTPHeaders.HeaderKeysDistinct | Sources/APIClient/RestClient/HTTPHeaders.swift:4-9 | the four header names are pairwise different |
| FeedItemText.Title | Sources/AccountFeed/Extensions/AccountFeedItem+Extensions.swift:11-13 | the amount's text, or "N/A" without an amount |
| FeedItemText.TitleShowsMissingAmount | Sources/AccountFeed/Extensions/AccountFeedItem+Extensions.swift:11-13 | when the formatter never writes "N/A", the title is "N/A" exactly when the amount is missing |
| FeedItemText.SubtitleText | Sources/AccountFeed/Extensions/AccountFeedItem+Extensions.swift:15-27 | the reference, or the empty text without one; no other field shows |
| FeedItemText.Subtitle | Sources/AccountFeed/Extensions/AccountFeedItem+Extensions.swift:15-27 | the appended parts, joined by " - ", are that text |

## Left out

- The account-feed reducer is not modelled: the source holds only a stub with the account id. Its round-up workflow, week paging and alert queue exist only in tests.
- Currency addition and subtraction, `Date.startOfWeek`, the `TimeInterval` constants, `CurrencyAmountFormatter` and date formatting are not modelled. `FeedItemText.Title` takes the amount's text as the parameter `describe`.
- The networking and dependency plumbing is not modelled. This includes `RestClient` and its header handling (`addHeaders` passes name and value the wrong way round).
- The asynchronous runtime of the reducer store is not modelled. An effect is the ordered list of actions it sends, and the network call is the parameter `fetch`.
- JSON parsing of the error body is the parameter `decodedBody` of `APIErrors.FromResponse`. A body that does not decode is `None`.
- `error.localizedDescription` is the `FetchFailed` description.
- The `DEBUG` build flag is the parameter `debug` of `AppErrors.DescriptionText`.
- `UIKit`/`SwiftUI` views and reducers that only combine framework pieces are not modelled. The API client's `Account` is only a payload: its decoding is not modelled.
- `AccountFeedOutput.JsonValue` has no object, array or fractional-number case. So two failures of `CurrencyAndAmount.init(from:)` are not represented: `decoder.container(keyedBy:)` throwing on a non-object, and `decode(Int.self, …)` throwing on a fractional number. The model starts from the keyed container.
- `Double` fields (`exchangeRate`, `totalFees`, a `Date`'s offset) are `real`. They are only copied, never computed with.
- `UInt` line and column numbers are unbounded `nat`s.
- `TransferToSavingsGoalInput`'s own encoding, which nests the amount under "amount", is not modelled. The model encodes `CurrencyAndAmount`, whose keys and values it pins down.
- IntExtensions.Total: the sum of a list is taken over unbounded integers, so overflow of `reduce(0, +)` is not modelled.
- IntExtensions.RoundUpIdempotent: stated for `x <= Int.max - 107` rather than `Int.max - 99`. Near the top, the first rounding lands above `Int.max - 99`, and the second `self + 99` traps (`IntExtensions.RoundUpTwiceTrapsNearMax`).
- AccountFeedOutput.SourceMappingTotal: the source round trip is stated as raw-value preservation and totality. It does not identify cases across the two enums by their Swift names.
