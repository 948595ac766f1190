# GPay wallet core in Dafny

This project models the wallet and settlement logic of GPay, a Spring Boot mobile-money wallet for Cameroon. GPay users hold balances in XAF (Central African francs). They top up and cash out through the Campay payment gateway and send money to each other by phone number. The model is written as immutable datatypes and pure functions.

- **Users and transactions.** Users are a map from id to record. Saved transactions are a map from internal reference to record.
- **The gateway.** The gateway is an oracle that answers the n-th token request and the n-th API request.
- **Clock and randomness.** The clock, random draws, generated ids and the password encoder are parameters.
- **Amounts.** Amounts are whole francs, modelled as `int`.

| file | module | what it models |
|---|---|---|
| `wrappers.dfy` | `Wrappers` | `Option` and `Result` |
| `text.dfy` | `Text` | Java `trim`, ASCII `toUpperCase`, `contains`, order-preserving filtering, decimal and `Double.toString` rendering of whole numbers |
| `phone.dfy` | `PhoneNumbers` | `PhoneNumberUtils`: normalisation, extraction, validation |
| `sanitizers.dfy` | `Sanitizers` | control-character sanitisers of `CampayDisburseRequest` and `WithdrawalRequest` |
| `ledger.dfy` | `Ledger` | the `Transaction` record, `mapCampayStatus`, the per-type balance delta |
| `users.dfy` | `Users` | `UserService` over a map-backed repository with unique phone and e-mail |
| `notifications.dfy` | `Notifications` | the OTP store, SMS number formatting, deposit and withdrawal notice types |
| `gateway.dfy` | `Gateway` | `CampayService` token cache and 401 resend, `WebClientConfig` retry policy, error messages |
| `transfers.dfy` | `Transfers` | `TransferService.processTransfer` and `TransactionService.transfer` |
| `settlement.dfy` | `Settlement` | `deposit`, `withdraw`, `updateBalanceForCompletedTransaction`, `updateTransactionStatus` |
| `monitor.dfy` | `Monitor` | `startTransactionMonitoring` and the ten-attempt `monitorTransactionStatus` loop |
| `auth.dfy` | `Auth` | the OTP login flow of `AuthService` |
| `qr.dfy` | `QrCodes` | `QRCodeService` data generation, parse checks, recipient check |
| `controller.dfy` | `TransferApi` | `TransferController.sendMoney` status mapping and `validateRecipient` |

In `monitorTransactionStatus` a record is forced to FAILED only when the tenth attempt throws and the record is still PENDING; running out of attempts alone does not end it. A PENDING or PROCESSING record can therefore outlive all ten attempts. `Monitor.SilentGatewayFails` and `Monitor.ProcessingForever` state both cases.

## Model

| member | source | states |
|---|---|---|
| PhoneNumbers.Normalize | src/main/java/com/example/gpay/utils/PhoneNumberUtils.java:16-41 | null or blank input comes back unchanged. Otherwise, on the trimmed text: a leading "+237" keeps it as is; a leading "237" gets "+"; a nine-digit local number `[26]…` gets "+237"; anything else stays as is. The result starts with "+237" exactly when the trimmed text starts with "+237" or "237" or is a local number. |
| PhoneNumbers.NormalizeIdempotent | src/main/java/com/example/gpay/utils/PhoneNumberUtils.java:16-41 | normalising an already normalised number changes nothing |
| PhoneNumbers.ExtractLocal | src/main/java/com/example/gpay/utils/PhoneNumberUtils.java:48-67 | null or blank input comes back unchanged. Otherwise, on the trimmed text: a leading "+237" is dropped; failing that, a leading "237" is dropped; any other text stays as is. |
| PhoneNumbers.ExtractAfterNormalize | src/main/java/com/example/gpay/utils/PhoneNumberUtils.java:35-58 | for a local number that does not begin with "237", extracting after normalising gives the number back |
| PhoneNumbers.IsValidCameroon | src/main/java/com/example/gpay/utils/PhoneNumberUtils.java:74-81 | null and blank are invalid. A valid number normalises to "+237" followed by `[26][0-9]{8}`, 13 characters in all. |
| PhoneNumbers.ValidIffAcceptedShape | src/main/java/com/example/gpay/utils/PhoneNumberUtils.java:74-81 | validation holds exactly for the shapes "+237"+local, "237"+local and a bare local number not beginning with "237" |
| PhoneNumbers.LookupIsNormalize | src/main/java/com/example/gpay/utils/PhoneNumberUtils.java:88-95 | the lookup key equals the normalised number on every input |
| PhoneNumbers.FormsAgree | src/main/java/com/example/gpay/utils/PhoneNumberUtils.java:22-40 | the local, "237" and "+237" spellings of one number are all valid and normalise to the same key |
| Sanitizers.ControlsToSpaces | src/main/java/com/example/gpay/dto/campay/CampayDisburseRequest.java:34 | every control character becomes a space and every other character stays in place |
| Sanitizers.StripControls | src/main/java/com/example/gpay/dto/WithdrawalRequest.java:51 | the result is exactly the non-control characters of the input, in order, so it has no control characters. Control-free text is left alone. |
| Sanitizers.CollapseSpaces | src/main/java/com/example/gpay/dto/campay/CampayDisburseRequest.java:35 | no two neighbouring whitespace characters remain. Every whitespace character left is a plain space. Emptiness and a leading space are kept. |
| Sanitizers.CollapseFixpoint | src/main/java/com/example/gpay/dto/campay/CampayDisburseRequest.java:35 | text without space runs or non-plain spaces is a fixpoint of the collapse |
| Sanitizers.CollapseKeepsNonSpace | src/main/java/com/example/gpay/dto/campay/CampayDisburseRequest.java:35 | collapsing keeps every non-whitespace character, in order |
| Sanitizers.CollapseIsSqueeze | src/main/java/com/example/gpay/dto/campay/CampayDisburseRequest.java:35 | the run-by-run collapse equals a left-to-right reading that writes a space for a whitespace character unless the one before was whitespace too |
| Sanitizers.SanitizeText | src/main/java/com/example/gpay/dto/campay/CampayDisburseRequest.java:34-36 | the result is the input with controls turned into spaces, each whitespace run written as one space (the independent `Squeeze` reading), then trimmed. It has no control characters, no double whitespace, only plain spaces, and no leading or trailing whitespace. Its visible characters (neither control nor whitespace) are exactly those of the input, in order. Clean, trimmed text is returned unchanged. |
| Sanitizers.SanitizeDescription | src/main/java/com/example/gpay/dto/campay/CampayDisburseRequest.java:28-37 | null stays null. Any other description is the control-to-space, squeeze and trim of the input; it comes out control-free, trimmed and without double whitespace, with exactly the visible characters of the input, in order. |
| Sanitizers.SanitizeIdempotent | src/main/java/com/example/gpay/dto/campay/CampayDisburseRequest.java:28-37 | sanitising a sanitised description changes nothing |
| Sanitizers.NewDisburseRequest | src/main/java/com/example/gpay/dto/campay/CampayDisburseRequest.java:20-25 | amount, `to` and external reference are stored verbatim. The description is what `sanitizeDescription` makes of the argument. |
| Sanitizers.SetDescription | src/main/java/com/example/gpay/dto/campay/CampayDisburseRequest.java:46-48 | only the description changes, and it is what `sanitizeDescription` makes of the argument |
| Sanitizers.SetterMatchesConstructor | src/main/java/com/example/gpay/dto/campay/CampayDisburseRequest.java:20-48 | setting a description gives the same request as constructing with it. Re-setting the stored description is a no-op. |
| Sanitizers.SanitizePin | src/main/java/com/example/gpay/dto/WithdrawalRequest.java:51 | null stays null. Any other PIN is the trimmed text of its non-control characters, so it is control-free and trimmed and keeps every visible character in order. A control-free, trimmed PIN is stored as given. |
| Sanitizers.SetPin | src/main/java/com/example/gpay/dto/WithdrawalRequest.java:49-52 | only the PIN changes, and it is what `SanitizePin` makes of the argument |
| Sanitizers.PinSanitizeIdempotent | src/main/java/com/example/gpay/dto/WithdrawalRequest.java:51 | PIN sanitisation is idempotent |
| Sanitizers.SetProviderFromString | src/main/java/com/example/gpay/dto/WithdrawalRequest.java:30-40 | null leaves the request as it was. A name whose stripped, trimmed, upper-cased form is a provider constant is accepted and sets only the provider, to that form. Any other name is an "Invalid provider: …" error. |
| Sanitizers.ProviderResetIsNoOp | src/main/java/com/example/gpay/dto/WithdrawalRequest.java:30-40 | feeding the stored provider name back through the setter changes nothing |
| Sanitizers.ToString | src/main/java/com/example/gpay/dto/WithdrawalRequest.java:54-61 | the printed form always contains the fixed mask `pin='****` |
| Sanitizers.ToStringHidesPin | src/main/java/com/example/gpay/dto/WithdrawalRequest.java:54-61 | the printed form does not depend on the PIN |
| Ledger.NewTransaction | src/main/java/com/example/gpay/model/Transaction.java:61-70 | a new record is PENDING, with creation and update time both set to now, and a clock reference. The given fields are stored and everything else is unset. |
| Ledger.ClockReference | src/main/java/com/example/gpay/model/Transaction.java:72-74 | the reference is "TXN" followed by at least one digit |
| Ledger.ClockReferenceRoundTrip | src/main/java/com/example/gpay/model/Transaction.java:72-74 | the clock value can be read back from the digits after "TXN" |
| Ledger.ClockReferenceInjective | src/main/java/com/example/gpay/model/Transaction.java:72-74 | two references are equal only when their clock readings are |
| Ledger.SetStatus | src/main/java/com/example/gpay/model/Transaction.java:77-80 | status and update time take the new values, and no other field changes |
| Ledger.UpdateTimestamp | src/main/java/com/example/gpay/model/Transaction.java:83-85 | only the update time changes |
| Ledger.SetStatusLastWins | src/main/java/com/example/gpay/model/Transaction.java:77-80 | a later `setStatus` overrides an earlier one completely. Re-setting the current status at the recorded time restores the record. |
| Ledger.MapGatewayStatus | src/main/java/com/example/gpay/services/TransactionService.java:946-967 | a null status is PENDING |
| Ledger.MapGatewayStatusCases | src/main/java/com/example/gpay/services/TransactionService.java:946-967 | COMPLETED exactly for SUCCESSFUL, SUCCESS or COMPLETED after upper-casing. FAILED exactly for FAILED or FAILURE. PENDING exactly for PENDING. PROCESSING for everything else, "PROCESSING" included. |
| Ledger.MapGatewayStatusCaseInsensitive | src/main/java/com/example/gpay/services/TransactionService.java:951 | the mapping ignores the letter case of the gateway's text |
| Ledger.MapGatewayStatusOfName | src/main/java/com/example/gpay/services/TransactionService.java:946-967 | each internal status is recovered from its own name |
| Ledger.BalanceDelta | src/main/java/com/example/gpay/services/TransactionService.java:920-944 | a transfer changes nothing. A deposit or withdrawal changes the balance by the amount, one way or the other. |
| Ledger.DepositWithdrawalCancel | src/main/java/com/example/gpay/services/TransactionService.java:931-937 | a deposit and a withdrawal of the same amount cancel. A deposit adds money exactly when its amount is positive. |
| Users.FindByStoredPhone | src/main/java/com/example/gpay/services/UserService.java:67 | the exact-match lookup finds a user iff one is stored under that phone, and returns that stored record |
| Users.FindByPhone | src/main/java/com/example/gpay/services/UserService.java:64-68 | a user is found iff one is stored under the normalised input, and the stored record is returned |
| Users.ExistsByPhone | src/main/java/com/example/gpay/services/UserService.java:124-127 | true iff a user is stored under the normalised input |
| Users.ExistsIffFound | src/main/java/com/example/gpay/services/UserService.java:124-127 | the existence check and the lookup agree on every input |
| Users.FormsFindSameUser | src/main/java/com/example/gpay/services/UserService.java:64-68 | the local, "237" and "+237" spellings find the same user |
| Users.FindById | src/main/java/com/example/gpay/services/UserService.java:75-77 | a user is found iff the id is stored, and that record is returned |
| Users.RegisterUser | src/main/java/com/example/gpay/services/UserService.java:25-62 | checks run in this order: invalid number, then taken normalised phone, then taken e-mail. A rejection stores nothing. When the number is valid and neither the normalised phone nor the e-mail is taken, registration succeeds; success adds one user under the new id, with the request's first name, last name and e-mail, the normalised phone, the role "USER", zero balance and encoded password and PIN, and keeps phones and e-mails unique. |
| Users.RegisterThenFind | src/main/java/com/example/gpay/services/UserService.java:45-68 | a registered user is found again under the spelling used to register |
| Users.UpdateBalance | src/main/java/com/example/gpay/services/UserService.java:80-86 | an unknown id is "User not found". Otherwise the balance is overwritten with the absolute value and stamped, and no other user or field changes. |
| Users.UpdateBalanceLastWins | src/main/java/com/example/gpay/services/UserService.java:80-86 | of two balance writes the second wins outright |
| Users.UpdatePin | src/main/java/com/example/gpay/services/UserService.java:113-119 | an unknown id is "User not found"; a known id always succeeds. Only the encoded PIN and the update time change. |
| Users.PinUpdateValidates | src/main/java/com/example/gpay/services/UserService.java:71-73 | after a PIN update the encoder's `matches` accepts the new PIN against the stored encoding, so `validatePin` answers true. For an encoder whose encodings match only their own text, the previous PIN no longer does. |
| Users.UpdatesKeepPhoneLookup | src/main/java/com/example/gpay/services/UserService.java:80-119 | after a balance or PIN update every phone lookup succeeds exactly as before |
| Users.TotalUpdate | src/main/java/com/example/gpay/services/UserService.java:80-86 | replacing one user record changes the sum of all balances by exactly that record's balance change |
| Notifications.FormatOtp | src/main/java/com/example/gpay/services/NotificationService.java:48 | the code has six digits and its value is the random draw |
| Notifications.FormatOtpInjective | src/main/java/com/example/gpay/services/NotificationService.java:48 | different draws give different codes |
| Notifications.GenerateOtp | src/main/java/com/example/gpay/services/NotificationService.java:45-70 | the code is stored under the phone with an expiry five minutes later, replacing any earlier code, and is kept even when the SMS fails. Other phones are untouched. |
| Notifications.VerifyOtp | src/main/java/com/example/gpay/services/NotificationService.java:75-106 | no entry means false. The answer is true iff an unexpired entry's code equals the given code. An expired entry is removed. A match consumes the entry. A wrong code leaves the store unchanged. |
| Notifications.OtpSingleUse | src/main/java/com/example/gpay/services/NotificationService.java:92-97 | a code that verified once fails when presented again |
| Notifications.GenerateThenVerify | src/main/java/com/example/gpay/services/NotificationService.java:45-106 | a freshly generated code verifies up to and including its expiry instant, and not after |
| Notifications.RegenerateReplaces | src/main/java/com/example/gpay/services/NotificationService.java:51-52 | after a second generation the first code no longer verifies |
| Notifications.CleanupExpired | src/main/java/com/example/gpay/services/NotificationService.java:278-282 | exactly the expired entries are removed, and the others are kept unchanged |
| Notifications.CleanupPreservesVerdict | src/main/java/com/example/gpay/services/NotificationService.java:278-282 | cleaning up first never changes a verification made at the same instant |
| Notifications.RemoveSeparators | src/main/java/com/example/gpay/services/NotificationService.java:159 | the result is exactly the characters of the input that are not whitespace, dash or parenthesis, in order. Text without them is kept. |
| Notifications.FormatForSms | src/main/java/com/example/gpay/services/NotificationService.java:157-173 | the result starts with "+" and has no separators. A cleaned text starting with "+" is kept; one starting with "237" gets "+"; any other gets "+237". |
| Notifications.FormatForSmsIdempotent | src/main/java/com/example/gpay/services/NotificationService.java:157-173 | formatting a formatted number changes nothing |
| Notifications.PlainNumberKept | src/main/java/com/example/gpay/services/NotificationService.java:159 | digits and "+" are never removed |
| Notifications.FormatAgreesWithNormalize | src/main/java/com/example/gpay/services/NotificationService.java:157-173 | on the three spellings of a local number, SMS formatting gives the stored normalised number |
| Notifications.TemplateFor | src/main/java/com/example/gpay/services/NotificationService.java:202-213 | the success text is used exactly for "COMPLETED" and the failure text exactly for "FAILED". Any other status gets neither. |
| Notifications.DepositNotice | src/main/java/com/example/gpay/services/NotificationService.java:202-213 | the type is "DEPOSIT_" followed by the status |
| Notifications.WithdrawalNotice | src/main/java/com/example/gpay/services/NotificationService.java:218-228 | the type is "WITHDRAWAL_" followed by the status |
| Notifications.NoticeKindsDistinct | src/main/java/com/example/gpay/services/NotificationService.java:202-228 | a deposit type never equals a withdrawal type, and each type determines its status |
| Gateway.RetryableCases | src/main/java/com/example/gpay/config/WebClientConfig.java:137-155 | socket, connect, timeout, premature-close and request exceptions are retried. An HTTP error is retried iff its status is ≥ 500, 408 or 429, so 400, 401, 403 and 404 are not. Nothing else is retried. |
| Gateway.MapCampayError | src/main/java/com/example/gpay/services/CampayService.java:381-424 | socket and connect causes read "Network connection error…", a timeout cause "…timed out…", any other cause "Network error occurred…". An HTTP error gets its status text. Every other exception, the exhaustion exception included, gets the generic text. |
| Gateway.ResponseMessage | src/main/java/com/example/gpay/services/CampayService.java:391-420 | 400 reads "Invalid request to Campay API: " followed by the body; 401, 403, 404, 429 and 500 each get their own fixed text; 502, 503 and 504 share "temporarily unavailable"; any other status reads "Unexpected error from Campay API (Status: n)". |
| Gateway.StatusMessagesDistinct | src/main/java/com/example/gpay/services/CampayService.java:396-420 | 401, 403, 404, 429, 500 and 502 get pairwise different texts |
| Gateway.ConnectMessageUnreachable | src/main/java/com/example/gpay/services/CampayService.java:383-391 | no failure ever maps to "Unable to connect…". A refused connection reads as the generic connection error, because ConnectException is a SocketException. |
| Gateway.BackoffMillis | src/main/java/com/example/gpay/config/WebClientConfig.java:118-119 | the nominal delay before a retry lies between 1 s and 10 s |
| Gateway.BackoffMonotone | src/main/java/com/example/gpay/config/WebClientConfig.java:118-119 | the nominal delay never shrinks and reaches the 10 s cap from the fifth retry on |
| Gateway.AuthWithRetry | src/main/java/com/example/gpay/services/CampayService.java:196-202 | each try makes one token exchange, with at most max-retries + 1 in all, and nothing else changes. A failure is either not retryable or the exhaustion after max-retries retries. |
| Gateway.GetAccessToken | src/main/java/com/example/gpay/services/CampayService.java:182-216 | a fresh cached token is returned without an exchange. Otherwise a fetch happens. Success caches the token with the current time. Failure empties the cache and reports a mapped message. |
| Gateway.FailedAuthForcesRefetch | src/main/java/com/example/gpay/services/CampayService.java:210-214 | after a failed fetch the next call fetches again |
| Gateway.FetchedTokenReused | src/main/java/com/example/gpay/services/CampayService.java:203-209 | a fetched token is reused without an exchange while it is younger than the threshold |
| Gateway.RefreshToken | src/main/java/com/example/gpay/services/CampayService.java:372-376 | a forced refresh always performs a token exchange, sends no API request, and a failure arrives already mapped to a message |
| Gateway.SendWithRefresh | src/main/java/com/example/gpay/services/CampayService.java:272-329 | the request goes on the wire once or twice, always the same request object, and first with the given token. Anything but a 401 is passed on unchanged after one send. A success, and any failure other than a failed refresh, is the gateway's last answer. |
| Gateway.UnauthorizedResendsOnce | src/main/java/com/example/gpay/services/CampayService.java:331-343 | after a 401 the same request is resent once under the newly fetched token, and the resend's answer is final |
| Gateway.TryOnce | src/main/java/com/example/gpay/services/CampayService.java:227-228 | one subscription keeps the earlier sends and sends only the given request. With a cached token it always sends, first with that token; the fetching chain always makes a token exchange. It never yields the exhaustion exception. A success, and any failure other than a token failure, is the gateway's answer to the last request sent; with a cached token and no 401, exactly one request is made and its answer is the result. |
| Gateway.CallWithRetry | src/main/java/com/example/gpay/services/CampayService.java:221-233 | there are between 1 and max-retries + 1 attempts, all sending the same request. With a cached token every attempt opens with that same token, even after a 401 refresh cached a newer one. The fetching chain makes a token exchange on every attempt. A surviving failure is not retryable, or is the exhaustion after exactly max-retries retries of a retryable failure. A first attempt that succeeds or fails in a way that is not retried is the whole run: one attempt, its client and its result; more than one attempt means the first failed retryably. |
| Gateway.GatewayCall | src/main/java/com/example/gpay/services/CampayService.java:257-267 | the chain is assembled once from the cache as it stands. The call succeeds iff the retried chain does, with its reply, and the run ends on the gateway's last answer (`EndsOnWire`); a failure is reported through the error mapping. With a fresh cache every attempt opens with the cached token; otherwise at least one token exchange is made per attempt. |
| Gateway.ExhaustionReadsGeneric | src/main/java/com/example/gpay/config/WebClientConfig.java:127-131 | after all attempts fail retryably, the caller sees the generic text, never the "Campay API call failed after N attempts" text, and max-retries + 1 attempts were made |
| Gateway.AuthFailureNotRetried | src/main/java/com/example/gpay/services/CampayService.java:215 | a token that cannot be fetched stops the call after one attempt, with the generic text |
| Gateway.TokenSourceAt | src/main/java/com/example/gpay/services/CampayService.java:182-190 | the cached token is chosen exactly when the cache is fresh, and it is the cached value |
| Gateway.SubscribeToken | src/main/java/com/example/gpay/services/CampayService.java:190-215 | the cached source yields its token without an exchange. The fetching source makes an exchange and caches a fetched token with the current time. Only the fetching source fails, and a failure empties the cache and arrives already mapped. |
| Gateway.RetryEndsOnWireAnswer | src/main/java/com/example/gpay/services/CampayService.java:221-233 | a successful run returns the reply to the last request sent; a failure that is neither a token failure nor the exhaustion is the gateway's last answer unchanged; the exhaustion wraps the gateway's last answer |
| Gateway.GatewayReplyFromWire | src/main/java/com/example/gpay/services/CampayService.java:257-267 | a successful call hands back exactly the reply the gateway gave to the last request, and at least one request was sent |
| Gateway.RetryReplaysAssembledToken | src/main/java/com/example/gpay/services/CampayService.java:221-228 | with a fresh cache, a 401, a successful refresh and then a 503: the resend carries the new token, but the second attempt opens with the old cached one |
| Gateway.RetryRefetchesEachAttempt | src/main/java/com/example/gpay/services/CampayService.java:221-228 | with a stale cache and a 503 on the first attempt, the first attempt leaves a fresh token cached, yet the run makes at least two token exchanges |
| Transfers.CheckTransfer | src/main/java/com/example/gpay/services/TransferService.java:45-60 | refusals come in this order: unknown sender, unknown recipient, wrong PIN, balance < amount, then same id. The transfer is accepted iff all five checks pass, and refused as a self-transfer iff the first four pass and both numbers find the same user. |
| Transfers.MoveFunds | src/main/java/com/example/gpay/services/TransferService.java:150-170 | the sender ends at old − amount and the recipient at old + amount, so the pair's sum is kept. Everyone else is untouched. |
| Transfers.MoveFundsConserves | src/main/java/com/example/gpay/services/TransferService.java:150-170 | moving funds keeps the sum of all balances |
| Transfers.ProcessTransfer | src/main/java/com/example/gpay/services/TransferService.java:40-85 | it succeeds iff the checks pass. A refusal writes nothing and reads "Transfer failed: " plus the check's text. Success moves exactly the two balances and adds one COMPLETED TRANSFER record with the recipient set and the default description "Transfer to " + recipient phone. |
| Transfers.PendingThenCompleted | src/main/java/com/example/gpay/services/TransferService.java:62-71 | saving the record PENDING and then COMPLETED under the same reference leaves exactly the COMPLETED record, and both balances moved |
| Transfers.ImmediateTransfer | src/main/java/com/example/gpay/services/TransactionService.java:793-856 | same checks and order as `processTransfer`, with this service's texts. Success leaves the same balances and one COMPLETED record. The creation time is never set and the description quotes the request's spelling of the number. |
| Transfers.CompletedThenMoved | src/main/java/com/example/gpay/services/TransactionService.java:819-850 | the record saved COMPLETED before the balances move ends with the same settled state |
| Transfers.TransferConserves | src/main/java/com/example/gpay/services/TransactionService.java:837-841 | neither transfer service creates or destroys money |
| Transfers.ServicesAgree | src/main/java/com/example/gpay/services/TransactionService.java:793-856 | both services accept the same transfers and leave the same balances and the same set of references |
| Transfers.FullBalanceTransfer | src/main/java/com/example/gpay/services/TransferService.java:107-115 | sending the whole balance is allowed and leaves the sender at 0 |
| Transfers.SelfTransferRefused | src/main/java/com/example/gpay/services/TransferService.java:120-125 | a transfer to one's own number under another spelling is refused as a self-transfer, after the other checks passed |
| Settlement.Credited | src/main/java/com/example/gpay/services/TransactionService.java:920-944 | only the owner's balance, by the record's delta, and the update time change |
| Settlement.ApplyCompletion | src/main/java/com/example/gpay/services/TransactionService.java:920-944 | a missing owner changes nothing. Otherwise only the owner is replaced, by its credited record. |
| Settlement.ApplyCompletionTotal | src/main/java/com/example/gpay/services/TransactionService.java:920-944 | the sum of all balances moves by the record's delta when the owner exists, and not otherwise |
| Settlement.CompletionNotices | src/main/java/com/example/gpay/services/TransactionService.java:755-770 | transfers get no completion notice. A deposit gets one "DEPOSIT_COMPLETED" notice and a withdrawal one "WITHDRAWAL_COMPLETED" notice, to the owner. |
| Settlement.FailureNotices | src/main/java/com/example/gpay/services/TransactionService.java:775-790 | exactly one notice goes to the owner: "DEPOSIT_FAILED" iff the record is a deposit, "WITHDRAWAL_FAILED" iff a withdrawal, and the generic "TRANSACTION_FAILED" iff a transfer. |
| Settlement.SettleFunding | src/main/java/com/example/gpay/services/TransactionService.java:496-549 | the PENDING record is saved and announced. A gateway failure marks it FAILED with no balance change. A reply stores the external reference and mapped status, applies the delta only if COMPLETED, and monitors per the start guard. |
| Settlement.Fund | src/main/java/com/example/gpay/services/TransactionService.java:484-634 | an unknown user, a bad PIN or, for a withdrawal, balance < amount is refused with its text before any record, notice or gateway call. Otherwise the gateway is called with the user's stored number. |
| Settlement.FundingBalances | src/main/java/com/example/gpay/services/TransactionService.java:520-538 | a refusal or gateway failure changes no balance. An immediately COMPLETED reply moves the total by exactly the delta and is not monitored. Any other reply keeps the total. |
| Settlement.FindForRefresh | src/main/java/com/example/gpay/services/TransactionService.java:877-879 | the record under the reference is found first. Otherwise the unique record with that external reference is found. With no match the result is "Transaction not found…". |
| Settlement.ApplyStatusReply | src/main/java/com/example/gpay/services/TransactionService.java:888-907 | the mapped status overwrites the stored one whatever it was. The owner's balance moves by the delta iff the old status was not COMPLETED and the new one is. Nobody else changes. |
| Settlement.RefreshOfCompletedKeepsBalances | src/main/java/com/example/gpay/services/TransactionService.java:897-898 | refreshing a COMPLETED record changes no balance, whatever the gateway says |
| Settlement.RefreshStatus | src/main/java/com/example/gpay/services/TransactionService.java:874-918 | a record with no external reference is returned unchanged. Every failure reads "Failed to update transaction status: …" and writes nothing. Otherwise the reply is applied as above. |
| Settlement.RefreshCreditsTwice | src/main/java/com/example/gpay/services/TransactionService.java:894-898 | replies SUCCESSFUL, PROCESSING, SUCCESSFUL credit a PENDING deposit twice |
| Settlement.ApplyStatusReplyGuarded | src/main/java/com/example/gpay/services/TransactionService.java:897-898 | a COMPLETED record is left exactly as it is. Any other record is refreshed as before. |
| Settlement.GuardedCreditsOnce | src/main/java/com/example/gpay/services/TransactionService.java:874-918 | with the guard, any series of refreshes moves the owner's balance at most once, by the delta, and a COMPLETED record stays COMPLETED |
| Monitor.DelayBefore | src/main/java/com/example/gpay/services/TransactionService.java:659-666 | every pause lies between 5 s and 30 min |
| Monitor.DelaySchedule | src/main/java/com/example/gpay/services/TransactionService.java:659-666 | within ten attempts the index is k − 1, the 30-minute pause is never taken, and the pauses strictly grow |
| Monitor.MonitoringSpan | src/main/java/com/example/gpay/services/TransactionService.java:659-666 | the tenth attempt starts 2,040,000 ms after the first |
| Monitor.Attempt | src/main/java/com/example/gpay/services/TransactionService.java:687-747 | an attempt keeps the record's reference, owner, type and amount. The owner changes only when the record is completed, by exactly its delta. A forced FAILED only follows an exception on the last attempt. |
| Monitor.AttemptCases | src/main/java/com/example/gpay/services/TransactionService.java:687-747 | an empty reply, an unchanged status or an early exception change nothing. A changed status is saved. With the owner present, COMPLETED credits and stops, and FAILED stops. A last exception on PENDING forces FAILED. |
| Monitor.Run | src/main/java/com/example/gpay/services/TransactionService.java:661-749 | the loop makes at most ten attempts and stops at once on a terminal record. The owner's balance changes at most once, by the delta, and only when the record ends COMPLETED having not been so. |
| Monitor.ForcedOnlyAtEnd | src/main/java/com/example/gpay/services/TransactionService.java:726-743 | a forced FAILED happens only after all attempts, when the tenth attempt threw |
| Monitor.ProcessingStays | src/main/java/com/example/gpay/services/TransactionService.java:695 | a PROCESSING record answered "PROCESSING" is never written and uses every remaining attempt |
| Monitor.LastAttemptThrows | src/main/java/com/example/gpay/services/TransactionService.java:726-743 | an exception on the tenth attempt forces a PENDING record to FAILED, leaves a PROCESSING one alone, and never touches the owner |
| Monitor.SilentUntilLast | src/main/java/com/example/gpay/services/TransactionService.java:690 | empty replies before the last attempt change nothing but the attempt count |
| Monitor.SilentGatewayFails | src/main/java/com/example/gpay/services/TransactionService.java:661-747 | after empty replies and a last exception, a PENDING record ends FAILED after ten attempts, and a PROCESSING one stays PROCESSING |
| Monitor.StartMonitoring | src/main/java/com/example/gpay/services/TransactionService.java:640-652 | no loop runs for a COMPLETED or FAILED record or one with no external reference. A missing record ends the loop at attempt one. A run touches only its record and the owner's balance, and the balance only on completion, by the delta. |
| Monitor.ProcessingForever | src/main/java/com/example/gpay/services/TransactionService.java:661-749 | a gateway answering "PROCESSING" turns a PENDING record PROCESSING, exhausts ten attempts and changes no balance |
| Monitor.MonitoringMovesTotalOnce | src/main/java/com/example/gpay/services/TransactionService.java:700-710 | a whole run moves the sum of all balances at most once, by the record's delta, and only by completing it |
| Auth.RequestLoginOtp | src/main/java/com/example/gpay/security/AuthService.java:169-197 | an unknown user is refused first, then a supplied wrong password, and neither touches the OTP store. Otherwise a code is stored under the user's stored number, even when the SMS fails. |
| Auth.VerifyLoginOtp | src/main/java/com/example/gpay/security/AuthService.java:202-232 | an unknown user is refused. A login succeeds iff the code verifies under the stored number, otherwise it reads "Invalid or expired OTP". The token is issued for the stored number. |
| Auth.AuthenticateWithOtp | src/main/java/com/example/gpay/security/AuthService.java:237-272 | the password is checked before the code. A success implies a matching password and a verified code. |
| Auth.SpellingsShareOtp | src/main/java/com/example/gpay/security/AuthService.java:175-184 | the three spellings of a number write the same OTP entry and give the same reply |
| Auth.RequestThenVerify | src/main/java/com/example/gpay/security/AuthService.java:169-232 | a code requested under one spelling logs in under another until it expires, and is then consumed |
| Auth.WrongPasswordKeepsOtp | src/main/java/com/example/gpay/security/AuthService.java:247-256 | a wrong password fails and leaves the stored code unconsumed |
| Auth.CombinedAgreesWithTwoStep | src/main/java/com/example/gpay/security/AuthService.java:237-272 | with the right password the combined login equals the OTP verification step |
| QrCodes.CheckQrData | src/main/java/com/example/gpay/services/QRCodeService.java:74-84 | checks run in this order: type, then phone, then name, each with its own text. Data passes iff all three hold. |
| QrCodes.ParseQr | src/main/java/com/example/gpay/services/QRCodeService.java:67-93 | accepted data is returned unchanged. Every failure reads "Invalid QR code format: …". |
| QrCodes.GenerateQrData | src/main/java/com/example/gpay/services/QRCodeService.java:37-49 | an unknown user is an error, and a user found under the number always gets a code. The data has type "gpay_transfer", version "1.0", the stored phone and "first last" as the name. |
| QrCodes.ValidateQrRecipient | src/main/java/com/example/gpay/services/QRCodeService.java:98-105 | true iff a user is stored under the normalised phone of the code |
| QrCodes.GenerateThenParse | src/main/java/com/example/gpay/services/QRCodeService.java:44-87 | generated data parses back to itself iff the stored phone and composed name are non-blank |
| QrCodes.GeneratedRecipientValid | src/main/java/com/example/gpay/services/QRCodeService.java:98-105 | a generated code always names the registered user it was made for |
| TransferApi.ErrorStatus | src/main/java/com/example/gpay/controller/TransferController.java:108-120 | 404 exactly when the message contains "not found", which wins over everything. Otherwise "Insufficient balance" gives 400, then "Invalid PIN" gives 401, and anything else 400. |
| TransferApi.SendMoney | src/main/java/com/example/gpay/controller/TransferController.java:88-126 | success is 200 with the record. A refusal gets the status of its message and the text "Transfer failed: Transfer failed: …". |
| TransferApi.NotFoundStatus | src/main/java/com/example/gpay/controller/TransferController.java:108-110 | an unknown party answers 404 |
| TransferApi.InvalidPinStatus | src/main/java/com/example/gpay/controller/TransferController.java:114-116 | a wrong PIN answers 401 |
| TransferApi.InsufficientStatus | src/main/java/com/example/gpay/controller/TransferController.java:111-113 | an insufficient balance answers 400, whatever amounts the text quotes |
| TransferApi.SelfTransferStatus | src/main/java/com/example/gpay/controller/TransferController.java:117-119 | a self-transfer answers 400 |
| TransferApi.MessageStatus | src/main/java/com/example/gpay/controller/TransferController.java:107-120 | every refusal of TransferService gets the status its kind calls for |
| TransferApi.SendMoneyStatus | src/main/java/com/example/gpay/controller/TransferController.java:96-120 | end to end, a refused transfer answers with its refusal's status, and an accepted one with 200 |
| TransferApi.ValidateRecipient | src/main/java/com/example/gpay/controller/TransferController.java:43-79 | valid iff the number is registered. A valid answer carries the last name (the second assignment wins) and the stored phone. |
| TransferApi.ValidationPredictsTransfer | src/main/java/com/example/gpay/controller/TransferController.java:49-72 | when the sender is registered, an accepted recipient is never refused as unknown by the transfer, and a rejected one always is, with 404 |

## Left out

- Reactive and asynchronous machinery is flattened into sequential functions: `Mono`, `@Async`, `CompletableFuture`, `Thread.sleep`. Concurrent writers, such as a manual refresh racing the monitor, are not modelled. The monitor takes the stored record and owner to be changed only by itself.
- Monitor.Run: reads the clock from a per-attempt sequence, not from the pauses. On schedule, the reading at attempt k is the start time plus `Elapsed(k)`.
- Monitor.Attempt: an exception is modelled as raised before the attempt writes anything, because the writes themselves (repository saves) are taken not to fail. An exception inside the forced-FAILED handler is not modelled either.
- Reactor's jitter of up to half the backoff delay is left out, because it is random. So is the wall-clock timing of retries.
- Repository I/O failures are not modelled; saves and look-ups always succeed. References and ids are parameters taken to be fresh.
- Settlement.FindForRefresh: the store's exception for a non-unique external reference is a fixed text, not Spring Data's message.
- The null Campay response in `updateTransactionStatus` ("Campay response is null") is not modelled, because the gateway oracle always answers with a response or a failure. The monitor's null response is modelled as `NoAnswer`.
- Amounts are whole francs (`int`), not `Double`. `%.2f` and `Double.toString` are rendered only for whole numbers.
- Text.WholeDoubleText: exact only below 2^53 in magnitude. Above that a `double` can no longer hold every whole number, and the rounding of the source's `double` is not modelled. From 10^7 on it prints Java's scientific notation ("1.0E7"), as `Double.toString` does; so a deposit or withdrawal of ten million francs or more reaches the gateway with an amount such as "1.0E7".
- Text.TwoDecimals: renders `%.2f` with a "." separator, as the JVM does under an English default locale. Under a default locale with a decimal comma, `String.format` prints "," instead. The default locale is a property of the deployment and is not modelled.
- Text.Upper: upper-cases ASCII letters only, while `String.toUpperCase()` follows the default locale and all of Unicode. Ledger.MapGatewayStatus and Sanitizers.SetProviderFromString therefore agree with the source on ASCII input only, for example not under a Turkish default locale, where "i" becomes a dotted capital "İ".
- Gateway.BackoffMillis: the delays are stated but not connected to the retry chain, because the model has no clock that advances between attempts. Every attempt of one call reads the same `now`.
- Password hashing, `matches`, JWT issuance and `loadUserByUsername` are function parameters and cannot fail. Twilio SMS sending is a boolean failure flag. The SMS message texts are not modelled.
- Auth.AuthenticateWithOtp: a null password is not modelled, because the source passes it straight to the encoder, whose behaviour on null is not part of this model.
- Sanitizers.SetProviderFromString: the provider enum `MobileMoneyProvider` is not part of this model. Its constant names are a parameter set.
- JSON serialisation, ZXing QR image generation and Base64 encoding are left out. A QR code is modelled by its parsed data.
- The 500 branch of `sendMoney` for non-runtime exceptions is left out, because TransferService only throws RuntimeException. `ApiResponse` is not part of this model; a response is its status, message and record.
- Bean Validation annotations on the request DTOs are not modelled; amounts may be any integer.
- Other controllers, filters, the commented-out legacy code and the HTTP/Netty configuration are outside the modelled core.

## Findings

| source | as written | input that shows it | evidently intended | confidence | as-written member | corrected member |
|---|---|---|---|---|---|---|
| src/main/java/com/example/gpay/services/TransactionService.java:894-898 | the manual refresh overwrites the stored status with the gateway's answer whatever it was. It credits whenever the old status is not COMPLETED and the new one is. | a PENDING deposit refreshed with replies SUCCESSFUL, then PROCESSING (or a null status, which maps to PENDING), then SUCCESSFUL. The owner is credited twice the amount. | a COMPLETED transaction is final, so its balance change is applied at most once | medium, not executed | Settlement.RefreshCreditsTwice | Settlement.GuardedCreditsOnce |

`Settlement.ApplyStatusReply` and `Settlement.RefreshStatus` model the refresh as written. `Settlement.ApplyStatusReplyGuarded` is the corrected step, and `Settlement.GuardedCreditsOnce` proves at-most-once crediting for any series of replies passed through it.
