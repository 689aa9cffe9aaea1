# Library service: a Dafny model of its borrowing, payment and account rules

This project models the core of a Django library service.

- **Borrowing.** Members borrow copies of books and staff mark them returned.
- **Payments.** A return freezes a fee into a Payment and opens a Stripe checkout session for it. Stripe's webhook then settles the payment as PAID or EXPIRED. A member can renew an expired payment.
- **Accounts.** Accounts are created through a user manager. They are activated by single-use email-verification tokens, change password through single-use password-change tokens, and can be resolved from a Google sign-in.
- **Telegram.** A Telegram bot links a chat to an account through a link token. It then answers a handful of commands.

The database is a `Store.Database` object:

- one `map` per table, from primary key to record;
- a counter that hands out fresh keys.

`Valid()` states what the schema guarantees: keys come from the counter and foreign keys point at existing rows. `UniqueTokenColumns()` is the `unique=True` constraint on the two token columns.

The views, webhooks and serializers that change rows in place are methods on that object, with `modifies` frames naming the tables they write. Each is tied by its `ensures` to the whole new state, or to a pure function that the lemmas reason about:

- `Settle` for the Stripe webhook;
- `Dispatch` for the Telegram webhook;
- `ResolveGoogleUser` for the Google sign-in.

The following are represented this way:

- **Dates** are day numbers and **instants** are microseconds.
- **Daily fees** are whole cents. **Fees** are mills (thousandths), so the 1.5× surcharge stays exact.
- **Querysets.** An unordered queryset's `.first()` is the matching row with the least key (`Tables.FirstMatch`). Listings are the matching keys in ascending order.
- **Parameters.** These become parameters of the operations:
  - Stripe (`checkout.Session.create`, `Customer.create`, `Webhook.construct_event`);
  - `uuid.UUID` parsing, which answers the canonical text of a UUID;
  - `normalize_email`;
  - the password hasher;
  - the clock;
  - `uuid.uuid4`.
- **Outgoing Telegram messages** are a returned sequence of messages.

Where the tests and the code disagree, the model follows the code. Lemmas make each disagreement explicit:

- `LibraryWebhooks.UnknownCompletedSessionIsRejected`: a "completed" event for an unknown session gets 400, not 200.
- `LibraryViews.RenewRefusesPending`: renewing a PENDING payment is refused.

The `Payment` model shown in library/models.py:51-80 declares none of `amount_to_pay`, `stripe_session_id`, `stripe_session_url` or the EXPIRED status. The record here adds them as the code uses them: library/views.py:230-234 and 278, and library/webhooks.py:31 and 48.

`renew_payment` assigns the new session id to `stripe_checkout_session_id` (library/views.py:315). The views, the webhook and the tests never read that name; they all use `stripe_session_id`. So the model takes it for an attribute slip: only the session URL is saved. `LibraryViews.RenewedAsWritten` models that, and `LibraryWebhooks.RenewedSessionCannotSettle` shows the consequence: the renewed session can never be settled by the webhook.

The model follows the code as written here and records no corrected variant.

## Model

| member | source | states |
|---|---|---|
| LibraryModels.TotalDays | library/models.py:91 | at least one day is charged; from one day on it is exactly the days between borrowing and return |
| LibraryModels.OverdueDays | library/models.py:93 | never negative; zero when returned on or before the expected date, otherwise the days past it |
| LibraryModels.Fee | library/models.py:91-98 | total days times the daily fee plus 1.5 times overdue days times the fee, exact in mills (defined so; its properties are the lemmas below) |
| LibraryModels.MoneyToPay | library/models.py:82-98 | the fee for a returned borrowing, from its dates and its book's daily fee (defined so; properties via `Fee`) |
| LibraryModels.PaymentTypeOf | library/tests/test_payment_model.py:38-62 | FINE when overdue days are charged, PAYMENT otherwise (defined so; stated by `PaymentTypeIsFineIffOverdue`) |
| LibraryModels.FeeAtLeastOneDay | library/models.py:91-98 | with a non-negative daily fee the amount is at least one day's fee, hence non-negative |
| LibraryModels.FeeWithoutOverdue | library/models.py:93-98 | a return on time is charged exactly total days times the daily fee |
| LibraryModels.FeeMonotoneInReturnDate | library/models.py:91-98 | with the other inputs fixed, a later return never costs less |
| LibraryModels.FeeTestExamples | library/tests/test_payment_model.py:25-36 | due the day after, back two days later at 1.00 a day costs 6.00; further fixed cases |
| LibraryModels.PaymentTypeIsFineIffOverdue | library/tests/test_payment_model.py:38-62 | the derived payment type is FINE exactly when the book came back after the expected date |
| LibraryViews.UnitAmount | library/views.py:53-57 | the Stripe amount is the nearest whole cent of the fee, halves rounded away from zero |
| LibraryViews.UnitAmountOfWholeCents | library/views.py:53-57 | an amount with two decimal places converts to exactly amount times 100 |
| LibraryViews.UnitAmountIsOdd | library/views.py:53-57 | the rounding is symmetric about zero |
| LibraryViews.UnitAmountExamples | library/views.py:53-57 | 6.00 gives 600 cents; 0.125 rounds up to 13 and 0.124 down to 12 |
| LibraryViews.LineItem | library/views.py:45-57 | the checkout request: the customer, "usd", quantity 1 and the rounded amount, or none when the payment has no amount |
| LibraryViews.CheckOut | library/views.py:159 | taking a copy lowers inventory by exactly one and changes nothing else about the book |
| LibraryViews.CheckIn | library/views.py:224 | returning a copy raises inventory by exactly one and changes nothing else about the book |
| LibraryViews.CheckInUndoesCheckOut | library/views.py:159-224 | returning a copy after taking it restores the book |
| LibraryViews.ReturnDate | library/views.py:217-220 | the supplied return date if any, otherwise today |
| LibraryViews.Returned | library/views.py:217-221 | the borrowing becomes inactive with the given return date, other fields kept |
| LibraryViews.WithSession | library/views.py:233-234 | the payment carries the session's id and url; status, amount and borrowing kept |
| LibraryViews.PerformCreate | library/views.py:152-160 | fails with "This book is out of stock." exactly when no copy is left, and then nothing persists; otherwise one borrowing is added and inventory drops by one |
| LibraryViews.ReturnBook | library/views.py:205-242 | 404 exactly for an unknown borrowing; 400 for an inactive one; every non-200 answer changes nothing; a 200 answer marks the borrowing returned, puts the copy back and adds one payment |
| LibraryViews.ReturnActiveBorrowing | library/views.py:217-242 | adds exactly one payment holding the frozen fee and the gateway's session; rolls everything back when the gateway fails |
| LibraryViews.BorrowThenReturn | library/views.py:159-225 | borrowing a copy and returning it leaves the inventory of every book as it was |
| LibraryViews.ParseIsActive | library/views.py:184-194 | "1"/"true" mean active and "0"/"false" inactive, ignoring case; anything else is refused with the view's message |
| LibraryViews.ParseIsActiveIgnoresCase | library/views.py:186-188 | strings equal up to case are parsed alike |
| LibraryViews.ParseIsActiveExamples | library/views.py:184-194 | "TRUE" is true, "False" false, "yes" and "" refused |
| LibraryViews.BorrowingQueryset | library/views.py:171-197 | non-staff see exactly their own borrowings; staff get exactly the rows passing the user id and active filters, or an error exactly when a parameter is malformed |
| LibraryViews.UserIdFilter | library/views.py:176-182 | an absent or empty `user_id` is no filter; otherwise `int()` of it, or "Invalid user id." (properties via `BorrowingQueryset`) |
| LibraryViews.IsActiveFilter | library/views.py:184-194 | an absent `is_active` is no filter; otherwise `ParseIsActive` of it (properties via `BorrowingQueryset`) |
| LibraryViews.InvalidUserIdRejected | library/views.py:176-181 | a non-integer `user_id` gives "Invalid user id." |
| LibraryViews.PaymentQueryset | library/views.py:257-272 | non-staff see exactly the payments of their own borrowings; staff see exactly the payments whose borrowing matches each non-empty title and email filter, case-insensitively |
| LibraryViews.StaffSeeAllPayments | library/views.py:261-268 | without filters staff see every payment |
| LibraryViews.PaymentFromRequest | library/views.py:274-278 | a payment is found only for a non-empty session id it holds; none found means none holds it |
| LibraryViews.SessionCallback | library/views.py:322-343 | the shared body of the two callbacks (properties via `Success` and `Cancel`) |
| LibraryViews.Success | library/views.py:322-333 | 200 with the success text exactly when a payment holds the non-empty session id, else 400 "Invalid session id." |
| LibraryViews.Cancel | library/views.py:335-343 | 200 with the cancel text exactly when a payment holds the non-empty session id, else 400 "Invalid session id." |
| LibraryViews.RenewTarget | library/views.py:282-312 | the guards in order: missing id 400, unknown 404, not the owner 403, PAID 400, PENDING 400; only an owned EXPIRED payment passes |
| LibraryViews.RenewedAsWritten | library/views.py:314-317 | only the session URL is saved; the session id stays as it was |
| LibraryViews.RenewPayment | library/views.py:280-320 | a refused request changes nothing; a renewal rewrites only that payment's URL; no status ever changes and no payment is added |
| LibraryViews.RenewRefusesPending | library/tests/test_payment_api.py:123-139 | a PENDING payment, as that test uses, is always refused |
| LibraryWebhooks.Settle | library/webhooks.py:11-51 | an unverified event gets 400 and changes nothing; a "completed" event gets 400 exactly when its session matches no payment, else the payment is PAID; an "expired" event gets 200, changes nothing for an unknown session and otherwise makes the first payment holding it EXPIRED; other events change nothing; at most one status changes |
| LibraryWebhooks.StripeWebhook | library/webhooks.py:11-51 | the handler answers and writes exactly what `Settle` states |
| LibraryWebhooks.SettleIsIdempotent | library/webhooks.py:35-49 | delivering an event twice has the effect of delivering it once |
| LibraryWebhooks.CompletedSettlesPending | library/webhooks.py:31-41 | a "completed" event for a PENDING payment makes it PAID and answers 200 |
| LibraryWebhooks.PaidAbsorbsCompleted | library/webhooks.py:35-36 | a "completed" event for a PAID payment answers 200 and changes nothing |
| LibraryWebhooks.ExpiredOverwritesAnyStatus | library/webhooks.py:43-50 | an "expired" event sets EXPIRED whatever the status was, PAID included |
| LibraryWebhooks.UnknownCompletedSessionIsRejected | library/webhooks.py:31-33 | a "completed" event for an unknown session gets 400 and changes nothing |
| LibraryWebhooks.RenewedSessionCannotSettle | library/views.py:314-317 | after renewal, a "completed" event for the new session finds no payment |
| LibraryPermissions.AdminOrReadOnly | library/permissions.py:4-8 | the decision of `IsAdminOrReadOnly.has_permission` (defined so; stated by `AdminOrReadOnlyDecision`) |
| LibraryPermissions.BorrowerHasPermission | library/permissions.py:11-17 | the decision of `IsBorrowerOrReadOnly.has_permission` (defined so; stated by `BorrowerDecision`) |
| LibraryPermissions.BorrowerHasObjectPermission | library/permissions.py:19-24 | the decision of `has_object_permission` (defined so; stated by `BorrowerDecision`) |
| LibraryPermissions.AdminOrReadOnlyDecision | library/permissions.py:4-8 | safe methods always pass; others pass exactly for staff |
| LibraryPermissions.BorrowerDecision | library/permissions.py:11-24 | staff always pass; others read iff signed in (owner, for objects) and never write |
| LibraryPermissions.NonStaffGrantsAreReadOnly | library/permissions.py:4-24 | whatever is granted to non-staff uses a safe method |
| LibraryPermissions.PromotionKeepsGrants | library/permissions.py:4-24 | making an account staff never turns a grant into a denial |
| LibraryPermissions.OrdinaryUserCannotCreateBorrowing | library/tests/test_borrowing_api.py:86-97 | an ordinary user may list but not create; an anonymous one may not list |
| Store.Database.constructor | library/models.py:15-98 | an empty database is valid |
| UsersModels.TokenExpired | users/models.py:61-62 | expired exactly when more than an hour has passed since creation |
| UsersModels.ExpiryBoundary | users/models.py:61-62 | a token exactly an hour old is still valid; one microsecond older it has expired |
| UsersModels.ExpiryIsPermanent | users/models.py:78-79 | once expired, a token stays expired |
| UserManager.NewUser | users/models.py:21-22 | the row holds the given email, password, flags and names, and the model's defaults where none were passed |
| UserManager.WithFlagDefaults | users/models.py:27-28 | flags the caller gave are kept; only missing ones take the default |
| UserManager.SuperuserFields | users/models.py:31-38 | both flags default to true; an explicit false staff flag, then superuser flag, is refused with its message |
| UserManager.CreateUserRecord | users/models.py:17-24 | a blank email is refused with nothing saved; otherwise exactly one row under a fresh key |
| UserManager.CreateUser | users/models.py:26-29 | neither staff nor superuser unless the caller says so |
| UserManager.CreateSuperuser | users/models.py:31-40 | staff and superuser, or refused with nothing saved |
| UsersSerializers.CreateFromSerializer | users/serializers.py:27-29 | registration always creates an inactive, non-staff account, or refuses a blank email |
| UsersSerializers.ValidateToken | users/serializers.py:62-72 | "Invalid token" exactly when no token holds the value; "Token has expired" exactly when it is over an hour old; otherwise its key |
| UsersSerializers.TokenIsSingleUse | users/serializers.py:81 | once its row is deleted a token is refused as invalid |
| UsersSerializers.SaveEmailVerification | users/serializers.py:74-82 | the owner becomes active with the new Stripe customer, the token is deleted, nothing else changes |
| UsersSerializers.VerifiedTokenIsRefused | users/serializers.py:62-82 | a verified email token cannot be used again |
| UsersSerializers.SavePasswordChange | users/serializers.py:109-115 | the owner's password becomes the token's stored hash, the token is deleted, no other field changes |
| UsersSerializers.ConfirmedTokenIsRefused | users/serializers.py:97-115 | a used password-change token cannot be used again |
| UsersSerializers.ValidateEmailToken | users/serializers.py:62-72 | `ValidateToken` on the email-verification tokens (properties via `ValidateToken`) |
| UsersSerializers.ValidatePasswordToken | users/serializers.py:97-107 | `ValidateToken` on the password-change tokens (properties via `ValidateToken`) |
| UsersSerializers.RemainingSeconds | users/serializers.py:127-130 | the whole seconds left before the lifetime ends, truncated toward zero on both sides of it |
| UsersSerializers.MinutesSecondsText | users/serializers.py:131-133 | the "MM:SS" text of a number of seconds (properties via `MinutesSecondsRoundTrip`) |
| UsersSerializers.ExpirationIn | users/serializers.py:126-133 | the text of the seconds left for a token (properties via `RemainingSeconds` and `MinutesSecondsRoundTrip`) |
| UsersSerializers.TruncatedQuotient | users/serializers.py:130 | `int()` of a quotient rounds toward zero |
| UsersSerializers.MinutesAndSeconds | users/serializers.py:131-132 | floor division: seconds in 0..59 and minutes times 60 plus seconds is the total |
| UsersSerializers.MinutesSecondsRoundTrip | users/serializers.py:131-133 | for time left the text is two colon-separated digit groups, the second two digits wide, that read back as the total |
| UsersSerializers.ExpirationExamples | users/serializers.py:126-133 | the text for 125, 600 and -1 seconds; truncation happens before the floor division |
| UsersViews.TokenStillValid | users/views.py:199-202 | a token is still valid before its lifetime has passed (defined so; stated by the two lemmas below) |
| UsersViews.TokenOfUser | users/views.py:196 | a found token belongs to the user; none found means the user has none |
| UsersViews.FreshTokenValidIffPositiveLifetime | users/views.py:199-202 | a token just created is valid exactly when the lifetime is positive |
| UsersViews.ValidityOnlyRunsOut | users/views.py:199-202 | a token valid now was valid at every earlier instant |
| UsersViews.TelegramTokenGet | users/views.py:195-208 | a still-valid token is returned and nothing changes; an expired one is replaced; with none, exactly one is created; with a positive lifetime the user then holds a valid token |
| UsersWebhooks.LinkChat | users/webhooks.py:67-96 | the word is read as a UUID and the token looked up by its canonical form; one reply at most, to the sender; remaining tokens are unchanged; the token is consumed exactly when no reply is sent |
| UsersWebhooks.LinkedCommand | users/webhooks.py:36-57 | a linked user's command sends exactly one reply, leaves the tokens, and writes at most that user's notification flag |
| UsersWebhooks.Dispatch | users/webhooks.py:33-175 | one reply at most, to the sender; no account is added or removed; tokens only disappear, and every remaining token is unchanged |
| UsersWebhooks.ChatCommand | users/webhooks.py:35-175 | every command but /token sends one reply at most, to the sender, adds or removes no account and leaves the tokens alone |
| UsersWebhooks.TelegramWebhook | users/webhooks.py:30-175 | an update without message, chat id or text is a server error that sends and changes nothing; any other update gets 200 and writes and sends exactly what `Dispatch` states |
| UsersWebhooks.LinkChatInPlace | users/webhooks.py:67-96 | writes and sends exactly what `LinkChat` states |
| UsersWebhooks.LinkedCommandInPlace | users/webhooks.py:36-174 | writes and sends exactly what `LinkedCommand` states |
| UsersWebhooks.UnknownCommandIgnored | users/webhooks.py:35 | an unrecognised command sends nothing and changes nothing |
| UsersWebhooks.UnlinkedChatIsAskedForToken | users/webhooks.py:37-43 | from an unlinked chat every command but /token gets one "Provide your telegram token" reply and changes nothing |
| UsersWebhooks.MalformedTokenRefused | users/webhooks.py:59-83 | a wrong word count, a non-UUID or an unknown token is refused with its reply and changes nothing |
| UsersWebhooks.TokenLinksChat | users/webhooks.py:85-96 | a valid token links the chat and is consumed silently; for an already linked owner the reply says so and nothing changes |
| UsersWebhooks.FlagWriteKeepsChatLookup | users/webhooks.py:153-154 | writing a notification flag leaves the chat lookup as it was |
| UsersWebhooks.NotifySetsFlag | users/webhooks.py:145-174 | /notify enables and /unnotify disables the linked user's notifications, with one reply and no other change |
| UsersWebhooks.NotifyIsIdempotent | users/webhooks.py:145-174 | repeating /notify or /unnotify changes nothing more |
| UsersWebhooks.PaymentsListsOwnPending | users/webhooks.py:97-121 | /payments lists exactly the user's PENDING payments, or says there are none exactly when there are none |
| UsersWebhooks.BorrowingsListsOwnActive | users/webhooks.py:122-144 | /borrowings lists exactly the user's active borrowings, or says there are none exactly when there are none |
| UsersUtils.LinkGoogleId | users/utils.py:109-112 | an account without a Google id gains it and is activated; one with an id is left as it is |
| UsersUtils.GoogleUser | users/utils.py:118-127 | a new account is active, not staff, has an unusable password, and names default to "" |
| UsersUtils.ResolveGoogleUser | users/utils.py:95-129 | a Google id match is returned unchanged; else an email match, linked; else a new row; created exactly when a row was added |
| UsersUtils.GetOrCreateGoogleUser | users/utils.py:95-129 | returns and writes exactly what `ResolveGoogleUser` states |
| UsersUtils.LinkKeepsEmailLookup | users/utils.py:106-112 | linking a Google id leaves the email lookup as it was |
| UsersUtils.SecondSignInFindsSameUser | users/utils.py:95-129 | signing in again with the same data returns the same account as not created, and changes nothing |
| Text.ParseIntRoundTrip | library/views.py:179 | `int()` reads back every integer's decimal text |

## Left out

- **External services.** The Stripe, Telegram, email and Google calls are network I/O. They are parameters: an oracle answer, or `None` where the call raises. `requests.post` becomes a returned message sequence.
- **`GoogleOAuthHandler`** (users/utils.py:15-92) is an OAuth flow through Google's libraries and is not modelled.
- **Concurrency.** `transaction.atomic` is modelled as all-or-nothing in a sequential model. `ReturnActiveBorrowing` stages its writes and commits them together, which has the same effect as writing and rolling back. Concurrent requests and locking are not modelled.
- `ReturnBook`'s `get_object` does not model the queryset filters or the object permissions. An unknown key is 404 "Not found.", DRF's text.
- `ReturnBook`: the return serializer's validation of the supplied date is not modelled. library/serializers.py is not part of this model.
- **Stripe failures.** `ReturnBook` and `RenewPayment` model a raising Stripe call as a 500 without a body. DRF's error page is not modelled.
- **Listings.** The `__str__` texts of the Telegram listings are not modelled, because their definitions are not shown. The messages carry the listed keys.
- **Money.** The decimal columns' rounding on save (`decimal_places=2`) is not modelled: the frozen amount is kept in exact mills.
- `Text.Lower`: only ASCII letters are case-folded. Python's `str.lower` folds all of Unicode.
- `Text.ParseInt`: it accepts an optional `+` or `-` sign followed by decimal digits. It does not accept the surrounding whitespace or the digit-group underscores that `int()` also accepts.
- **Lookup exceptions.** `objects.get` raising `MultipleObjectsReturned` is not modelled: lookups take the least key. `IntegrityError` on duplicate emails is not modelled either.
- `UserManager.SuperuserFields`: a flag must be a boolean, so `is not True` on a non-boolean value is not modelled.
- `UsersUtils.GoogleUser`: a `first_name` or `last_name` key present with the value `None` is treated like a missing key. A missing email is treated like the empty string.
- `UsersUtils.ResolveGoogleUser`: a missing Google id is treated like "". The source would save `None` in that case.
- `UsersSerializers.RemainingSeconds`: `total_seconds()` is a float in the source. Instants here are whole microseconds, so truncation is exact.
- `UsersViews.TelegramTokenGet`: the new token's serializer object (users/views.py:208) is `UnserializedToken`, because that body cannot be rendered.
- `LibraryViews.RenewPayment`: a `payment_id` that is not an integer makes the source raise. Here the id is an integer or missing.
- **Tasks.** The overdue scanner and the notification task are not modelled: users/tasks.py does not show them.
- **Plumbing.** Library serializers, media upload, JWT, throttling, routing and admin registration are not modelled.
