/**
 * The serializers of users/serializers.py that carry logic: registration, the single-use
 * email-verification and password-change tokens, and the remaining lifetime of a Telegram
 * link token. `stripe.Customer.create` is a parameter answering the new customer's id, or
 * `None` where the call raises.
 */
module UsersSerializers {
  import opened Common
  import opened Tables
  import opened Text
  import opened UsersModels
  import opened Store
  import opened UserManager

  // ---------------------------------------------------------------------------------------
  // Registration

  /**
   * `UserSerializer.create`: whatever the input says about `is_active`, the account is
   * created inactive until its email is verified.
   */
  method CreateFromSerializer(db: Database, email: string, password: string, isActive: Option<bool>,
                              normalize: Normalizer, hash: Hasher)
    returns (r: Result<nat, string>)
    requires db.Valid()
    modifies db`users, db`nextId
    ensures db.Valid()
    ensures r.Err? <==> email == ""
    ensures r.Err? ==> db.users == old(db.users) && db.nextId == old(db.nextId)
    ensures r.Ok? ==>
      && r.value !in old(db.users) && r.value in db.users
      && db.users == old(db.users)[r.value := db.users[r.value]]
      && db.users[r.value].email == normalize(email) && db.users[r.value].password == hash(Some(password))
      && !db.users[r.value].isActive && !db.users[r.value].isStaff && !db.users[r.value].isSuperuser
  {
    var fields := ExtraFields(None, None, Some(false), None, None);
    r := CreateUser(db, email, Some(password), fields, normalize, hash);
  }

  // ---------------------------------------------------------------------------------------
  // Single-use tokens

  /** `Model.objects.get(token=value)` on a column whose values are unique. */
  function FindToken<T>(tokens: map<nat, T>, value: Uuid, tokenOf: T -> Uuid, bound: nat): Option<nat> {
    FirstMatch(tokens, (t: T) => tokenOf(t) == value, bound)
  }

  /** No token value occurs twice. */
  predicate UniqueTokens<T>(tokens: map<nat, T>, tokenOf: T -> Uuid) {
    forall j, k :: j in tokens && k in tokens && tokenOf(tokens[j]) == tokenOf(tokens[k]) ==> j == k
  }

  /**
   * `validate_token` of `VerifyEmailSerializer` and `ConfirmPasswordChangeSerializer`: the
   * key of the token holding `value`, unless there is none or it is more than an hour old.
   */
  function ValidateToken<T>(tokens: map<nat, T>, value: Uuid, now: Instant, bound: nat,
                            tokenOf: T -> Uuid, createdAtOf: T -> Instant): (r: Result<nat, string>)
    ensures r.Ok? ==>
      r.value in tokens && tokenOf(tokens[r.value]) == value && !TokenExpired(createdAtOf(tokens[r.value]), now)
    ensures r.Err? ==> r.error == "Invalid token" || r.error == "Token has expired"
    ensures KeysBelow(tokens, bound) ==>
      (r == Err("Invalid token") <==> forall k :: k in tokens ==> tokenOf(tokens[k]) != value)
    ensures KeysBelow(tokens, bound) && UniqueTokens(tokens, tokenOf) ==>
      forall k :: k in tokens && tokenOf(tokens[k]) == value ==>
        (r == Err("Token has expired") <==> TokenExpired(createdAtOf(tokens[k]), now))
        && (r.Ok? <==> r == Ok(k))
  {
    match FindToken(tokens, value, tokenOf, bound)
    case None => Err("Invalid token")
    case Some(k) =>
      if TokenExpired(createdAtOf(tokens[k]), now) then Err("Token has expired") else Ok(k)
  }

  function ValidateEmailToken(tokens: map<nat, EmailVerificationToken>, value: Uuid, now: Instant, bound: nat)
    : Result<nat, string>
  {
    ValidateToken(tokens, value, now, bound, (t: EmailVerificationToken) => t.token,
                  (t: EmailVerificationToken) => t.createdAt)
  }

  function ValidatePasswordToken(tokens: map<nat, PasswordChangeToken>, value: Uuid, now: Instant, bound: nat)
    : Result<nat, string>
  {
    ValidateToken(tokens, value, now, bound, (t: PasswordChangeToken) => t.token,
                  (t: PasswordChangeToken) => t.createdAt)
  }

  /** Once a token row is deleted its value is invalid, whenever it is presented again. */
  lemma TokenIsSingleUse<T>(tokens: map<nat, T>, k: nat, now: Instant, bound: nat,
                            tokenOf: T -> Uuid, createdAtOf: T -> Instant)
    requires KeysBelow(tokens, bound) && UniqueTokens(tokens, tokenOf) && k in tokens
    ensures ValidateToken(tokens - {k}, tokenOf(tokens[k]), now, bound, tokenOf, createdAtOf) == Err("Invalid token")
  {
    var rest := tokens - {k};
    assert forall j :: j in rest ==> tokenOf(rest[j]) != tokenOf(tokens[k]);
  }

  /**
   * `VerifyEmailSerializer.save` for the validated token `tokenKey`: the owner becomes active
   * with a new Stripe customer, and the token is deleted. `None` where Stripe raises, and then
   * nothing is saved.
   */
  method SaveEmailVerification(db: Database, tokenKey: nat, createCustomer: string -> Option<string>)
    returns (userId: Option<nat>)
    requires db.Valid() && db.UniqueTokenColumns() && tokenKey in db.emailTokens
    modifies db`users, db`emailTokens
    ensures db.Valid() && db.UniqueTokenColumns()
    ensures var u := old(db.emailTokens[tokenKey]).userId;
      var customer := createCustomer(old(db.users[u]).email);
      && (customer.None? ==> userId.None? && db.users == old(db.users) && db.emailTokens == old(db.emailTokens))
      && (customer.Some? ==>
            && userId == Some(u)
            && db.users == old(db.users)[u := old(db.users[u]).(isActive := true, stripeCustomerId := customer.value)]
            && db.emailTokens == old(db.emailTokens) - {tokenKey})
  {
    var u := db.emailTokens[tokenKey].userId;
    var user := db.users[u];
    var customer := createCustomer(user.email);
    if customer.None? {
      return None;
    }
    db.users := db.users[u := user.(isActive := true, stripeCustomerId := customer.value)];
    db.emailTokens := db.emailTokens - {tokenKey};
    return Some(u);
  }

  /** After a verification the same token is refused as invalid. */
  lemma VerifiedTokenIsRefused(db: Database, tokenKey: nat, now: Instant)
    requires db.Valid() && db.UniqueTokenColumns() && tokenKey in db.emailTokens
    ensures ValidateEmailToken(db.emailTokens - {tokenKey}, db.emailTokens[tokenKey].token, now, db.nextId)
         == Err("Invalid token")
  {
    TokenIsSingleUse(db.emailTokens, tokenKey, now, db.nextId,
                     (t: EmailVerificationToken) => t.token, (t: EmailVerificationToken) => t.createdAt);
  }

  /**
   * `ConfirmPasswordChangeSerializer.save` for the validated token `tokenKey`: the owner's
   * password becomes the hash stored with the token, and the token is deleted.
   */
  method SavePasswordChange(db: Database, tokenKey: nat) returns (userId: nat)
    requires db.Valid() && db.UniqueTokenColumns() && tokenKey in db.passwordTokens
    modifies db`users, db`passwordTokens
    ensures db.Valid() && db.UniqueTokenColumns()
    ensures var t := old(db.passwordTokens[tokenKey]);
      && userId == t.userId
      && db.users == old(db.users)[userId := old(db.users[userId]).(password := t.passwordHash)]
      && db.passwordTokens == old(db.passwordTokens) - {tokenKey}
  {
    var t := db.passwordTokens[tokenKey];
    userId := t.userId;
    db.users := db.users[userId := db.users[userId].(password := t.passwordHash)];
    db.passwordTokens := db.passwordTokens - {tokenKey};
  }

  /** After a password change the same token is refused as invalid. */
  lemma ConfirmedTokenIsRefused(db: Database, tokenKey: nat, now: Instant)
    requires db.Valid() && db.UniqueTokenColumns() && tokenKey in db.passwordTokens
    ensures ValidatePasswordToken(db.passwordTokens - {tokenKey}, db.passwordTokens[tokenKey].token, now, db.nextId)
         == Err("Invalid token")
  {
    TokenIsSingleUse(db.passwordTokens, tokenKey, now, db.nextId,
                     (t: PasswordChangeToken) => t.token, (t: PasswordChangeToken) => t.createdAt);
  }

  // ---------------------------------------------------------------------------------------
  // Remaining lifetime of a Telegram link token

  /** `int(x)` of a quotient: the quotient truncated toward zero. */
  function TruncatedQuotient(n: int, d: int): (q: int)
    requires d > 0
    ensures n >= 0 ==> q * d <= n < q * d + d
    ensures n < 0 ==> q * d - d < n <= q * d
  {
    if n >= 0 then n / d else -((-n) / d)
  }

  /** `int(remaining.total_seconds())`, the whole seconds left before the token's lifetime ends. */
  function RemainingSeconds(createdAt: Instant, lifetimeMinutes: int, now: Instant): (r: int)
    ensures var left := createdAt + lifetimeMinutes * Minute - now;
      && (left >= 0 ==> 0 <= r * Second <= left < r * Second + Second)
      && (left < 0 ==> r * Second - Second < left <= r * Second <= 0)
  {
    TruncatedQuotient(createdAt + lifetimeMinutes * Minute - now, Second)
  }

  /** `total // 60` and `total % 60`: Python's floor division, so the seconds are never negative. */
  function MinutesAndSeconds(total: int): (r: (int, int))
    ensures 0 <= r.1 < 60 && r.0 * 60 + r.1 == total
  {
    (total / 60, total % 60)
  }

  /** `f"{minutes:02d}:{seconds:02d}"`. */
  function MinutesSecondsText(total: int): string {
    var (minutes, seconds) := MinutesAndSeconds(total);
    Pad2(minutes) + ":" + Pad2(seconds)
  }

  /** `TelegramTokenSerializer.get_expiration_in`. */
  function ExpirationIn(token: TelegramToken, lifetimeMinutes: int, now: Instant): string {
    MinutesSecondsText(RemainingSeconds(token.createdAt, lifetimeMinutes, now))
  }

  /**
   * For time left, the text is "MM:SS": zero-padded minutes, a colon and two digits of
   * seconds, which read back as the whole seconds left.
   */
  lemma {:induction false} MinutesSecondsRoundTrip(total: nat)
    ensures var words := Split(MinutesSecondsText(total), ':');
      && |words| == 2
      && |words[0]| >= 2 && AllDigits(words[0]) && |words[1]| == 2 && AllDigits(words[1])
      && DecimalValue(words[0]) * 60 + DecimalValue(words[1]) == total
  {
    var (minutes, seconds) := MinutesAndSeconds(total);
    Pad2Digits(minutes);
    Pad2Digits(seconds);
    var a, b := Pad2(minutes), Pad2(seconds);
    assert ':' !in a by {
      forall i | 0 <= i < |a| ensures a[i] != ':' {
        assert IsDigit(a[i]);
      }
    }
    assert ':' !in b by {
      forall i | 0 <= i < |b| ensures b[i] != ':' {
        assert IsDigit(b[i]);
      }
    }
    SplitAtSeparator(a, b, ':');
    assert MinutesSecondsText(total) == a + [':'] + b;
  }

  /** Truncation happens before the floor division: a second and a half overdue shows as "-1:59". */
  lemma ExpirationExamples(createdAt: Instant)
    ensures RemainingSeconds(createdAt, 5, createdAt + 4 * Minute + 1_500_000) == 58
    ensures RemainingSeconds(createdAt, 5, createdAt + 5 * Minute + 1_500_000) == -1
    ensures MinutesSecondsText(125) == "02:05"
    ensures MinutesSecondsText(-1) == "-1:59"
    ensures MinutesSecondsText(600) == "10:00"
  {
    assert MinutesAndSeconds(125) == (2, 5);
    assert MinutesAndSeconds(-1) == (-1, 59);
    assert MinutesAndSeconds(600) == (10, 0);
    assert NatToDecimal(59) == NatToDecimal(5) + [Digit(9)];
    assert NatToDecimal(10) == NatToDecimal(1) + [Digit(0)];
  }
}
