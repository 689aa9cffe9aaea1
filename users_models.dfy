/**
 * The user records of users/models.py and the one-hour expiry rule of the email-verification
 * and password-change tokens. Instants are microseconds, the resolution of a Django
 * `DateTimeField`; UUIDs are their canonical text.
 */
module UsersModels {
  import opened Common

  type Instant = int
  type Uuid = string

  const Second: int := 1_000_000
  const Minute: int := 60 * Second
  const Hour: int := 60 * Minute

  /**
   * A user row. A blank `telegram_chat_id` is `None`; a blank or null `google_id` is "";
   * `password` is the encoded password `set_password` stores.
   */
  datatype User = User(
    email: string,
    password: string,
    firstName: string,
    lastName: string,
    isStaff: bool,
    isSuperuser: bool,
    isActive: bool,
    stripeCustomerId: string,
    telegramChatId: Option<int>,
    telegramNotificationsEnabled: bool,
    googleId: string)

  datatype EmailVerificationToken = EmailVerificationToken(userId: nat, token: Uuid, createdAt: Instant) {
    predicate IsExpired(now: Instant) {
      TokenExpired(createdAt, now)
    }
  }

  datatype PasswordChangeToken = PasswordChangeToken(userId: nat, token: Uuid, passwordHash: string, createdAt: Instant) {
    predicate IsExpired(now: Instant) {
      TokenExpired(createdAt, now)
    }
  }

  /** The token that links a Telegram chat to an account. */
  datatype TelegramToken = TelegramToken(userId: nat, token: Uuid, createdAt: Instant)

  /** `created_at < timezone.now() - timedelta(hours=1)`: the token is more than an hour old. */
  predicate TokenExpired(createdAt: Instant, now: Instant)
    ensures TokenExpired(createdAt, now) <==> now - createdAt > Hour
  {
    createdAt < now - Hour
  }

  /** A token exactly one hour old is still valid; one microsecond later it has expired. */
  lemma ExpiryBoundary(now: Instant)
    ensures !TokenExpired(now - Hour, now)
    ensures TokenExpired(now - Hour - 1, now)
  {
  }

  /** Expiry is permanent: a token expired at some instant is expired at every later one. */
  lemma ExpiryIsPermanent(createdAt: Instant, now: Instant, later: Instant)
    requires now <= later && TokenExpired(createdAt, now)
    ensures TokenExpired(createdAt, later)
  {
  }
}
