/**
 * `TelegramTokenAPIView.get` of users/views.py: hand the signed-in user their Telegram link
 * token, reusing one still within its lifetime and otherwise replacing it. The new token's
 * UUID (`uuid.uuid4`) and the clock are parameters; the lifetime is the
 * `TELEGRAM_TOKEN_LIFETIME_MINUTES` setting.
 */
module UsersViews {
  import opened Common
  import opened Tables
  import opened UsersModels
  import opened Store
  import opened UsersSerializers

  /**
   * The response body: the serialized token, or (for a newly created token) the serializer
   * object itself, which line 208 hands to `Response` instead of its `.data`.
   */
  datatype TokenResponse = TokenData(token: Uuid, expirationIn: string) | UnserializedToken(token: Uuid)

  /** `created_at + timedelta(minutes=lifetime) > timezone.now()`. */
  predicate TokenStillValid(createdAt: Instant, lifetimeMinutes: int, now: Instant) {
    createdAt + lifetimeMinutes * Minute > now
  }

  /** `TelegramToken.objects.filter(user=user).first()`. */
  function TokenOfUser(tokens: map<nat, TelegramToken>, userId: nat, bound: nat): (r: Option<nat>)
    ensures r.Some? ==> r.value in tokens && tokens[r.value].userId == userId
    ensures r.None? && KeysBelow(tokens, bound) ==> forall k :: k in tokens ==> tokens[k].userId != userId
  {
    FirstMatch(tokens, (t: TelegramToken) => t.userId == userId, bound)
  }

  /** A token only just created is valid exactly when the lifetime is positive. */
  lemma FreshTokenValidIffPositiveLifetime(now: Instant, lifetimeMinutes: int)
    ensures TokenStillValid(now, lifetimeMinutes, now) <==> lifetimeMinutes > 0
  {
    if lifetimeMinutes <= 0 {
      assert lifetimeMinutes * Minute <= 0;
    }
  }

  /** A token valid now was valid at every earlier instant. */
  lemma ValidityOnlyRunsOut(createdAt: Instant, lifetimeMinutes: int, earlier: Instant, now: Instant)
    requires earlier <= now && TokenStillValid(createdAt, lifetimeMinutes, now)
    ensures TokenStillValid(createdAt, lifetimeMinutes, earlier)
  {
  }

  method TelegramTokenGet(db: Database, userId: nat, now: Instant, lifetimeMinutes: int, freshToken: Uuid)
    returns (r: TokenResponse)
    requires db.Valid() && userId in db.users
    modifies db`telegramTokens, db`nextId
    ensures db.Valid()
    ensures var existing := TokenOfUser(old(db.telegramTokens), userId, old(db.nextId));
      var created := TelegramToken(userId, freshToken, now);
      && (existing.Some? && TokenStillValid(old(db.telegramTokens[existing.value]).createdAt, lifetimeMinutes, now) ==>
            var t := old(db.telegramTokens[existing.value]);
            && r == TokenData(t.token, ExpirationIn(t, lifetimeMinutes, now))
            && db.telegramTokens == old(db.telegramTokens) && db.nextId == old(db.nextId))
      && (existing.Some? && !TokenStillValid(old(db.telegramTokens[existing.value]).createdAt, lifetimeMinutes, now) ==>
            && r == UnserializedToken(freshToken)
            && db.telegramTokens == (old(db.telegramTokens) - {existing.value})[old(db.nextId) := created]
            && db.nextId == old(db.nextId) + 1)
      && (existing.None? ==>
            && r == UnserializedToken(freshToken)
            && db.telegramTokens == old(db.telegramTokens)[old(db.nextId) := created]
            && db.nextId == old(db.nextId) + 1)
    ensures old(db.nextId) !in old(db.telegramTokens)
    ensures lifetimeMinutes > 0 ==>
      exists k :: k in db.telegramTokens && db.telegramTokens[k].userId == userId
        && TokenStillValid(db.telegramTokens[k].createdAt, lifetimeMinutes, now)
  {
    var existing := TokenOfUser(db.telegramTokens, userId, db.nextId);
    if existing.Some? {
      var t := db.telegramTokens[existing.value];
      if TokenStillValid(t.createdAt, lifetimeMinutes, now) {
        return TokenData(t.token, ExpirationIn(t, lifetimeMinutes, now));
      }
      db.telegramTokens := db.telegramTokens - {existing.value};
    }
    var key := db.nextId;
    db.telegramTokens := db.telegramTokens[key := TelegramToken(userId, freshToken, now)];
    db.nextId := key + 1;
    FreshTokenValidIffPositiveLifetime(now, lifetimeMinutes);
    assert db.telegramTokens[key].userId == userId;
    return UnserializedToken(freshToken);
  }
}
