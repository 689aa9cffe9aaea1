/**
 * The Telegram bot webhook of users/webhooks.py. Each update carries a chat id and a text;
 * the first space-separated word selects the command. A reply that `requests.post` would
 * send to Telegram is appended to the messages the handler returns. `uuid.UUID` reading the
 * token is a parameter: it answers the UUID's canonical text, or `None` where it raises.
 *
 * `Dispatch` states what the handler does; `TelegramWebhook` is the handler, which updates
 * the users and tokens in place.
 */
module UsersWebhooks {
  import opened Common
  import opened Tables
  import opened Text
  import opened LibraryModels
  import opened UsersModels
  import opened Store
  import opened LibraryViews

  const ProvideToken: string := "Provide your telegram token first with /token command."
  const Welcome: string :=
    "*Welcome to the library service!*\n\n"
    + "_Commands:_\n"
    + "/borrowings - see your active borrowings\n"
    + "/payments - see your pending payments\n"
    + "/notify - enable notifications about overdue borrowings, new borrowings, and successful payments\n"
    + "/unnotify - disable notifications\n"
  const InvalidTokenFormat: string := "Invalid token format. Use /token <token>."
  const InvalidToken: string := "Invalid token."
  const AlreadyLinked: string := "Your account is already linked to a Telegram chat."
  const NoPendingPayments: string := "You have no pending payments."
  const NoActiveBorrowings: string := "You have no active borrowings."
  const NotificationsEnabled: string := "Your notification enabled."
  const NotificationsDisabled: string := "Your notification disabled."

  /** The commands that need a linked chat. */
  predicate NeedsLinkedChat(command: string) {
    command == "/start" || command == "/payments" || command == "/borrowings"
    || command == "/notify" || command == "/unnotify"
  }

  predicate IsCommand(command: string) {
    NeedsLinkedChat(command) || command == "/token"
  }

  /**
   * A message text. The welcome menu is `Welcome`, sent as Markdown. The listings render each
   * record with its `__str__`, which is not part of this model, so they carry the records'
   * keys in the order the query yields them.
   */
  datatype Body =
    | Text(text: string)
    | WelcomeMenu
    | PendingPayments(payments: seq<nat>)
    | ActiveBorrowings(borrowings: seq<nat>)

  /** The text a body stands for, where the model has it. */
  function BodyText(body: Body): Option<string> {
    match body
    case Text(text) => Some(text)
    case WelcomeMenu => Some(Welcome)
    case _ => None
  }

  /** One `sendMessage` call; `markdown` is `"parse_mode": "Markdown"`. */
  datatype Message = Message(chatId: int, body: Body, markdown: bool)

  /**
   * The fields of a Telegram update the handler reads: `message.chat.id` and `message.text`.
   * An update without them (or a body that is not JSON) makes the handler raise.
   */
  datatype TelegramUpdate = TelegramUpdate(chatId: int, text: string)

  /** `uuid.UUID(value)`: the canonical text of the UUID `value` spells, if it spells one. */
  type UuidParser = string -> Option<Uuid>

  datatype Outcome = Outcome(users: map<nat, User>, telegramTokens: map<nat, TelegramToken>, sent: seq<Message>)

  function Reply(chatId: int, text: string): seq<Message> {
    [Message(chatId, Text(text), false)]
  }

  /** `get_user_by_telegram_chat_id`. */
  function UserByChat(users: map<nat, User>, chatId: int, bound: nat): Option<nat> {
    FirstMatch(users, (u: User) => u.telegramChatId == Some(chatId), bound)
  }

  /** `if user.telegram_chat_id:`: the column is blank or null until a chat is linked. */
  predicate IsLinked(u: User) {
    u.telegramChatId.Some?
  }

  /** `Payment.objects.filter(borrowing__user=user, status=PENDING)`. */
  function PendingPaymentsOf(payments: map<nat, Payment>, borrowings: map<nat, Borrowing>, userId: nat, bound: nat)
    : seq<nat>
  {
    KeysFrom(payments, (p: Payment) => p.status == Pending && PaidBy(p, borrowings, userId), 0, bound)
  }

  /** `user.borrowings.filter(is_active=True)`. */
  function ActiveBorrowingsOf(borrowings: map<nat, Borrowing>, userId: nat, bound: nat): seq<nat> {
    KeysFrom(borrowings, (b: Borrowing) => b.userId == userId && b.isActive, 0, bound)
  }

  /**
   * `TelegramToken.objects.filter(token=token).first()`. The `UUIDField` compares UUIDs, not
   * spellings, so the lookup is by the canonical text `value` the parser produced; stored
   * tokens are `uuid.uuid4()` values, kept in canonical form.
   */
  function TokenByValue(tokens: map<nat, TelegramToken>, value: string, bound: nat): Option<nat> {
    FirstMatch(tokens, (t: TelegramToken) => t.token == value, bound)
  }

  /** The tokens of `after` are tokens of `before`, each unchanged. */
  predicate TokensKept(before: map<nat, TelegramToken>, after: map<nat, TelegramToken>) {
    forall k :: k in after ==> k in before && after[k] == before[k]
  }

  /** Every token belongs to an existing user (the foreign key). */
  predicate TokensOwned(users: map<nat, User>, tokens: map<nat, TelegramToken>) {
    forall k :: k in tokens ==> tokens[k].userId in users
  }

  /** `/token <value>`: link the chat to the token's owner and consume the token. */
  function LinkChat(users: map<nat, User>, tokens: map<nat, TelegramToken>, chatId: int,
                    value: string, parseUuid: UuidParser, bound: nat): (r: Outcome)
    requires TokensOwned(users, tokens)
    ensures |r.sent| <= 1 && forall m :: m in r.sent ==> m.chatId == chatId
    ensures r.users.Keys == users.Keys && r.telegramTokens.Keys <= tokens.Keys
    ensures TokensKept(tokens, r.telegramTokens)
    ensures TokensOwned(r.users, r.telegramTokens)
    ensures r.sent == [] <==> r.telegramTokens != tokens
  {
    match parseUuid(value)
    case None => Outcome(users, tokens, Reply(chatId, InvalidToken))
    case Some(id) =>
      match TokenByValue(tokens, id, bound)
      case None => Outcome(users, tokens, Reply(chatId, InvalidToken))
      case Some(k) =>
        var owner := tokens[k].userId;
        if IsLinked(users[owner]) then Outcome(users, tokens, Reply(chatId, AlreadyLinked))
        else
          assert k !in tokens - {k};
          Outcome(users[owner := users[owner].(telegramChatId := Some(chatId))], tokens - {k}, [])
  }

  /**
   * The commands that need a linked chat, for the user `u` linked to it: they reply with one
   * message, leave the tokens alone, and only /notify and /unnotify write, to `u`'s flag alone.
   */
  function LinkedCommand(users: map<nat, User>, tokens: map<nat, TelegramToken>, payments: map<nat, Payment>,
                         borrowings: map<nat, Borrowing>, chatId: int, command: string, u: nat, bound: nat)
    : (r: Outcome)
    requires u in users && NeedsLinkedChat(command)
    ensures |r.sent| == 1 && r.sent[0].chatId == chatId
    ensures r.telegramTokens == tokens
    ensures r.users.Keys == users.Keys
    ensures r.users == users || r.users == users[u := users[u].(telegramNotificationsEnabled := r.users[u].telegramNotificationsEnabled)]
  {
    if command == "/start" then Outcome(users, tokens, [Message(chatId, WelcomeMenu, true)])
    else if command == "/payments" then
      var pending := PendingPaymentsOf(payments, borrowings, u, bound);
      if pending == [] then Outcome(users, tokens, Reply(chatId, NoPendingPayments))
      else Outcome(users, tokens, [Message(chatId, PendingPayments(pending), false)])
    else if command == "/borrowings" then
      var active := ActiveBorrowingsOf(borrowings, u, bound);
      if active == [] then Outcome(users, tokens, Reply(chatId, NoActiveBorrowings))
      else Outcome(users, tokens, [Message(chatId, ActiveBorrowings(active), false)])
    else if command == "/notify" then
      Outcome(users[u := users[u].(telegramNotificationsEnabled := true)], tokens, Reply(chatId, NotificationsEnabled))
    else
      Outcome(users[u := users[u].(telegramNotificationsEnabled := false)], tokens, Reply(chatId, NotificationsDisabled))
  }

  /** What `telegram_webhook` does for the update `text` from chat `chatId`. */
  function Dispatch(users: map<nat, User>, tokens: map<nat, TelegramToken>, payments: map<nat, Payment>,
                    borrowings: map<nat, Borrowing>, chatId: int, text: string,
                    parseUuid: UuidParser, bound: nat): (r: Outcome)
    requires TokensOwned(users, tokens)
    ensures |r.sent| <= 1 && forall m :: m in r.sent ==> m.chatId == chatId
    ensures r.users.Keys == users.Keys && r.telegramTokens.Keys <= tokens.Keys
    ensures TokensKept(tokens, r.telegramTokens)
    ensures TokensOwned(r.users, r.telegramTokens)
  {
    var words := Split(text, ' ');
    var command := words[0];
    if command == "/token" then
      if |words| != 2 then Outcome(users, tokens, Reply(chatId, InvalidTokenFormat))
      else LinkChat(users, tokens, chatId, words[1], parseUuid, bound)
    else ChatCommand(users, tokens, payments, borrowings, chatId, command, bound)
  }

  /**
   * Every first word but /token: the commands that need a linked chat ask for a token when
   * none is linked, and any other word is ignored. The tokens are left alone.
   */
  function ChatCommand(users: map<nat, User>, tokens: map<nat, TelegramToken>, payments: map<nat, Payment>,
                       borrowings: map<nat, Borrowing>, chatId: int, command: string, bound: nat): (r: Outcome)
    ensures |r.sent| <= 1 && forall m :: m in r.sent ==> m.chatId == chatId
    ensures r.users.Keys == users.Keys && r.telegramTokens == tokens
  {
    if !NeedsLinkedChat(command) then Outcome(users, tokens, [])
    else match UserByChat(users, chatId, bound)
      case None => Outcome(users, tokens, Reply(chatId, ProvideToken))
      case Some(u) => LinkedCommand(users, tokens, payments, borrowings, chatId, command, u, bound)
  }

  /**
   * `telegram_webhook` for the update `update`, `None` where the body lacks the message, its
   * chat id or its text: the handler then raises before doing anything, which is a server
   * error. Every other path answers 200.
   */
  method TelegramWebhook(db: Database, update: Option<TelegramUpdate>, parseUuid: UuidParser)
    returns (status: int, sent: seq<Message>)
    requires db.Valid()
    modifies db`users, db`telegramTokens
    ensures db.Valid()
    ensures update.None? ==>
      status == HttpServerError && sent == [] && db.users == old(db.users) && db.telegramTokens == old(db.telegramTokens)
    ensures update.Some? ==> status == HttpOk
    ensures update.Some? ==>
      var r := Dispatch(old(db.users), old(db.telegramTokens), db.payments, db.borrowings,
                        update.value.chatId, update.value.text, parseUuid, db.nextId);
      db.users == r.users && db.telegramTokens == r.telegramTokens && sent == r.sent
  {
    if update.None? {
      return HttpServerError, [];
    }
    var chatId, text := update.value.chatId, update.value.text;
    status := HttpOk;
    var words := Split(text, ' ');
    var command := words[0];
    if command == "/token" {
      if |words| != 2 {
        return status, Reply(chatId, InvalidTokenFormat);
      }
      sent := LinkChatInPlace(db, chatId, words[1], parseUuid);
      return;
    }
    if !NeedsLinkedChat(command) {
      return status, [];
    }
    var user := UserByChat(db.users, chatId, db.nextId);
    if user.None? {
      return status, Reply(chatId, ProvideToken);
    }
    sent := LinkedCommandInPlace(db, chatId, command, user.value);
  }

  /** The `/token` case of `telegram_webhook` once the text has two words. */
  method LinkChatInPlace(db: Database, chatId: int, value: string, parseUuid: UuidParser)
    returns (sent: seq<Message>)
    requires db.Valid()
    modifies db`users, db`telegramTokens
    ensures db.Valid()
    ensures var r := LinkChat(old(db.users), old(db.telegramTokens), chatId, value, parseUuid, db.nextId);
      db.users == r.users && db.telegramTokens == r.telegramTokens && sent == r.sent
  {
    var id := parseUuid(value);
    if id.None? {
      return Reply(chatId, InvalidToken);
    }
    var found := TokenByValue(db.telegramTokens, id.value, db.nextId);
    if found.None? {
      return Reply(chatId, InvalidToken);
    }
    var owner := db.telegramTokens[found.value].userId;
    if IsLinked(db.users[owner]) {
      return Reply(chatId, AlreadyLinked);
    }
    db.users := db.users[owner := db.users[owner].(telegramChatId := Some(chatId))];
    db.telegramTokens := db.telegramTokens - {found.value};
    return [];
  }

  /** The commands of `telegram_webhook` that run for the user `u` linked to the chat. */
  method LinkedCommandInPlace(db: Database, chatId: int, command: string, u: nat)
    returns (sent: seq<Message>)
    requires db.Valid() && u in db.users && NeedsLinkedChat(command)
    modifies db`users
    ensures db.Valid()
    ensures var r := LinkedCommand(old(db.users), db.telegramTokens, db.payments, db.borrowings, chatId, command, u, db.nextId);
      db.users == r.users && sent == r.sent
  {
    if command == "/start" {
      sent := [Message(chatId, WelcomeMenu, true)];
    } else if command == "/payments" {
      var pending := PendingPaymentsOf(db.payments, db.borrowings, u, db.nextId);
      if pending == [] {
        return Reply(chatId, NoPendingPayments);
      }
      sent := [Message(chatId, PendingPayments(pending), false)];
    } else if command == "/borrowings" {
      var active := ActiveBorrowingsOf(db.borrowings, u, db.nextId);
      if active == [] {
        return Reply(chatId, NoActiveBorrowings);
      }
      sent := [Message(chatId, ActiveBorrowings(active), false)];
    } else if command == "/notify" {
      db.users := db.users[u := db.users[u].(telegramNotificationsEnabled := true)];
      sent := Reply(chatId, NotificationsEnabled);
    } else {
      db.users := db.users[u := db.users[u].(telegramNotificationsEnabled := false)];
      sent := Reply(chatId, NotificationsDisabled);
    }
  }

  // ---------------------------------------------------------------------------------------
  // Properties of the commands

  /** Any other first word is ignored: no reply and no change. */
  lemma UnknownCommandIgnored(users: map<nat, User>, tokens: map<nat, TelegramToken>,
                              payments: map<nat, Payment>, borrowings: map<nat, Borrowing>,
                              chatId: int, text: string, parseUuid: UuidParser, bound: nat)
    requires TokensOwned(users, tokens)
    requires !IsCommand(Split(text, ' ')[0])
    ensures Dispatch(users, tokens, payments, borrowings, chatId, text, parseUuid, bound) == Outcome(users, tokens, [])
  {
  }

  /** From a chat no account is linked to, the commands other than /token only ask for a token. */
  lemma UnlinkedChatIsAskedForToken(users: map<nat, User>, tokens: map<nat, TelegramToken>,
                                    payments: map<nat, Payment>, borrowings: map<nat, Borrowing>,
                                    chatId: int, text: string, parseUuid: UuidParser, bound: nat)
    requires TokensOwned(users, tokens) && KeysBelow(users, bound)
    requires forall k :: k in users ==> users[k].telegramChatId != Some(chatId)
    requires NeedsLinkedChat(Split(text, ' ')[0])
    ensures Dispatch(users, tokens, payments, borrowings, chatId, text, parseUuid, bound)
         == Outcome(users, tokens, Reply(chatId, ProvideToken))
  {
  }

  /** `/token` needs exactly one argument, a UUID that names a token; each refusal changes nothing. */
  lemma MalformedTokenRefused(users: map<nat, User>, tokens: map<nat, TelegramToken>,
                              payments: map<nat, Payment>, borrowings: map<nat, Borrowing>,
                              chatId: int, text: string, parseUuid: UuidParser, bound: nat)
    requires TokensOwned(users, tokens) && KeysBelow(tokens, bound)
    requires Split(text, ' ')[0] == "/token"
    ensures var words := Split(text, ' ');
      var r := Dispatch(users, tokens, payments, borrowings, chatId, text, parseUuid, bound);
      && (|words| != 2 ==> r == Outcome(users, tokens, Reply(chatId, InvalidTokenFormat)))
      && (|words| == 2 && parseUuid(words[1]).None? ==> r == Outcome(users, tokens, Reply(chatId, InvalidToken)))
      && (|words| == 2 && parseUuid(words[1]).Some?
          && (forall k :: k in tokens ==> tokens[k].token != parseUuid(words[1]).value) ==>
            r == Outcome(users, tokens, Reply(chatId, InvalidToken)))
  {
  }

  /**
   * A valid token links the chat to its owner and is consumed, with no reply; if the owner is
   * linked already, the reply says so and the token and chat id stay as they were.
   */
  lemma TokenLinksChat(users: map<nat, User>, tokens: map<nat, TelegramToken>,
                       payments: map<nat, Payment>, borrowings: map<nat, Borrowing>,
                       chatId: int, text: string, parseUuid: UuidParser, bound: nat, k: nat)
    requires TokensOwned(users, tokens) && KeysBelow(tokens, bound)
    requires var words := Split(text, ' '); |words| == 2 && words[0] == "/token"
    requires k in tokens && parseUuid(Split(text, ' ')[1]) == Some(tokens[k].token)
    requires forall j :: j in tokens && j != k ==> tokens[j].token != tokens[k].token
    ensures var owner := tokens[k].userId;
      var r := Dispatch(users, tokens, payments, borrowings, chatId, text, parseUuid, bound);
      && (IsLinked(users[owner]) ==> r == Outcome(users, tokens, Reply(chatId, AlreadyLinked)))
      && (!IsLinked(users[owner]) ==>
            && r.users == users[owner := users[owner].(telegramChatId := Some(chatId))]
            && r.telegramTokens == tokens - {k}
            && r.sent == [])
  {
    FirstMatchUnique(tokens, (t: TelegramToken) => t.token == tokens[k].token, bound, k);
  }

  /** Writing a notification flag leaves every chat id, hence the chat lookup, as it was. */
  lemma {:induction false} FlagWriteKeepsChatLookup(users: map<nat, User>, u: nat, flag: bool, chatId: int, bound: nat)
    requires u in users
    ensures UserByChat(users[u := users[u].(telegramNotificationsEnabled := flag)], chatId, bound)
         == UserByChat(users, chatId, bound)
  {
    var after := users[u := users[u].(telegramNotificationsEnabled := flag)];
    FirstMatchAgrees(users, after, (x: User) => x.telegramChatId == Some(chatId), bound);
  }

  /** /notify and /unnotify set the linked user's flag, reply once, and change nothing else. */
  lemma NotifySetsFlag(users: map<nat, User>, tokens: map<nat, TelegramToken>,
                       payments: map<nat, Payment>, borrowings: map<nat, Borrowing>,
                       chatId: int, text: string, parseUuid: UuidParser, bound: nat)
    requires TokensOwned(users, tokens)
    requires Split(text, ' ')[0] == "/notify" || Split(text, ' ')[0] == "/unnotify"
    requires UserByChat(users, chatId, bound).Some?
    ensures var u := UserByChat(users, chatId, bound).value;
      var flag := Split(text, ' ')[0] == "/notify";
      Dispatch(users, tokens, payments, borrowings, chatId, text, parseUuid, bound)
        == Outcome(users[u := users[u].(telegramNotificationsEnabled := flag)], tokens,
                   Reply(chatId, if flag then NotificationsEnabled else NotificationsDisabled))
  {
    var u := UserByChat(users, chatId, bound).value;
    var command := Split(text, ' ')[0];
    assert Dispatch(users, tokens, payments, borrowings, chatId, text, parseUuid, bound)
        == LinkedCommand(users, tokens, payments, borrowings, chatId, command, u, bound);
  }

  /** Repeating /notify or /unnotify changes nothing more. */
  lemma NotifyIsIdempotent(users: map<nat, User>, tokens: map<nat, TelegramToken>,
                           payments: map<nat, Payment>, borrowings: map<nat, Borrowing>,
                           chatId: int, text: string, parseUuid: UuidParser, bound: nat)
    requires TokensOwned(users, tokens)
    requires Split(text, ' ')[0] == "/notify" || Split(text, ' ')[0] == "/unnotify"
    requires UserByChat(users, chatId, bound).Some?
    ensures var once := Dispatch(users, tokens, payments, borrowings, chatId, text, parseUuid, bound);
      Dispatch(once.users, once.telegramTokens, payments, borrowings, chatId, text, parseUuid, bound) == once
  {
    var u := UserByChat(users, chatId, bound).value;
    var flag := Split(text, ' ')[0] == "/notify";
    var after := users[u := users[u].(telegramNotificationsEnabled := flag)];
    NotifySetsFlag(users, tokens, payments, borrowings, chatId, text, parseUuid, bound);
    FlagWriteKeepsChatLookup(users, u, flag, chatId, bound);
    NotifySetsFlag(after, tokens, payments, borrowings, chatId, text, parseUuid, bound);
    assert after[u := after[u].(telegramNotificationsEnabled := flag)] == after;
  }

  /** /payments lists exactly the linked user's PENDING payments, ascending, or says there are none. */
  lemma PaymentsListsOwnPending(users: map<nat, User>, tokens: map<nat, TelegramToken>,
                                payments: map<nat, Payment>, borrowings: map<nat, Borrowing>,
                                chatId: int, text: string, parseUuid: UuidParser, bound: nat)
    requires TokensOwned(users, tokens) && KeysBelow(payments, bound)
    requires UserByChat(users, chatId, bound).Some? && Split(text, ' ')[0] == "/payments"
    ensures var u := UserByChat(users, chatId, bound).value;
      var r := Dispatch(users, tokens, payments, borrowings, chatId, text, parseUuid, bound);
      && r.users == users && r.telegramTokens == tokens && |r.sent| == 1
      && ((forall k :: k in payments ==> !(payments[k].status == Pending && PaidBy(payments[k], borrowings, u)))
            <==> r.sent == Reply(chatId, NoPendingPayments))
      && (r.sent[0].body.PendingPayments? ==>
            forall k :: k in r.sent[0].body.payments <==>
              k in payments && payments[k].status == Pending && PaidBy(payments[k], borrowings, u))
  {
    var u := UserByChat(users, chatId, bound).value;
    assert Dispatch(users, tokens, payments, borrowings, chatId, text, parseUuid, bound)
        == LinkedCommand(users, tokens, payments, borrowings, chatId, "/payments", u, bound);
    var pending := PendingPaymentsOf(payments, borrowings, u, bound);
    if pending != [] {
      assert pending[0] in pending;
    }
  }

  /** /borrowings lists exactly the linked user's active borrowings, ascending, or says there are none. */
  lemma BorrowingsListsOwnActive(users: map<nat, User>, tokens: map<nat, TelegramToken>,
                                 payments: map<nat, Payment>, borrowings: map<nat, Borrowing>,
                                 chatId: int, text: string, parseUuid: UuidParser, bound: nat)
    requires TokensOwned(users, tokens) && KeysBelow(borrowings, bound)
    requires UserByChat(users, chatId, bound).Some? && Split(text, ' ')[0] == "/borrowings"
    ensures var u := UserByChat(users, chatId, bound).value;
      var r := Dispatch(users, tokens, payments, borrowings, chatId, text, parseUuid, bound);
      && r.users == users && r.telegramTokens == tokens && |r.sent| == 1
      && ((forall k :: k in borrowings ==> !(borrowings[k].userId == u && borrowings[k].isActive))
            <==> r.sent == Reply(chatId, NoActiveBorrowings))
      && (r.sent[0].body.ActiveBorrowings? ==>
            forall k :: k in r.sent[0].body.borrowings <==>
              k in borrowings && borrowings[k].userId == u && borrowings[k].isActive)
  {
    var u := UserByChat(users, chatId, bound).value;
    assert Dispatch(users, tokens, payments, borrowings, chatId, text, parseUuid, bound)
        == LinkedCommand(users, tokens, payments, borrowings, chatId, "/borrowings", u, bound);
    var active := ActiveBorrowingsOf(borrowings, u, bound);
    if active != [] {
      assert active[0] in active;
    }
  }
}
