/**
 * The database the views work on: one table per model, each a map from primary key to
 * record, and the counter that hands out fresh primary keys. `Valid` is what the schema
 * guarantees: keys were handed out by the counter, every foreign key points at an
 * existing row (`on_delete=PROTECT` and `CASCADE` never leave one dangling).
 * `UniqueTokenColumns` is the `unique=True` constraint of the token columns.
 */
module Store {
  import opened Common
  import opened Tables
  import opened LibraryModels
  import opened UsersModels

  class Database {
    var books: map<nat, Book>
    var borrowings: map<nat, Borrowing>
    var payments: map<nat, Payment>
    var users: map<nat, User>
    var emailTokens: map<nat, EmailVerificationToken>
    var passwordTokens: map<nat, PasswordChangeToken>
    var telegramTokens: map<nat, TelegramToken>
    var nextId: nat

    /** Every key was handed out by the counter. */
    ghost predicate KeysIssued()
      reads this`books, this`borrowings, this`payments, this`users
      reads this`emailTokens, this`passwordTokens, this`telegramTokens, this`nextId
    {
      && KeysBelow(books, nextId)
      && KeysBelow(borrowings, nextId)
      && KeysBelow(payments, nextId)
      && KeysBelow(users, nextId)
      && KeysBelow(emailTokens, nextId)
      && KeysBelow(passwordTokens, nextId)
      && KeysBelow(telegramTokens, nextId)
    }

    /** The foreign keys of borrowings and payments. */
    ghost predicate LibraryLinks()
      reads this`books, this`borrowings, this`payments, this`users
    {
      && (forall k :: k in borrowings ==> borrowings[k].bookId in books && borrowings[k].userId in users)
      && (forall k :: k in payments ==> payments[k].borrowingId in borrowings)
    }

    /** The foreign keys of the tokens. */
    ghost predicate TokenLinks()
      reads this`users, this`emailTokens, this`passwordTokens, this`telegramTokens
    {
      && (forall k :: k in emailTokens ==> emailTokens[k].userId in users)
      && (forall k :: k in passwordTokens ==> passwordTokens[k].userId in users)
      && (forall k :: k in telegramTokens ==> telegramTokens[k].userId in users)
    }

    /**
     * The `unique=True` token columns of the email-verification and password-change tables
     * hold no value twice. Only the operations on those tables need it, so it is kept apart
     * from `Valid`.
     */
    ghost predicate UniqueTokenColumns()
      reads this`emailTokens, this`passwordTokens
    {
      && (forall j, k :: j in emailTokens && k in emailTokens && emailTokens[j].token == emailTokens[k].token ==> j == k)
      && (forall j, k :: j in passwordTokens && k in passwordTokens && passwordTokens[j].token == passwordTokens[k].token ==> j == k)
    }

    ghost predicate Valid()
      reads this
    {
      KeysIssued() && LibraryLinks() && TokenLinks()
    }

    constructor ()
      ensures Valid() && UniqueTokenColumns()
      ensures books == map[] && borrowings == map[] && payments == map[] && users == map[]
      ensures emailTokens == map[] && passwordTokens == map[] && telegramTokens == map[]
      ensures nextId == 0
    {
      books, borrowings, payments, users := map[], map[], map[], map[];
      emailTokens, passwordTokens, telegramTokens := map[], map[], map[];
      nextId := 0;
    }
  }
}
