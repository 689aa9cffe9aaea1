/**
 * The borrowing and payment endpoints of library/views.py. Borrowing, returning and renewing
 * change the database in place and are methods on `Database`; the listing filters, the
 * session-id lookup and the Stripe amount are functions.
 *
 * Stripe's `checkout.Session.create` is a parameter: it is given the line item the view
 * builds and answers with a session, or `None` where the call raises (the request then fails
 * with a server error and the transaction is rolled back).
 */
module LibraryViews {
  import opened Common
  import opened Tables
  import opened Text
  import opened LibraryModels
  import opened UsersModels
  import opened Store

  /** What `create_stripe_checkout_session` asks Stripe for (the callback URLs depend only on the host). */
  datatype CheckoutRequest = CheckoutRequest(
    customer: string, currency: string, unitAmount: int, quantity: nat, paymentId: nat)

  datatype CheckoutSession = CheckoutSession(id: string, url: string)

  type Gateway = CheckoutRequest -> Option<CheckoutSession>

  // ---------------------------------------------------------------------------------------
  // The Stripe amount

  /**
   * `int((amount * 100).quantize(1, ROUND_HALF_UP))` for an amount given in mills: the
   * nearest whole cent, with halves rounded away from zero.
   */
  function UnitAmount(amount: Mills): (cents: int)
    ensures amount >= 0 ==> 10 * cents - 5 <= amount < 10 * cents + 5
    ensures amount < 0 ==> 10 * cents - 5 < amount <= 10 * cents + 5
  {
    if amount >= 0 then (amount + 5) / 10 else -((-amount + 5) / 10)
  }

  /** An amount with two decimal places converts exactly. */
  lemma UnitAmountOfWholeCents(cents: int)
    ensures UnitAmount(10 * cents) == cents
  {
  }

  /** Rounding is symmetric about zero. */
  lemma UnitAmountIsOdd(amount: Mills)
    ensures UnitAmount(-amount) == -UnitAmount(amount)
  {
  }

  /**
   * Concrete amounts: 6.00 is 600 cents; 0.125 rounds up to 13 cents, 0.135 up to 14 and 0.124
   * down to 12; -0.125 rounds to -13.
   */
  lemma UnitAmountExamples()
    ensures UnitAmount(6000) == 600
    ensures UnitAmount(125) == 13 && UnitAmount(135) == 14 && UnitAmount(124) == 12
    ensures UnitAmount(-125) == -13
  {
  }

  /** The single line item for payment `paymentId`; `None` when it has no amount (the multiplication raises). */
  function LineItem(payment: Payment, paymentId: nat, customer: string): (r: Option<CheckoutRequest>)
    ensures r.Some? <==> payment.amountToPay.Some?
    ensures r.Some? ==>
      && r.value.customer == customer && r.value.currency == "usd" && r.value.quantity == 1
      && r.value.paymentId == paymentId && r.value.unitAmount == UnitAmount(payment.amountToPay.value)
  {
    if payment.amountToPay.None? then None
    else Some(CheckoutRequest(customer, "usd", UnitAmount(payment.amountToPay.value), 1, paymentId))
  }

  /** `payment.borrowing.user.stripe_customer_id`, read through the foreign keys. */
  function CustomerOf(db: Database, payment: Payment): string
    reads db
    requires db.Valid() && payment.borrowingId in db.borrowings
  {
    db.users[db.borrowings[payment.borrowingId].userId].stripeCustomerId
  }

  // ---------------------------------------------------------------------------------------
  // Inventory

  /** `inventory -= 1`, which the view does only after checking that a copy is left. */
  function CheckOut(book: Book): (r: Book)
    requires book.inventory > 0
    ensures r.inventory + 1 == book.inventory && r.(inventory := book.inventory) == book
  {
    book.(inventory := book.inventory - 1)
  }

  function CheckIn(book: Book): (r: Book)
    ensures r.inventory == book.inventory + 1 && r.(inventory := book.inventory) == book
  {
    book.(inventory := book.inventory + 1)
  }

  /** Returning a copy undoes borrowing it. */
  lemma CheckInUndoesCheckOut(book: Book)
    requires book.inventory > 0
    ensures CheckIn(CheckOut(book)) == book
  {
  }

  /** The row `serializer.save()` inserts: active, not returned, borrowed today. */
  function NewBorrowing(bookId: nat, userId: nat, today: Day, expectedReturnDate: Day): Borrowing {
    Borrowing(bookId, userId, today, expectedReturnDate, None, true)
  }

  /** `validated_data.get("actual_return_date") or timezone.now().date()`. */
  function ReturnDate(supplied: Option<Day>, today: Day): (d: Day)
    ensures supplied.Some? ==> d == supplied.value
    ensures supplied.None? ==> d == today
  {
    if supplied.Some? then supplied.value else today
  }

  function Returned(b: Borrowing, date: Day): (r: Borrowing)
    ensures !r.isActive && r.actualReturnDate == Some(date)
    ensures r.(actualReturnDate := b.actualReturnDate, isActive := b.isActive) == b
  {
    b.(actualReturnDate := Some(date), isActive := false)
  }

  /** The payment `return_book` creates for borrowing `borrowingId`, with its amount frozen. */
  function FrozenPayment(borrowingId: nat, amount: Mills): Payment {
    Payment(borrowingId, Pending, None, Some(amount), "", "")
  }

  /** The session fields after a successful `create_stripe_checkout_session`. */
  function WithSession(p: Payment, s: CheckoutSession): (r: Payment)
    ensures r.sessionId == s.id && r.sessionUrl == s.url
    ensures r.status == p.status && r.amountToPay == p.amountToPay && r.borrowingId == p.borrowingId
  {
    p.(sessionId := s.id, sessionUrl := s.url)
  }

  function ReturnedMessage(borrowingId: nat, paymentId: nat): string {
    "Borrowing " + IntToDecimal(borrowingId) + " marked as returned. Payment (id: "
    + IntToDecimal(paymentId) + ") created automatically."
  }

  // ---------------------------------------------------------------------------------------
  // Borrowing and returning

  /**
   * `BorrowingViewSet.perform_create` for a request the serializer accepted: insert the
   * borrowing, then take a copy of the book, all inside one transaction.
   */
  method PerformCreate(db: Database, bookId: nat, userId: nat, expectedReturnDate: Day, today: Day)
    returns (r: Result<nat, string>)
    requires db.Valid()
    requires bookId in db.books && userId in db.users
    modifies db`books, db`borrowings, db`nextId
    ensures db.Valid()
    ensures r.Err? <==> old(db.books[bookId].inventory) == 0
    ensures r.Err? ==>
      && r.error == "This book is out of stock."
      && db.books == old(db.books) && db.borrowings == old(db.borrowings) && db.nextId == old(db.nextId)
    ensures r.Ok? ==>
      && r.value == old(db.nextId) && r.value !in old(db.borrowings)
      && db.borrowings == old(db.borrowings)[r.value := NewBorrowing(bookId, userId, today, expectedReturnDate)]
      && db.books == old(db.books)[bookId := CheckOut(old(db.books[bookId]))]
      && db.nextId == old(db.nextId) + 1
  {
    var savedBorrowings, savedNextId := db.borrowings, db.nextId;
    var key := db.nextId;
    db.borrowings := db.borrowings[key := NewBorrowing(bookId, userId, today, expectedReturnDate)];
    db.nextId := key + 1;
    var book := db.books[bookId];
    if book.inventory <= 0 {
      // the ValidationError leaves the atomic block, which undoes the insert
      db.borrowings, db.nextId := savedBorrowings, savedNextId;
      return Err("This book is out of stock.");
    }
    db.books := db.books[bookId := CheckOut(book)];
    return Ok(key);
  }

  /**
   * `BorrowingViewSet.return_book` on borrowing `borrowingId`, with the date the request
   * supplied (if any) and today's date.
   */
  method ReturnBook(db: Database, borrowingId: nat, supplied: Option<Day>, today: Day, gateway: Gateway)
    returns (r: Response)
    requires db.Valid()
    modifies db`books, db`borrowings, db`payments, db`nextId
    ensures db.Valid()
    ensures r.status != HttpOk ==>
      && db.books == old(db.books) && db.borrowings == old(db.borrowings)
      && db.payments == old(db.payments) && db.nextId == old(db.nextId)
    ensures r.status == HttpNotFound <==> borrowingId !in old(db.borrowings)
    ensures borrowingId in old(db.borrowings) && !old(db.borrowings[borrowingId]).isActive
      ==> r == Response(HttpBadRequest, "Borrowing is already returned.")
    ensures r.status == HttpOk ==>
      && borrowingId in old(db.borrowings) && old(db.borrowings[borrowingId]).isActive
      && var bookId := old(db.borrowings[borrowingId]).bookId;
         db.books == old(db.books)[bookId := CheckIn(old(db.books[bookId]))]
    ensures borrowingId in old(db.borrowings) && old(db.borrowings[borrowingId]).isActive ==>
      var b := old(db.borrowings[borrowingId]);
      var returned := Returned(b, ReturnDate(supplied, today));
      var payment := FrozenPayment(borrowingId, MoneyToPay(returned, old(db.books[b.bookId])));
      var session := gateway(LineItem(payment, old(db.nextId), old(db.users[b.userId].stripeCustomerId)).value);
      && (session.None? ==> r.status == HttpServerError)
      && (session.Some? ==>
            && r == Response(HttpOk, ReturnedMessage(borrowingId, old(db.nextId)))
            && db.borrowings == old(db.borrowings)[borrowingId := returned]
            && db.books == old(db.books)[b.bookId := CheckIn(old(db.books[b.bookId]))]
            && old(db.nextId) !in old(db.payments)
            && db.payments == old(db.payments)[old(db.nextId) := WithSession(payment, session.value)]
            && db.nextId == old(db.nextId) + 1)
  {
    if borrowingId !in db.borrowings {
      return Response(HttpNotFound, "Not found.");
    }
    if !db.borrowings[borrowingId].isActive {
      return Response(HttpBadRequest, "Borrowing is already returned.");
    }
    r := ReturnActiveBorrowing(db, borrowingId, ReturnDate(supplied, today), gateway);
  }

  /**
   * The body of the `transaction.atomic` block of `return_book`: mark the borrowing returned,
   * put the copy back, create the payment and ask Stripe for its session. When Stripe raises,
   * the transaction is rolled back and the handler answers 500.
   */
  method ReturnActiveBorrowing(db: Database, borrowingId: nat, date: Day, gateway: Gateway)
    returns (r: Response)
    requires db.Valid() && borrowingId in db.borrowings && db.borrowings[borrowingId].isActive
    modifies db`books, db`borrowings, db`payments, db`nextId
    ensures db.Valid()
    ensures var b := old(db.borrowings[borrowingId]);
      var returned := Returned(b, date);
      var payment := FrozenPayment(borrowingId, MoneyToPay(returned, old(db.books[b.bookId])));
      var session := gateway(LineItem(payment, old(db.nextId), old(db.users[b.userId].stripeCustomerId)).value);
      && (session.None? ==>
            && r.status == HttpServerError
            && db.books == old(db.books) && db.borrowings == old(db.borrowings)
            && db.payments == old(db.payments) && db.nextId == old(db.nextId))
      && (session.Some? ==>
            && r == Response(HttpOk, ReturnedMessage(borrowingId, old(db.nextId)))
            && db.borrowings == old(db.borrowings)[borrowingId := returned]
            && db.books == old(db.books)[b.bookId := CheckIn(old(db.books[b.bookId]))]
            && old(db.nextId) !in old(db.payments)
            && db.payments == old(db.payments)[old(db.nextId) := WithSession(payment, session.value)]
            && db.nextId == old(db.nextId) + 1)
  {
    // The transaction's writes are staged in locals and committed together.
    var b := db.borrowings[borrowingId];
    var returned := Returned(b, date);
    var book := db.books[b.bookId];
    var paymentId := db.nextId;
    var payment := FrozenPayment(borrowingId, MoneyToPay(returned, book));
    var session := gateway(LineItem(payment, paymentId, db.users[b.userId].stripeCustomerId).value);
    if session.None? {
      return Response(HttpServerError, "");
    }
    var borrowings := db.borrowings[borrowingId := returned];
    var books := db.books[b.bookId := CheckIn(book)];
    var payments := db.payments[paymentId := WithSession(payment, session.value)];
    db.books, db.borrowings, db.payments, db.nextId := books, borrowings, payments, paymentId + 1;
    return Response(HttpOk, ReturnedMessage(borrowingId, paymentId));
  }

  /** Borrowing a copy and then returning it leaves the book's inventory where it was. */
  method BorrowThenReturn(db: Database, bookId: nat, userId: nat, expectedReturnDate: Day, today: Day,
                          returnDate: Option<Day>, gateway: Gateway)
    returns (borrowed: Result<nat, string>, returned: Response)
    requires db.Valid()
    requires bookId in db.books && userId in db.users
    modifies db`books, db`borrowings, db`payments, db`nextId
    ensures db.Valid()
    ensures borrowed.Err? ==> db.books == old(db.books)
    ensures borrowed.Ok? && returned.status == HttpOk ==> db.books == old(db.books)
    ensures borrowed.Ok? && returned.status != HttpOk ==>
      old(db.books[bookId]).inventory > 0 && db.books == old(db.books)[bookId := CheckOut(old(db.books[bookId]))]
  {
    borrowed := PerformCreate(db, bookId, userId, expectedReturnDate, today);
    if borrowed.Err? {
      returned := Response(HttpBadRequest, borrowed.error);
      return;
    }
    ghost var before := old(db.books[bookId]);
    ghost var afterBorrow := db.books;
    assert afterBorrow == old(db.books)[bookId := CheckOut(before)];
    assert db.borrowings[borrowed.value].bookId == bookId;
    returned := ReturnBook(db, borrowed.value, returnDate, today, gateway);
    if returned.status == HttpOk {
      assert db.books == afterBorrow[bookId := CheckIn(CheckOut(before))];
      CheckInUndoesCheckOut(before);
      assert db.books == old(db.books)[bookId := before];
    }
  }

  // ---------------------------------------------------------------------------------------
  // Listings

  /** The staff `is_active` query parameter, compared case-insensitively. */
  function ParseIsActive(value: string): (r: Result<bool, string>)
    ensures r == Ok(true) <==> Lower(value) == "1" || Lower(value) == "true"
    ensures r == Ok(false) <==> Lower(value) == "0" || Lower(value) == "false"
    ensures r.Err? ==> r.error == "Invalid is_active value. Use 1 or 0 / true or false."
  {
    var v := Lower(value);
    if v == "1" || v == "true" then Ok(true)
    else if v == "0" || v == "false" then Ok(false)
    else Err("Invalid is_active value. Use 1 or 0 / true or false.")
  }

  lemma ParseIsActiveIgnoresCase(s: string, t: string)
    requires EqualIgnoringCase(s, t)
    ensures ParseIsActive(s) == ParseIsActive(t)
  {
    LowerIgnoresCase(s, t);
  }

  lemma ParseIsActiveExamples()
    ensures ParseIsActive("TRUE") == Ok(true) && ParseIsActive("False") == Ok(false)
    ensures ParseIsActive("1") == Ok(true) && ParseIsActive("0") == Ok(false)
    ensures ParseIsActive("yes").Err? && ParseIsActive("").Err?
  {
    assert Lower("TRUE") == "true";
    assert Lower("False") == "false";
    assert Lower("yes") == "yes";
  }

  /** The staff `user_id` filter: absent or empty means no filter; otherwise `int()` must accept it. */
  function UserIdFilter(param: Option<string>): Result<Option<int>, string> {
    if param.None? || param.value == "" then Ok(None)
    else match ParseInt(param.value)
      case None => Err("Invalid user id.")
      case Some(i) => Ok(Some(i))
  }

  function IsActiveFilter(param: Option<string>): Result<Option<bool>, string> {
    if param.None? then Ok(None)
    else match ParseIsActive(param.value)
      case Err(e) => Err(e)
      case Ok(b) => Ok(Some(b))
  }

  predicate PassesFilters(b: Borrowing, userId: Option<int>, isActive: Option<bool>) {
    (userId.None? || b.userId as int == userId.value) && (isActive.None? || b.isActive == isActive.value)
  }

  /**
   * `BorrowingViewSet.get_queryset` for the signed-in user `userId`: staff see every borrowing,
   * narrowed by the query parameters; everybody else sees their own. A parameter the view
   * rejects is a `ValidationError` (400) carrying the message.
   */
  function BorrowingQueryset(borrowings: map<nat, Borrowing>, userId: nat, isStaff: bool,
                             userIdParam: Option<string>, isActiveParam: Option<string>)
    : (r: Result<set<nat>, string>)
    ensures !isStaff ==> r.Ok? && forall k :: k in r.value <==> k in borrowings && borrowings[k].userId == userId
    ensures r.Ok? ==> r.value <= borrowings.Keys
    ensures isStaff ==>
      (r.Err? <==> UserIdFilter(userIdParam).Err? || IsActiveFilter(isActiveParam).Err?)
    ensures isStaff && r.Ok? ==> forall k :: k in borrowings ==>
      (k in r.value <==>
        (UserIdFilter(userIdParam).value.None? || borrowings[k].userId as int == UserIdFilter(userIdParam).value.value)
        && (isActiveParam.None? || borrowings[k].isActive == (Lower(isActiveParam.value) in ["1", "true"])))
    ensures isStaff && (userIdParam.None? || userIdParam == Some("")) && isActiveParam.None? ==>
      r.Ok? && forall k :: k in borrowings ==> k in r.value
  {
    if !isStaff then Ok(set k | k in borrowings && borrowings[k].userId == userId)
    else
      var byUser := UserIdFilter(userIdParam);
      if byUser.Err? then Err(byUser.error)
      else
        var byActive := IsActiveFilter(isActiveParam);
        if byActive.Err? then Err(byActive.error)
        else Ok(set k | k in borrowings && PassesFilters(borrowings[k], byUser.value, byActive.value))
  }

  /** A staff request whose `user_id` is not an integer is refused before any filtering. */
  lemma InvalidUserIdRejected(borrowings: map<nat, Borrowing>, userId: nat)
    ensures BorrowingQueryset(borrowings, userId, true, Some("abc"), None) == Err("Invalid user id.")
  {
  }

  /** The owner of a payment, through its borrowing. */
  predicate PaidBy(p: Payment, borrowings: map<nat, Borrowing>, userId: nat) {
    p.borrowingId in borrowings && borrowings[p.borrowingId].userId == userId
  }

  /** `borrowing__book__title__icontains` and `borrowing__user__email__icontains`. */
  predicate MatchesStaffFilters(p: Payment, borrowings: map<nat, Borrowing>, books: map<nat, Book>,
                                users: map<nat, User>, bookTitle: Option<string>, userEmail: Option<string>) {
    && p.borrowingId in borrowings
    && (bookTitle.None? || bookTitle.value == "" ||
        (borrowings[p.borrowingId].bookId in books
         && IContains(books[borrowings[p.borrowingId].bookId].title, bookTitle.value)))
    && (userEmail.None? || userEmail.value == "" ||
        (borrowings[p.borrowingId].userId in users
         && IContains(users[borrowings[p.borrowingId].userId].email, userEmail.value)))
  }

  /** `PaymentViewSet.get_queryset`: own payments for everybody but staff, who may filter. */
  function PaymentQueryset(payments: map<nat, Payment>, borrowings: map<nat, Borrowing>,
                           books: map<nat, Book>, users: map<nat, User>, userId: nat, isStaff: bool,
                           bookTitle: Option<string>, userEmail: Option<string>): (r: set<nat>)
    ensures r <= payments.Keys
    ensures !isStaff ==> forall k :: k in r <==> k in payments && PaidBy(payments[k], borrowings, userId)
    ensures isStaff ==> forall k :: k in r ==>
      && payments[k].borrowingId in borrowings
      && (bookTitle.Some? && bookTitle.value != "" ==>
            borrowings[payments[k].borrowingId].bookId in books
            && IContains(books[borrowings[payments[k].borrowingId].bookId].title, bookTitle.value))
      && (userEmail.Some? && userEmail.value != "" ==>
            borrowings[payments[k].borrowingId].userId in users
            && IContains(users[borrowings[payments[k].borrowingId].userId].email, userEmail.value))
    ensures isStaff ==> forall k :: k in payments && payments[k].borrowingId in borrowings ==>
      var b := borrowings[payments[k].borrowingId];
      (bookTitle.None? || bookTitle.value == "" || (b.bookId in books && IContains(books[b.bookId].title, bookTitle.value)))
      && (userEmail.None? || userEmail.value == "" || (b.userId in users && IContains(users[b.userId].email, userEmail.value)))
      ==> k in r
    ensures isStaff && (bookTitle.None? || bookTitle == Some("")) && (userEmail.None? || userEmail == Some("")) ==>
      forall k :: k in payments && payments[k].borrowingId in borrowings ==> k in r
  {
    if isStaff then set k | k in payments && MatchesStaffFilters(payments[k], borrowings, books, users, bookTitle, userEmail)
    else set k | k in payments && PaidBy(payments[k], borrowings, userId)
  }

  /** Without filters staff see every payment whose borrowing exists, that is all of them in a valid database. */
  lemma StaffSeeAllPayments(db: Database, userId: nat)
    requires db.Valid()
    ensures PaymentQueryset(db.payments, db.borrowings, db.books, db.users, userId, true, None, None) == db.payments.Keys
  {
  }

  // ---------------------------------------------------------------------------------------
  // Payment lookup and the Stripe callbacks

  /** `_get_payment_from_request`: the payment holding the `session_id` query parameter, if any. */
  function PaymentFromRequest(payments: map<nat, Payment>, sessionIdParam: Option<string>, bound: nat)
    : (r: Option<nat>)
    ensures r.Some? ==>
      && sessionIdParam.Some? && sessionIdParam.value != ""
      && r.value in payments && payments[r.value].sessionId == sessionIdParam.value
    ensures r.None? && KeysBelow(payments, bound) && sessionIdParam.Some? ==>
      forall k :: k in payments ==> payments[k].sessionId != sessionIdParam.value || sessionIdParam.value == ""
  {
    if sessionIdParam.None? || sessionIdParam.value == "" then None
    else FirstMatch(payments, (p: Payment) => p.sessionId == sessionIdParam.value, bound)
  }

  function SessionCallback(db: Database, sessionIdParam: Option<string>, message: string): Response
    reads db
  {
    if PaymentFromRequest(db.payments, sessionIdParam, db.nextId).None? then
      Response(HttpBadRequest, "Invalid session id.")
    else Response(HttpOk, message)
  }

  /** `PaymentViewSet.success`: 200 exactly when the session id names a payment. */
  function Success(db: Database, sessionIdParam: Option<string>): (r: Response)
    reads db
    requires db.Valid()
    ensures r.status == HttpOk <==>
      (sessionIdParam.Some? && sessionIdParam.value != ""
       && exists k :: k in db.payments && db.payments[k].sessionId == sessionIdParam.value)
    ensures r.status == HttpOk ==> r.detail == "Book returned successfully, payment received."
    ensures r.status != HttpOk ==> r == Response(HttpBadRequest, "Invalid session id.")
  {
    SessionCallback(db, sessionIdParam, "Book returned successfully, payment received.")
  }

  /** `PaymentViewSet.cancel`: the same lookup, another message. */
  function Cancel(db: Database, sessionIdParam: Option<string>): (r: Response)
    reads db
    requires db.Valid()
    ensures r.status == HttpOk <==>
      (sessionIdParam.Some? && sessionIdParam.value != ""
       && exists k :: k in db.payments && db.payments[k].sessionId == sessionIdParam.value)
    ensures r.status == HttpOk ==> r.detail == "Payment cancelled."
    ensures r.status != HttpOk ==> r == Response(HttpBadRequest, "Invalid session id.")
  {
    SessionCallback(db, sessionIdParam, "Payment cancelled.")
  }

  // ---------------------------------------------------------------------------------------
  // Renewal

  /**
   * The guards of `renew_payment`, in order, for the signed-in user `requester` and the
   * `payment_id` of the request body: the payment to renew, or the response that refuses.
   */
  function RenewTarget(payments: map<nat, Payment>, borrowings: map<nat, Borrowing>, requester: nat,
                       paymentId: Option<int>): (r: Result<nat, Response>)
    ensures paymentId.None? || paymentId == Some(0)
      ==> r == Err(Response(HttpBadRequest, "payment_id is required."))
    ensures paymentId.Some? && paymentId.value != 0 && (paymentId.value < 0 || paymentId.value as nat !in payments)
      ==> r == Err(Response(HttpNotFound, "Payment not found."))
    ensures paymentId.Some? && paymentId.value > 0 && paymentId.value as nat in payments ==>
      var p := payments[paymentId.value as nat];
      && (!PaidBy(p, borrowings, requester) ==>
            r == Err(Response(HttpForbidden, "Access denied. You can renew only your own payments.")))
      && (PaidBy(p, borrowings, requester) && p.status == Paid ==>
            r == Err(Response(HttpBadRequest, "Payment already completed.")))
      && (PaidBy(p, borrowings, requester) && p.status == Pending ==>
            r == Err(Response(HttpBadRequest, "Payment is pending.")))
    ensures r.Ok? <==>
      (paymentId.Some? && paymentId.value > 0 && paymentId.value as nat in payments
       && PaidBy(payments[paymentId.value as nat], borrowings, requester)
       && payments[paymentId.value as nat].status == Expired)
    ensures r.Ok? ==> paymentId == Some(r.value as int)
  {
    if paymentId.None? || paymentId.value == 0 then Err(Response(HttpBadRequest, "payment_id is required."))
    else if paymentId.value < 0 || paymentId.value as nat !in payments then
      Err(Response(HttpNotFound, "Payment not found."))
    else
      var k := paymentId.value as nat;
      if !PaidBy(payments[k], borrowings, requester) then
        Err(Response(HttpForbidden, "Access denied. You can renew only your own payments."))
      else if payments[k].status == Paid then Err(Response(HttpBadRequest, "Payment already completed."))
      else if payments[k].status == Pending then Err(Response(HttpBadRequest, "Payment is pending."))
      else Ok(k)
  }

  /**
   * What `payment.save()` stores after renewal. The view assigns the new session id to
   * `stripe_checkout_session_id`, which is not a field, so only the URL is written.
   */
  function RenewedAsWritten(p: Payment, s: CheckoutSession): (r: Payment)
    ensures r.sessionUrl == s.url
    ensures r.(sessionUrl := p.sessionUrl) == p
  {
    p.(sessionUrl := s.url)
  }

  /** `PaymentViewSet.renew_payment`. */
  method RenewPayment(db: Database, requester: nat, paymentId: Option<int>, gateway: Gateway)
    returns (r: Response)
    requires db.Valid()
    modifies db`payments
    ensures db.Valid()
    ensures var target := RenewTarget(old(db.payments), db.borrowings, requester, paymentId);
      target.Err? ==> r == target.error && db.payments == old(db.payments)
    ensures var target := RenewTarget(old(db.payments), db.borrowings, requester, paymentId);
      target.Ok? ==>
        var p := old(db.payments[target.value]);
        var request := LineItem(p, target.value, CustomerOf(db, p));
        && (request.None? || gateway(request.value).None? ==>
              r.status == HttpServerError && db.payments == old(db.payments))
        && (request.Some? && gateway(request.value).Some? ==>
              r == Response(HttpOk, "Payment renewed successfully.")
              && db.payments == old(db.payments)[target.value := RenewedAsWritten(p, gateway(request.value).value)])
    ensures db.payments.Keys == old(db.payments.Keys)
    ensures forall k :: k in db.payments ==> db.payments[k].status == old(db.payments[k]).status
  {
    var target := RenewTarget(db.payments, db.borrowings, requester, paymentId);
    if target.Err? {
      return target.error;
    }
    var p := db.payments[target.value];
    var request := LineItem(p, target.value, CustomerOf(db, p));
    if request.None? {
      return Response(HttpServerError, "");
    }
    var session := gateway(request.value);
    if session.None? {
      return Response(HttpServerError, "");
    }
    db.payments := db.payments[target.value := RenewedAsWritten(p, session.value)];
    return Response(HttpOk, "Payment renewed successfully.");
  }

  /**
   * library/tests/test_payment_api.py renews a PENDING payment and expects success; the
   * guards refuse every payment that is not EXPIRED.
   */
  lemma RenewRefusesPending(payments: map<nat, Payment>, borrowings: map<nat, Borrowing>, requester: nat, k: nat)
    requires k > 0 && k in payments && payments[k].status == Pending
    ensures RenewTarget(payments, borrowings, requester, Some(k)).Err?
    ensures PaidBy(payments[k], borrowings, requester)
      ==> RenewTarget(payments, borrowings, requester, Some(k)) == Err(Response(HttpBadRequest, "Payment is pending."))
  {
  }
}
