/**
 * The library's records (library/models.py) and the fee rule `Payment.money_to_pay`.
 *
 * Dates are day numbers, so `(a - b).days` is `a - b`. A daily fee is a
 * `DecimalField(decimal_places=2)`, held here in whole cents. The fee adds a 1.5 surcharge per
 * overdue day, so an amount can have three decimal places; amounts are held in mills
 * (thousandths), which keeps the decimal arithmetic exact.
 */
module LibraryModels {
  import opened Common

  type Day = int
  type Cents = int
  type Mills = int

  datatype Cover = Hard | Soft

  /** Inventory is a `PositiveIntegerField`: it can never be negative. */
  datatype Book = Book(title: string, authorId: nat, cover: Cover, inventory: nat, dailyFee: Cents)

  datatype Borrowing = Borrowing(
    bookId: nat,
    userId: nat,
    borrowDate: Day,
    expectedReturnDate: Day,
    actualReturnDate: Option<Day>,
    isActive: bool)

  /** EXPIRED is written by the Stripe webhook although the shown choices list only PAID and PENDING. */
  datatype PaymentStatus = Pending | Paid | Expired

  /** "payment" and "fine". */
  datatype PaymentType = Regular | Fine

  /**
   * A payment row. `amountToPay` is frozen when the borrowing is returned; the session fields
   * hold the Stripe checkout session ("" until one is attached).
   */
  datatype Payment = Payment(
    borrowingId: nat,
    status: PaymentStatus,
    amountPaid: Option<Cents>,
    amountToPay: Option<Mills>,
    sessionId: string,
    sessionUrl: string)

  /** Days charged: the days from borrowing to return, but never fewer than one. */
  function TotalDays(borrowDate: Day, returnDate: Day): (r: int)
    ensures r >= 1
    ensures returnDate - borrowDate >= 1 ==> r == returnDate - borrowDate
  {
    if returnDate - borrowDate > 1 then returnDate - borrowDate else 1
  }

  /** Days past the expected return date; none when the book came back in time. */
  function OverdueDays(expectedReturnDate: Day, returnDate: Day): (r: int)
    ensures r >= 0
    ensures returnDate <= expectedReturnDate ==> r == 0
    ensures returnDate > expectedReturnDate ==> r == returnDate - expectedReturnDate
  {
    if returnDate - expectedReturnDate > 0 then returnDate - expectedReturnDate else 0
  }

  /**
   * `total_days * daily_fee + overdue_days * daily_fee * 1.5`, in mills: a cent is ten mills
   * and one and a half cents fifteen.
   */
  function Fee(borrowDate: Day, expectedReturnDate: Day, returnDate: Day, dailyFee: Cents): Mills {
    10 * TotalDays(borrowDate, returnDate) * dailyFee
    + 15 * OverdueDays(expectedReturnDate, returnDate) * dailyFee
  }

  /** `Payment.money_to_pay` for a payment of borrowing `b` of `book`; the return date must be set. */
  function MoneyToPay(b: Borrowing, book: Book): Mills
    requires b.actualReturnDate.Some?
  {
    Fee(b.borrowDate, b.expectedReturnDate, b.actualReturnDate.value, book.dailyFee)
  }

  /** A payment is a fine exactly when it charges overdue days. */
  function PaymentTypeOf(b: Borrowing): PaymentType
    requires b.actualReturnDate.Some?
  {
    if OverdueDays(b.expectedReturnDate, b.actualReturnDate.value) > 0 then Fine else Regular
  }

  lemma PaymentTypeIsFineIffOverdue(b: Borrowing)
    requires b.actualReturnDate.Some?
    ensures PaymentTypeOf(b) == Fine <==> b.actualReturnDate.value > b.expectedReturnDate
  {
  }

  /** With a non-negative rate the charge is at least one day's fee, hence never negative. */
  lemma FeeAtLeastOneDay(borrowDate: Day, expectedReturnDate: Day, returnDate: Day, dailyFee: Cents)
    requires dailyFee >= 0
    ensures Fee(borrowDate, expectedReturnDate, returnDate, dailyFee) >= 10 * dailyFee >= 0
  {
    var t := TotalDays(borrowDate, returnDate);
    var o := OverdueDays(expectedReturnDate, returnDate);
    NonNegativeProduct(t - 1, dailyFee);
    NonNegativeProduct(o, dailyFee);
  }

  /** When the book is back in time there is no surcharge. */
  lemma FeeWithoutOverdue(borrowDate: Day, expectedReturnDate: Day, returnDate: Day, dailyFee: Cents)
    requires returnDate <= expectedReturnDate
    ensures Fee(borrowDate, expectedReturnDate, returnDate, dailyFee)
         == 10 * TotalDays(borrowDate, returnDate) * dailyFee
  {
  }

  /** Keeping the book longer never makes the charge smaller. */
  lemma FeeMonotoneInReturnDate(borrowDate: Day, expectedReturnDate: Day, early: Day, late: Day, dailyFee: Cents)
    requires early <= late && dailyFee >= 0
    ensures Fee(borrowDate, expectedReturnDate, early, dailyFee)
         <= Fee(borrowDate, expectedReturnDate, late, dailyFee)
  {
    var dt := TotalDays(borrowDate, late) - TotalDays(borrowDate, early);
    var dov := OverdueDays(expectedReturnDate, late) - OverdueDays(expectedReturnDate, early);
    assert dt >= 0 && dov >= 0;
    NonNegativeProduct(dt, dailyFee);
    NonNegativeProduct(dov, dailyFee);
    assert Fee(borrowDate, expectedReturnDate, late, dailyFee)
        == Fee(borrowDate, expectedReturnDate, early, dailyFee) + 10 * dt * dailyFee + 15 * dov * dailyFee;
  }

  lemma NonNegativeProduct(a: int, b: int)
    requires a >= 0 && b >= 0
    ensures a * b >= 0
  {
  }

  /** library/tests/test_payment_model.py: due a day after borrowing, back on the third, 1.00 a day. */
  lemma FeeTestExamples(d: Day)
    ensures Fee(d, d + 1, d + 3, 100) == 6000
    ensures Fee(d, d + 1, d + 3, 200) == 12000
    ensures Fee(d, d + 3, d + 3, 100) == 3000
    ensures Fee(d, d + 5, d, 100) == 1000
  {
  }
}
