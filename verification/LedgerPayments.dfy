/** What the gateway takes and gives back: no booking is confirmed for less than it costs, and refunds never exceed takings. */
module LedgerPayments {
  import opened Common
  import opened Tables
  import opened Sums
  import opened Pricing
  import opened Ledger
  import LedgerBothWays
  import LedgerRuns
  import Money = LedgerMoney

  /** What an intent asks for is its total less its discount, and never negative. */
  predicate Priced(i: Intent) { i.paid == Max(0.0, i.total - i.discount) }

  ghost predicate DistinctIntents(intents: seq<Intent>) {
    forall i, j :: 0 <= i < j < |intents| ==> intents[i].code != intents[j].code
  }

  /** The payment belongs to a stored intent and asks for at least what that intent now costs. */
  ghost predicate PriceCovered(intents: seq<Intent>, p: Payment) {
    exists i :: 0 <= i < |intents| && CoveredBy(intents[i], p)
  }

  predicate CoveredBy(i: Intent, p: Payment) { i.code == p.intent && i.paid <= p.amount }

  ghost predicate PaymentTables(intents: seq<Intent>, payments: seq<Payment>) {
    && (forall i :: 0 <= i < |intents| ==> Priced(intents[i]))
    && DistinctIntents(intents)
    && (forall p :: p in payments ==> PriceCovered(intents, p))
  }

  ghost predicate PaymentInv(db: Db) { PaymentTables(db.intents, db.payments) }

  // ---- What each call does to intents and payments ----

  lemma RemoveKeeps(intents: seq<Intent>, payments: seq<Payment>, i: nat)
    requires PaymentTables(intents, payments) && i < |intents|
    ensures PaymentTables(RemoveAt(intents, i), Filter(payments, NotOf(intents[i].code)))
  {
    var rest := RemoveAt(intents, i);
    forall j, k | 0 <= j < k < |rest| ensures rest[j].code != rest[k].code {
      assert intents[if j < i then j else j + 1].code != intents[if k < i then k else k + 1].code;
    }
    forall p | p in Filter(payments, NotOf(intents[i].code)) ensures PriceCovered(rest, p) {
      assert p in payments && NotOf(intents[i].code)(p);
      var k :| 0 <= k < |intents| && CoveredBy(intents[k], p);
      assert CoveredBy(rest[if k < i then k else k - 1], p);
    }
  }

  lemma ReleaseKeeps(db: Db, trip: Id, passenger: Id)
    requires PaymentInv(db)
    ensures PaymentInv(ReleaseHold(db, trip, passenger))
    ensures trip in db.trips ==> trip in ReleaseHold(db, trip, passenger).trips
  {
    hide PaymentTables, Filter;
    var i := IndexOf(db.intents, PendingFor(trip, passenger));
    if i >= 0 {
      RemoveKeeps(db.intents, db.payments, i);
    }
  }

  lemma AddIntent(intents: seq<Intent>, payments: seq<Payment>, row: Intent)
    requires PaymentTables(intents, payments) && Priced(row) && IndexOf(intents, IntentCoded(row.code)) < 0
    ensures PaymentTables(intents + [row], payments)
  {
    forall j | 0 <= j < |intents| ensures intents[j].code != row.code {
      assert !IntentCoded(row.code)(intents[j]);
    }
    forall p | p in payments ensures PriceCovered(intents + [row], p) {
      var k :| 0 <= k < |intents| && CoveredBy(intents[k], p);
      assert CoveredBy((intents + [row])[k], p);
    }
  }

  lemma AddPayment(intents: seq<Intent>, payments: seq<Payment>, i: nat, p: Payment)
    requires PaymentTables(intents, payments) && i < |intents| && CoveredBy(intents[i], p)
    ensures PaymentTables(intents, payments + [p])
  {
  }

  lemma QuotePriced(fare: Fare, seats: int, weights: seq<real>, coupons: map<string, Coupon>, code: string, now: int)
    ensures var r := QuoteOrder(fare, seats, weights, coupons, code, now);
            r.Success? ==> r.value.paid == Max(0.0, r.value.total - r.value.discount)
  {
  }

  lemma StageKeeps(freed: Db, before: Trip, o: Order, s: Setting)
    requires PaymentInv(freed) && o.passenger.Some? && o.trip in freed.trips
    ensures PaymentInv(Ledger.Stage(freed, before, o, s).0)
  {
    hide QuoteOrder, PaymentTables;
    QuotePriced(before.fare, o.seats, o.weights, s.coupons, o.coupon, s.now);
    var quoted := QuoteOrder(before.fare, o.seats, o.weights, s.coupons, o.coupon, s.now);
    if quoted.Success? && IndexOf(freed.intents, IntentCoded(o.code)) < 0 {
      var held := HoldSeats(freed, o, o.passenger.value, quoted.value, s.now);
      var n := |freed.intents|;
      AddIntent(freed.intents, freed.payments, held.intents[n]);
      AddPayment(held.intents, held.payments, n, Payment(o.reference, o.code, quoted.value.paid, Unpaid, None));
    }
  }

  lemma BookKeeps(db: Db, o: Order, s: Setting)
    requires PaymentInv(db)
    ensures PaymentInv(BookTrip(db, o, s).0)
  {
    hide PaymentInv, ReleaseHold, Ledger.Stage;
    if o.trip in db.trips && o.passenger.Some? {
      var freed := ReleaseHold(db, o.trip, o.passenger.value);
      ReleaseKeeps(db, o.trip, o.passenger.value);
      StageKeeps(freed, db.trips[o.trip], o, s);
    }
  }

  lemma RewriteIntent(intents: seq<Intent>, payments: seq<Payment>, i: nat, row: Intent)
    requires PaymentTables(intents, payments) && i < |intents| && Priced(row)
    requires row.code == intents[i].code && row.paid <= intents[i].paid
    ensures PaymentTables(intents[i := row], payments)
  {
    var intents' := intents[i := row];
    forall j, k | 0 <= j < k < |intents'| ensures intents'[j].code != intents'[k].code {
      assert intents[j].code != intents[k].code;
    }
    forall p | p in payments ensures PriceCovered(intents', p) {
      var k :| 0 <= k < |intents| && CoveredBy(intents[k], p);
      assert CoveredBy(intents'[k], p);
    }
  }

  /** Trying the coupon again never raises the price. */
  lemma RepricedIsCheaper(i: Intent, coupons: map<string, Coupon>, now: int)
    requires Priced(i)
    ensures Priced(Repriced(i, coupons, now)) && Repriced(i, coupons, now).paid <= i.paid
  {
    hide LenientDiscount;
  }

  lemma PayKeeps(db: Db, passenger: Option<Id>, intent: string, reference: string, now: int,
                 coupons: map<string, Coupon>, gatewayOk: bool)
    requires PaymentInv(db)
    ensures PaymentInv(InitiatePayment(db, passenger, intent, reference, now, coupons, gatewayOk).0)
  {
    hide Repriced;
    var i := IndexOf(db.intents, IntentCoded(intent));
    if i >= 0 {
      var row := Repriced(db.intents[i], coupons, now);
      RepricedIsCheaper(db.intents[i], coupons, now);
      SameCode(db.intents[i], coupons, now);
      RewriteIntent(db.intents, db.payments, i, row);
      AddPayment(db.intents[i := row], db.payments, i, Payment(reference, intent, row.paid, Unpaid, None));
    }
  }

  lemma SameCode(i: Intent, coupons: map<string, Coupon>, now: int)
    ensures Repriced(i, coupons, now).code == i.code
  {
    hide LenientDiscount;
  }

  lemma SettleKeeps(intents: seq<Intent>, payments: seq<Payment>, p: nat, booking: string)
    requires PaymentTables(intents, payments) && p < |payments|
    ensures PaymentTables(intents, payments[p := SettlePayment(payments[p], booking)])
  {
    var payments' := payments[p := SettlePayment(payments[p], booking)];
    forall q | q in payments' ensures PriceCovered(intents, q) {
      assert payments[p] in payments && PriceCovered(intents, payments[p]);
      if q !in payments {
        var k :| 0 <= k < |intents| && CoveredBy(intents[k], payments[p]);
        assert CoveredBy(intents[k], q);
      }
    }
  }

  lemma VerifyKeeps(db: Db, reference: string, v: Verdict, token: string, feePercent: real)
    requires PaymentInv(db)
    ensures PaymentInv(VerifyPayment(db, reference, v, token, feePercent).0)
  {
    hide PaymentTables;
    var p := IndexOf(db.payments, PendingRef(reference));
    if p >= 0 {
      var known := IndexOf(db.bookings, PaidBy(reference));
      if known >= 0 {
        SettleKeeps(db.intents, db.payments, p, db.bookings[known].code);
      } else {
        var i := IndexOf(db.intents, IntentCoded(db.payments[p].intent));
        if i >= 0 {
          SettleKeeps(db.intents, db.payments, p, db.intents[i].code);
          PricedRow(db.intents, db.payments, i);
          RewriteIntent(db.intents, db.payments[p := SettlePayment(db.payments[p], db.intents[i].code)], i,
                        db.intents[i].(status := Consumed));
        }
      }
    }
  }

  lemma PricedRow(intents: seq<Intent>, payments: seq<Payment>, i: nat)
    requires PaymentTables(intents, payments) && i < |intents|
    ensures Priced(intents[i]) && Priced(intents[i].(status := Consumed))
  {
  }

  lemma OtherKeeps(db: Db, c: Call)
    requires !c.Book? && !c.Pay? && !c.Verify?
    ensures Step(db, c).0.intents == db.intents && Step(db, c).0.payments == db.payments
  {
    hide BookTrip, InitiatePayment, VerifyPayment;
    hide MapRows, CancelledRows, RefundsMade, FailedCodes, RefundEscrows;
  }

  lemma StepKeepsPayments(db: Db, c: Call)
    requires PaymentInv(db)
    ensures PaymentInv(Step(db, c).0)
  {
    hide CreateTrip, Advance, SetBookingStatus, UpdateTrip, ReviseTrip;
    hide CompleteTrip, CancelTrip, WithdrawTrip, SettleTrip;
    hide BookTrip, InitiatePayment, VerifyPayment, Board, CancelBooking, PaymentTables;
    match c
    case Book(o, s) => BookKeeps(db, o, s);
    case Pay(p, i, r, now, coupons, ok) => PayKeeps(db, p, i, r, now, coupons, ok);
    case Verify(r, v, tok, fee) => VerifyKeeps(db, r, v, tok, fee);
    case _ => OtherKeeps(db, c);
  }

  lemma {:induction false} RunKeepsPayments(start: map<Id, real>, calls: seq<Call>)
    ensures PaymentInv(Run(Fresh(start), calls))
  {
    hide Step;
    if calls != [] {
      RunKeepsPayments(start, calls[..|calls| - 1]);
      StepKeepsPayments(Run(Fresh(start), calls[..|calls| - 1]), calls[|calls| - 1]);
    }
  }

  // ---- Paid in full ----

  lemma IntentCovered(intents: seq<Intent>, p: Payment)
    requires DistinctIntents(intents) && PriceCovered(intents, p)
    ensures var i := IndexOf(intents, IntentCoded(p.intent)); i >= 0 && intents[i].paid <= p.amount
  {
    var k :| 0 <= k < |intents| && CoveredBy(intents[k], p);
    assert IntentCoded(p.intent)(intents[k]);
    forall j | 0 <= j < |intents| && IntentCoded(p.intent)(intents[j]) ensures j == k {
      assert intents[if j < k then j else k].code == intents[if j < k then k else j].code;
    }
    IndexOfOnly(intents, IntentCoded(p.intent), k);
  }

  lemma ConfirmedIsCovered(db: Db, reference: string, v: Verdict, token: string, feePercent: real)
    requires PaymentInv(db)
    ensures var db' := VerifyPayment(db, reference, v, token, feePercent).0;
            |db'.bookings| > |db.bookings| ==>
              v.Answer? && v.ok && 0.0 <= db'.bookings[|db.bookings|].paid <= v.amount
  {
    if |VerifyPayment(db, reference, v, token, feePercent).0.bookings| > |db.bookings| {
      var p := db.payments[IndexOf(db.payments, PendingRef(reference))];
      assert p in db.payments;
      IntentCovered(db.intents, p);
      PricedRow(db.intents, db.payments, IndexOf(db.intents, IntentCoded(p.intent)));
    }
  }

  /**
   * After every run: whatever coupons were tried again and however many payment rows an intent has, a booking is written only
   * when the gateway answered that it took at least what the booking costs.
   */
  lemma PaidInFull(start: map<Id, real>, calls: seq<Call>, c: Call)
    ensures var db := Run(Fresh(start), calls);
            |Step(db, c).0.bookings| > |db.bookings| ==>
              && c.Verify? && c.verdict.Answer? && c.verdict.ok && |Step(db, c).0.bookings| == |db.bookings| + 1
              && 0.0 <= Step(db, c).0.bookings[|db.bookings|].paid <= c.verdict.amount
  {
    hide CreateTrip, Advance, SetBookingStatus, UpdateTrip, ReviseTrip;
    hide CompleteTrip, CancelTrip, WithdrawTrip, SettleTrip;
    hide BookTrip, InitiatePayment, VerifyPayment, Board, CancelBooking, Run, PaymentInv;
    var db := Run(Fresh(start), calls);
    RunKeepsPayments(start, calls);
    if c.Verify? {
      LedgerBothWays.VerifyAppends(db, c.reference, c.verdict, c.newToken, c.feePercent);
      ConfirmedIsCovered(db, c.reference, c.verdict, c.newToken, c.feePercent);
    } else {
      Money.NoNewRow(db, c);
    }
  }

  // ---- The gateway's account ----

  /** What the gateway took for the booking a call wrote, if it wrote one; charges that end without a booking are not in it. */
  function TakenBy(db: Db, c: Call): real {
    if c.Verify? && c.verdict.Answer? && |Step(db, c).0.bookings| > |db.bookings| then c.verdict.amount else 0.0
  }

  function Takings(start: map<Id, real>, calls: seq<Call>): real {
    if calls == [] then 0.0
    else Takings(start, calls[..|calls| - 1]) + TakenBy(Run(Fresh(start), calls[..|calls| - 1]), calls[|calls| - 1])
  }

  function PaidOf(): Booking -> real { (b: Booking) => b.paid }

  predicate SamePurchase(b: Booking, b': Booking) { b'.paid == b.paid && b'.code == b.code && b'.reference == b.reference }

  lemma CancelPaid(db: Db, c: Call, i: nat)
    requires i < |db.bookings| && (c.CancelAll? || c.CancelOne?)
    ensures i < |Step(db, c).0.bookings| && SamePurchase(db.bookings[i], Step(db, c).0.bookings[i])
  {
    hide CreateTrip, Advance, SetBookingStatus, UpdateTrip, ReviseTrip;
    hide CompleteTrip, WithdrawTrip, SettleTrip;
    hide BookTrip, InitiatePayment, VerifyPayment, Board;
    hide RefundsMade, FailedCodes;
  }

  /** No call changes what a booking paid, or its code or reference. */
  lemma PaidStays(db: Db, c: Call, i: nat)
    requires i < |db.bookings|
    ensures i < |Step(db, c).0.bookings| && SamePurchase(db.bookings[i], Step(db, c).0.bookings[i])
  {
    hide CreateTrip, Advance, SetBookingStatus, UpdateTrip, ReviseTrip;
    hide CompleteTrip, CancelTrip, WithdrawTrip, SettleTrip;
    hide BookTrip, InitiatePayment, VerifyPayment, Board, CancelBooking;
    match c
    case Book(o, s) => Money.BookFrame(db, o, s);
    case Pay(p, t, r, now, coupons, ok) => Money.PayFrame(db, p, t, r, now, coupons, ok);
    case Verify(r, v, tok, fee) => LedgerBothWays.VerifyAppends(db, r, v, tok, fee);
    case Scan(d, code, tok) => Money.BoardPayments(db, d, code, tok);
    case Complete(d, t) => Money.ClosingPayments(db, d, t, true);
    case Settle(d, t) => Money.ClosingPayments(db, d, t, true);
    case Withdraw(d, t, why) => Money.ClosingPayments(db, d, t, why);
    case CancelAll(_, _, _) => CancelPaid(db, c, i);
    case CancelOne(_, _, _, _) => CancelPaid(db, c, i);
    case _ => Money.OtherRefunds(db, c);
  }

  ghost predicate PaidWithin(bookings: seq<Booking>, taken: real) {
    SumReal(bookings, PaidOf()) <= taken && forall i :: 0 <= i < |bookings| ==> bookings[i].paid >= 0.0
  }

  lemma RowsPaidWithin(bookings: seq<Booking>, bookings': seq<Booking>, taken: real)
    requires PaidWithin(bookings, taken) && |bookings'| >= |bookings|
    requires forall i :: 0 <= i < |bookings| ==> bookings'[i].paid == bookings[i].paid
    ensures PaidWithin(bookings'[..|bookings|], taken)
  {
    var kept := bookings'[..|bookings|];
    forall i | 0 <= i < |bookings| ensures PaidOf()(bookings[i]) == PaidOf()(kept[i]) {
      assert kept[i] == bookings'[i];
    }
    SumRealSame(bookings, kept, PaidOf());
  }

  lemma OneMorePaid(bookings: seq<Booking>, b: Booking, taken: real, amount: real)
    requires PaidWithin(bookings, taken) && 0.0 <= b.paid <= amount
    ensures PaidWithin(bookings + [b], taken + amount)
  {
    SumRealAppend(bookings, b, PaidOf());
  }

  lemma {:induction false} BookingsPaidFor(start: map<Id, real>, calls: seq<Call>)
    ensures PaidWithin(Run(Fresh(start), calls).bookings, Takings(start, calls))
  {
    hide Step, PaidWithin;
    if calls == [] {
      NothingPaid();
    } else {
      var before, c := calls[..|calls| - 1], calls[|calls| - 1];
      var rows, rows' := Run(Fresh(start), before).bookings, Step(Run(Fresh(start), before), c).0.bookings;
      BookingsPaidFor(start, before);
      RowsKept(Run(Fresh(start), before), c);
      RowsPaidWithin(rows, rows', Takings(start, before));
      PaidInFull(start, before, c);
      if |rows'| > |rows| {
        OneMorePaid(rows'[..|rows|], rows'[|rows|], Takings(start, before), c.verdict.amount);
        assert rows' == rows'[..|rows|] + [rows'[|rows|]];
      } else {
        assert rows' == rows'[..|rows|];
      }
    }
  }

  lemma NothingPaid()
    ensures PaidWithin([], 0.0)
  {
  }

  lemma RowsKept(db: Db, c: Call)
    ensures |Step(db, c).0.bookings| >= |db.bookings|
    ensures forall i :: 0 <= i < |db.bookings| ==> Step(db, c).0.bookings[i].paid == db.bookings[i].paid
  {
    hide Step;
    if |db.bookings| > 0 { PaidStays(db, c, |db.bookings| - 1); }
    forall i | 0 <= i < |db.bookings| ensures Step(db, c).0.bookings[i].paid == db.bookings[i].paid {
      PaidStays(db, c, i);
    }
  }

  lemma {:induction false} SumBelow(bookings: seq<Booking>)
    requires forall i :: 0 <= i < |bookings| ==> bookings[i].paid >= 0.0
    ensures SumReal(bookings, Money.GivenBackOf()) <= SumReal(bookings, PaidOf())
  {
    if bookings != [] {
      SumBelow(bookings[..|bookings| - 1]);
    }
  }

  /** Over every run, whatever is cancelled, retried or refused by the gateway, refunds never exceed what the gateway took. */
  lemma RefundsWithinTakings(start: map<Id, real>, calls: seq<Call>)
    ensures Money.RefundTotal(Run(Fresh(start), calls).refunds) <= Takings(start, calls)
  {
    hide Run, Takings;
    BookingsPaidFor(start, calls);
    LedgerRuns.RefundedOnce(start, calls);
    SumBelow(Run(Fresh(start), calls).bookings);
  }
}
