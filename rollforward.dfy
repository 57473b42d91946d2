/**
 * `Tenant.get_rollforward` (src/lib/database/tenant.py): a month-by-month
 * statement of rent due, rent paid, late fees and the balance carried
 * forward. Dates are day numbers; "one month later" is an abstract strictly
 * increasing function (`relativedelta(months=1)` in the source) and the stop
 * date is a parameter: the move-out day, or for a current tenant the day
 * after today, since `datetime.now()` carries the time of day and a period
 * starting at midnight today is still before it. Amounts are integers
 * (cents).
 */
module Rollforward {

  /** The payment fields the statement reads. */
  datatype Payment = Payment(id: int, category: string, amount: int, date: int, payMethod: string)

  /** One row of the statement. */
  datatype Period = Period(
    dueDate: int,            // BOP, the start of the period
    rentDue: int,
    backDue: int,            // carried from the previous period
    bopDue: int,
    applied: seq<Payment>,   // the rent payments shown in the period, in date order
    lateFee: int,
    rentOwed: int,
    totalOwed: int,
    eopDue: int)             // carried to the next period

  /**
   * How a rent payment counts toward paying on time: as written, each
   * payment before the late date adds the running total paid so far; as
   * intended, it adds its own amount.
   */
  datatype OnTimeRule = AsWritten | Intended

  const GraceDays := 11

  ghost predicate Increasing(addMonth: int -> int) {
    forall d :: addMonth(d) > d
  }

  // ---------------------------------------------------------------------
  // Sorting by payment date (`payments.sort(key=lambda p: p.pmt_date)`)

  predicate SortedByDate(ps: seq<Payment>) {
    forall i, j :: 0 <= i < j < |ps| ==> ps[i].date <= ps[j].date
  }

  /** Puts `p` before the first payment not dated earlier, so equal dates keep their order. */
  function InsertByDate(p: Payment, sorted: seq<Payment>): (r: seq<Payment>)
    ensures multiset(r) == multiset(sorted) + multiset{p}
  {
    if sorted == [] || p.date <= sorted[0].date then [p] + sorted
    else
      assert sorted == [sorted[0]] + sorted[1..];
      [sorted[0]] + InsertByDate(p, sorted[1..])
  }

  /** Inserting into a list sorted by date keeps it sorted. */
  lemma {:induction false} InsertByDateSorted(p: Payment, sorted: seq<Payment>)
    requires SortedByDate(sorted)
    ensures SortedByDate(InsertByDate(p, sorted))
  {
    if sorted != [] && p.date > sorted[0].date {
      var rest := InsertByDate(p, sorted[1..]);
      InsertByDateSorted(p, sorted[1..]);
      forall j | 0 <= j < |rest|
        ensures sorted[0].date <= rest[j].date
      {
        assert rest[j] in multiset(rest);
        if rest[j] != p {
          assert rest[j] in multiset(sorted[1..]);
        }
      }
      var r := [sorted[0]] + rest;
      assert forall i :: 0 < i < |r| ==> r[i] == rest[i - 1];
    }
  }

  /** The payments in date order. */
  function SortByDate(ps: seq<Payment>): (r: seq<Payment>)
    ensures SortedByDate(r)
    ensures multiset(r) == multiset(ps)
  {
    if ps == [] then []
    else
      assert ps == [ps[0]] + ps[1..];
      InsertByDateSorted(ps[0], SortByDate(ps[1..]));
      InsertByDate(ps[0], SortByDate(ps[1..]))
  }

  // ---------------------------------------------------------------------
  // The specification of one period

  /** How many leading payments are dated before `eop`: the ones the period consumes. */
  function PrefixLen(ps: seq<Payment>, eop: int): (k: nat)
    ensures k <= |ps|
    ensures forall j :: 0 <= j < k ==> ps[j].date < eop
    ensures k < |ps| ==> ps[k].date >= eop
  {
    if ps == [] || ps[0].date >= eop then 0 else 1 + PrefixLen(ps[1..], eop)
  }

  /** The rent payments of a list, in order. */
  function RentOnly(ps: seq<Payment>): (r: seq<Payment>)
  {
    if ps == [] then []
    else RentOnly(ps[..|ps| - 1]) + (if ps[|ps| - 1].category == "rent" then [ps[|ps| - 1]] else [])
  }

  /** The total amount of a list of payments. */
  function Paid(ps: seq<Payment>): int {
    if ps == [] then 0 else Paid(ps[..|ps| - 1]) + ps[|ps| - 1].amount
  }

  /** What counts as paid on time, under either rule, for payments dated before `dateLate`. */
  function OnTime(rule: OnTimeRule, ps: seq<Payment>, dateLate: int): int {
    if ps == [] then 0
    else
      var last := ps[|ps| - 1];
      OnTime(rule, ps[..|ps| - 1], dateLate) +
        (if last.date < dateLate then (if rule == AsWritten then Paid(ps) else last.amount) else 0)
  }

  /** The row of a period that starts at `bop`, shows `applied` and carries `backDue` in. */
  function PeriodRow(applied: seq<Payment>, bop: int, backDue: int, rent: int, fee: int, rule: OnTimeRule): Period {
    var rentPaid := Paid(applied);
    var late := rent - OnTime(rule, applied, bop + GraceDays) > 0;
    var lateFee := if late then fee else 0;
    var rentOwed := rent - rentPaid;
    Period(bop, rent, backDue, rent + backDue, applied, lateFee, rentOwed, lateFee + rentOwed,
           backDue + lateFee + rentOwed)
  }

  /** The statement from period start `bop` on, with `pending` payments not yet consumed. */
  function Roll(pending: seq<Payment>, bop: int, stop: int, backDue: int, rent: int, fee: int,
                addMonth: int -> int, rule: OnTimeRule): seq<Period>
    requires Increasing(addMonth)
    decreases stop - bop
  {
    if bop >= stop then []
    else
      var k := PrefixLen(pending, addMonth(bop));
      var row := PeriodRow(RentOnly(pending[..k]), bop, backDue, rent, fee, rule);
      [row] + Roll(pending[k..], addMonth(bop), stop, row.eopDue, rent, fee, addMonth, rule)
  }

  /** The number of payments the statement consumes. */
  function Consumed(pending: seq<Payment>, bop: int, stop: int, addMonth: int -> int): (n: nat)
    requires Increasing(addMonth)
    ensures n <= |pending|
    decreases stop - bop
  {
    if bop >= stop then 0
    else
      var k := PrefixLen(pending, addMonth(bop));
      k + Consumed(pending[k..], addMonth(bop), stop, addMonth)
  }

  /** The date `n` months after `d`, stepping a month at a time. */
  function MonthStep(addMonth: int -> int, d: int, n: nat): int
    decreases n
  {
    if n == 0 then d else MonthStep(addMonth, addMonth(d), n - 1)
  }

  // ---------------------------------------------------------------------
  // The method

  /**
   * `get_rollforward`: sorts the payments by date, then for each period
   * start before the stop date consumes the leading payments dated before
   * the period's end (keeping the rent ones), totals them, charges the late
   * fee and carries the balance forward.
   */
  method GetRollforward(payments: seq<Payment>, moveIn: int, stop: int, rent: int, fee: int,
                        addMonth: int -> int, rule: OnTimeRule) returns (rows: seq<Period>)
    requires Increasing(addMonth)
    ensures rows == Roll(SortByDate(payments), moveIn, stop, 0, rent, fee, addMonth, rule)
  {
    var pending := SortByDate(payments);
    rows := RollPeriods(pending, moveIn, stop, rent, fee, addMonth, rule);
  }

  /** The outer loop of `get_rollforward`, from move-in with nothing carried in. */
  method RollPeriods(payments: seq<Payment>, moveIn: int, stop: int, rent: int, fee: int,
                     addMonth: int -> int, rule: OnTimeRule) returns (rows: seq<Period>)
    requires Increasing(addMonth)
    ensures rows == Roll(payments, moveIn, stop, 0, rent, fee, addMonth, rule)
  {
    var pending := payments;
    var bop := moveIn;
    var backDue := 0;
    rows := [];
    ghost var statement := Roll(pending, bop, stop, backDue, rent, fee, addMonth, rule);
    while bop < stop
      invariant statement == rows + Roll(pending, bop, stop, backDue, rent, fee, addMonth, rule)
      decreases stop - bop
    {
      var eop := addMonth(bop);
      var row, rest := ClosePeriod(pending, bop, eop, backDue, rent, fee, rule);
      RollStep(rows, pending, bop, stop, backDue, rent, fee, addMonth, rule);
      rows := rows + [row];
      pending := rest;
      backDue := row.eopDue;
      bop := eop;
    }
  }

  /** The rows so far and the rest of the statement, once one more period is closed. */
  lemma RollStep(rows: seq<Period>, pending: seq<Payment>, bop: int, stop: int, backDue: int, rent: int, fee: int,
                 addMonth: int -> int, rule: OnTimeRule)
    requires Increasing(addMonth) && bop < stop
    ensures var k := PrefixLen(pending, addMonth(bop));
      var row := PeriodRow(RentOnly(pending[..k]), bop, backDue, rent, fee, rule);
      rows + Roll(pending, bop, stop, backDue, rent, fee, addMonth, rule) ==
        (rows + [row]) + Roll(pending[k..], addMonth(bop), stop, row.eopDue, rent, fee, addMonth, rule)
  {
    RollFirstPeriod(pending, bop, stop, backDue, rent, fee, addMonth, rule);
    var k := PrefixLen(pending, addMonth(bop));
    var row := PeriodRow(RentOnly(pending[..k]), bop, backDue, rent, fee, rule);
    var tail := Roll(pending[k..], addMonth(bop), stop, row.eopDue, rent, fee, addMonth, rule);
    assert rows + ([row] + tail) == (rows + [row]) + tail;
  }

  /**
   * One pass of the outer loop: consumes the period's payments, totals them
   * and computes the period's row.
   */
  method ClosePeriod(pending: seq<Payment>, bop: int, eop: int, backDue: int, rent: int, fee: int, rule: OnTimeRule)
    returns (row: Period, rest: seq<Payment>)
    ensures row == PeriodRow(RentOnly(pending[..PrefixLen(pending, eop)]), bop, backDue, rent, fee, rule)
    ensures rest == pending[PrefixLen(pending, eop)..]
  {
    var dateLate := bop + GraceDays;
    var applied;
    applied, rest := ConsumePeriod(pending, eop);
    var rentPaid, onTime := Totals(applied, dateLate, rule);
    var lateFee := if rent - onTime > 0 then fee else 0;
    var rentOwed := rent - rentPaid;
    var totalOwed := lateFee + rentOwed;
    row := Period(bop, rent, backDue, rent + backDue, applied, lateFee, rentOwed, totalOwed, backDue + totalOwed);
  }

  /** A statement that has a period starts with it. */
  lemma RollFirstPeriod(pending: seq<Payment>, bop: int, stop: int, backDue: int, rent: int, fee: int,
                        addMonth: int -> int, rule: OnTimeRule)
    requires Increasing(addMonth) && bop < stop
    ensures var k := PrefixLen(pending, addMonth(bop));
      var row := PeriodRow(RentOnly(pending[..k]), bop, backDue, rent, fee, rule);
      Roll(pending, bop, stop, backDue, rent, fee, addMonth, rule) ==
        [row] + Roll(pending[k..], addMonth(bop), stop, row.eopDue, rent, fee, addMonth, rule)
  {
  }

  /** The front loop stops exactly where `PrefixLen` says. */
  lemma PrefixLenOfSplit(before: seq<Payment>, consumed: seq<Payment>, rest: seq<Payment>, eop: int)
    requires before == consumed + rest
    requires forall j :: 0 <= j < |consumed| ==> consumed[j].date < eop
    requires rest == [] || rest[0].date >= eop
    ensures PrefixLen(before, eop) == |consumed| && rest == before[|consumed|..]
    decreases |consumed|
  {
    if consumed != [] {
      assert before[1..] == consumed[1..] + rest;
      PrefixLenOfSplit(before[1..], consumed[1..], rest, eop);
    }
  }

  /**
   * The first inner loop: removes the leading payments dated before `eop`
   * and keeps the rent ones.
   */
  method ConsumePeriod(payments: seq<Payment>, eop: int) returns (applied: seq<Payment>, rest: seq<Payment>)
    ensures applied == RentOnly(payments[..PrefixLen(payments, eop)])
    ensures rest == payments[PrefixLen(payments, eop)..]
  {
    applied := [];
    var i := 0;
    while i < |payments| && payments[i].date < eop
      invariant 0 <= i <= |payments|
      invariant forall j :: 0 <= j < i ==> payments[j].date < eop
      invariant applied == RentOnly(payments[..i])
    {
      if payments[i].category == "rent" {
        applied := applied + [payments[i]];
      }
      assert applied == RentOnly(payments[..i + 1]) by {
        assert payments[..i + 1] == payments[..i] + [payments[i]];
        RentOnlyAppend(payments[..i], payments[i]);
      }
      i := i + 1;
    }
    rest := payments[i..];
    assert PrefixLen(payments, eop) == i by {
      assert payments == payments[..i] + rest;
      PrefixLenOfSplit(payments, payments[..i], rest, eop);
    }
  }

  /** Appending a payment appends it to the rent payments exactly when it is one. */
  lemma RentOnlyAppend(ps: seq<Payment>, p: Payment)
    ensures RentOnly(ps + [p]) == RentOnly(ps) + (if p.category == "rent" then [p] else [])
  {
    assert (ps + [p])[..|ps|] == ps;
  }

  /** The second inner loop: the rent paid in the period and the amount that counts as on time. */
  method Totals(applied: seq<Payment>, dateLate: int, rule: OnTimeRule) returns (rentPaid: int, onTime: int)
    ensures rentPaid == Paid(applied)
    ensures onTime == OnTime(rule, applied, dateLate)
  {
    rentPaid := 0;
    onTime := 0;
    var i := 0;
    while i < |applied|
      invariant 0 <= i <= |applied|
      invariant rentPaid == Paid(applied[..i])
      invariant onTime == OnTime(rule, applied[..i], dateLate)
    {
      assert applied[..i + 1][..i] == applied[..i];
      rentPaid := rentPaid + applied[i].amount;
      if applied[i].date < dateLate {
        onTime := onTime + (if rule == AsWritten then rentPaid else applied[i].amount);
      }
      i := i + 1;
    }
    assert applied[..i] == applied;
  }

  // ---------------------------------------------------------------------
  // Properties of the statement

  /** Periods start at move-in and advance a month at a time while the start is before the stop date. */
  lemma {:induction false} RollDates(pending: seq<Payment>, bop: int, stop: int, backDue: int, rent: int, fee: int,
                                     addMonth: int -> int, rule: OnTimeRule)
    requires Increasing(addMonth)
    ensures var rows := Roll(pending, bop, stop, backDue, rent, fee, addMonth, rule);
      && (forall i :: 0 <= i < |rows| ==> rows[i].dueDate == MonthStep(addMonth, bop, i) && rows[i].dueDate < stop)
      && MonthStep(addMonth, bop, |rows|) >= stop
    decreases stop - bop
  {
    if bop < stop {
      var k := PrefixLen(pending, addMonth(bop));
      var row := PeriodRow(RentOnly(pending[..k]), bop, backDue, rent, fee, rule);
      var tail := Roll(pending[k..], addMonth(bop), stop, row.eopDue, rent, fee, addMonth, rule);
      RollFirstPeriod(pending, bop, stop, backDue, rent, fee, addMonth, rule);
      RollDates(pending[k..], addMonth(bop), stop, row.eopDue, rent, fee, addMonth, rule);
      var rows := [row] + tail;
      forall i | 0 < i < |rows|
        ensures rows[i].dueDate == MonthStep(addMonth, bop, i) && rows[i].dueDate < stop
      {
        assert rows[i] == tail[i - 1];
      }
      assert MonthStep(addMonth, bop, |rows|) == MonthStep(addMonth, addMonth(bop), |tail|);
    }
  }

  /**
   * The bookkeeping of one row: BOP Due is rent plus the balance carried in;
   * the late fee is the unit's fee exactly when less than the rent counts as
   * paid on time, else 0; EOP Due adds the fee and the unpaid rent to the
   * balance carried in.
   */
  ghost predicate RowBooks(r: Period, rent: int, fee: int, rule: OnTimeRule) {
    && r.rentDue == rent
    && r.bopDue == rent + r.backDue
    && r.rentOwed == rent - Paid(r.applied)
    && (rent - OnTime(rule, r.applied, r.dueDate + GraceDays) > 0 ==> r.lateFee == fee)
    && (rent - OnTime(rule, r.applied, r.dueDate + GraceDays) <= 0 ==> r.lateFee == 0)
    && r.totalOwed == r.lateFee + r.rentOwed
    && r.eopDue == r.backDue + r.totalOwed
  }

  /**
   * Every row keeps the books, the first period carries in the starting
   * balance and each later one carries in the previous EOP Due.
   */
  lemma {:induction false} RollBookkeeping(pending: seq<Payment>, bop: int, stop: int, backDue: int, rent: int, fee: int,
                                           addMonth: int -> int, rule: OnTimeRule)
    requires Increasing(addMonth)
    ensures var rows := Roll(pending, bop, stop, backDue, rent, fee, addMonth, rule);
      && (|rows| > 0 ==> rows[0].backDue == backDue)
      && (forall i :: 0 <= i < |rows| - 1 ==> rows[i + 1].backDue == rows[i].eopDue)
      && (forall i :: 0 <= i < |rows| ==> RowBooks(rows[i], rent, fee, rule))
    decreases stop - bop
  {
    if bop < stop {
      var eop := addMonth(bop);
      var k := PrefixLen(pending, eop);
      var row := PeriodRow(RentOnly(pending[..k]), bop, backDue, rent, fee, rule);
      RollFirstPeriod(pending, bop, stop, backDue, rent, fee, addMonth, rule);
      var tail := Roll(pending[k..], eop, stop, row.eopDue, rent, fee, addMonth, rule);
      var rows := [row] + tail;
      RollBookkeeping(pending[k..], eop, stop, row.eopDue, rent, fee, addMonth, rule);
      PeriodRowBooks(RentOnly(pending[..k]), bop, backDue, rent, fee, rule);
      assert forall i :: 0 < i < |rows| ==> rows[i] == tail[i - 1];
    }
  }

  /** A single row keeps the books and carries in the balance it was given. */
  lemma PeriodRowBooks(applied: seq<Payment>, bop: int, backDue: int, rent: int, fee: int, rule: OnTimeRule)
    ensures var r := PeriodRow(applied, bop, backDue, rent, fee, rule);
      RowBooks(r, rent, fee, rule) && r.backDue == backDue && r.dueDate == bop && r.applied == applied
  {
  }

  /** The payments shown in all periods, in order. */
  function Flatten(rows: seq<Period>): seq<Payment> {
    if rows == [] then [] else rows[0].applied + Flatten(rows[1..])
  }

  lemma {:induction false} RentOnlyConcat(a: seq<Payment>, b: seq<Payment>)
    ensures RentOnly(a + b) == RentOnly(a) + RentOnly(b)
    decreases |b|
  {
    if b == [] {
      assert a + b == a;
    } else {
      var last := |b| - 1;
      assert (a + b)[..|a + b| - 1] == a + b[..last];
      RentOnlyConcat(a, b[..last]);
    }
  }

  /** The payments shown by a statement are those of its first period, then those of the rest. */
  lemma FlattenFirstPeriod(pending: seq<Payment>, bop: int, stop: int, backDue: int, rent: int, fee: int,
                           addMonth: int -> int, rule: OnTimeRule)
    requires Increasing(addMonth) && bop < stop
    ensures var k := PrefixLen(pending, addMonth(bop));
      var row := PeriodRow(RentOnly(pending[..k]), bop, backDue, rent, fee, rule);
      Flatten(Roll(pending, bop, stop, backDue, rent, fee, addMonth, rule)) ==
        RentOnly(pending[..k]) + Flatten(Roll(pending[k..], addMonth(bop), stop, row.eopDue, rent, fee, addMonth, rule))
  {
    RollFirstPeriod(pending, bop, stop, backDue, rent, fee, addMonth, rule);
    var k := PrefixLen(pending, addMonth(bop));
    var row := PeriodRow(RentOnly(pending[..k]), bop, backDue, rent, fee, rule);
    var tail := Roll(pending[k..], addMonth(bop), stop, row.eopDue, rent, fee, addMonth, rule);
    assert ([row] + tail)[1..] == tail;
  }

  /** The rent payments a statement consumes are those of its first period, then those of the rest. */
  lemma ConsumedFirstPeriod(pending: seq<Payment>, bop: int, stop: int, addMonth: int -> int)
    requires Increasing(addMonth) && bop < stop
    ensures var k := PrefixLen(pending, addMonth(bop));
      RentOnly(pending[..Consumed(pending, bop, stop, addMonth)]) ==
        RentOnly(pending[..k]) + RentOnly(pending[k..][..Consumed(pending[k..], addMonth(bop), stop, addMonth)])
  {
    var k := PrefixLen(pending, addMonth(bop));
    var n := Consumed(pending[k..], addMonth(bop), stop, addMonth);
    assert Consumed(pending, bop, stop, addMonth) == k + n;
    RentOnlySplit(pending, k, n);
  }

  /** The rent payments of a prefix split at `k`. */
  lemma RentOnlySplit(ps: seq<Payment>, k: nat, n: nat)
    requires k + n <= |ps|
    ensures RentOnly(ps[..k + n]) == RentOnly(ps[..k]) + RentOnly(ps[k..][..n])
  {
    assert ps[..k + n] == ps[..k] + ps[k..][..n];
    RentOnlyConcat(ps[..k], ps[k..][..n]);
  }

  /**
   * The statement shows exactly the rent payments among those it consumes,
   * each once and in date order: consumption takes a prefix of the sorted
   * payments, period after period.
   */
  lemma {:induction false} RollShowsConsumedRent(pending: seq<Payment>, bop: int, stop: int, backDue: int, rent: int, fee: int,
                                                 addMonth: int -> int, rule: OnTimeRule)
    requires Increasing(addMonth)
    ensures Flatten(Roll(pending, bop, stop, backDue, rent, fee, addMonth, rule)) ==
      RentOnly(pending[..Consumed(pending, bop, stop, addMonth)])
    decreases stop - bop
  {
    if bop < stop {
      var k := PrefixLen(pending, addMonth(bop));
      var next := PeriodRow(RentOnly(pending[..k]), bop, backDue, rent, fee, rule).eopDue;
      FlattenFirstPeriod(pending, bop, stop, backDue, rent, fee, addMonth, rule);
      ConsumedFirstPeriod(pending, bop, stop, addMonth);
      RollShowsConsumedRent(pending[k..], addMonth(bop), stop, next, rent, fee, addMonth, rule);
    }
  }

  lemma {:induction false} RentOnlyMembers(ps: seq<Payment>, p: Payment)
    ensures p in RentOnly(ps) <==> p in ps && p.category == "rent"
    decreases |ps|
  {
    if ps != [] {
      var last := |ps| - 1;
      RentOnlyMembers(ps[..last], p);
      assert ps == ps[..last] + [ps[last]];
    }
  }

  /** With payments sorted, a period consumes exactly the payments dated before its end. */
  lemma PrefixLenSorted(ps: seq<Payment>, eop: int)
    requires SortedByDate(ps)
    ensures forall j :: 0 <= j < |ps| ==> (j < PrefixLen(ps, eop) <==> ps[j].date < eop)
  {
  }

  /**
   * Every rent payment dated before the end of the first period, including
   * one dated before move-in, is applied in the first period.
   */
  lemma EarlyPaymentsInFirstPeriod(pending: seq<Payment>, bop: int, stop: int, backDue: int, rent: int, fee: int,
                                   addMonth: int -> int, rule: OnTimeRule, p: Payment)
    requires Increasing(addMonth) && SortedByDate(pending) && bop < stop
    requires p in pending && p.category == "rent" && p.date < addMonth(bop)
    ensures p in Roll(pending, bop, stop, backDue, rent, fee, addMonth, rule)[0].applied
  {
    var k := PrefixLen(pending, addMonth(bop));
    PrefixLenSorted(pending, addMonth(bop));
    var j :| 0 <= j < |pending| && pending[j] == p;
    assert p in pending[..k];
    RentOnlyMembers(pending[..k], p);
  }

  lemma ConsumedPaymentDates(pending: seq<Payment>, eop: int, q: Payment)
    requires q in RentOnly(pending[..PrefixLen(pending, eop)])
    ensures q in pending && q.date < eop
  {
    var k := PrefixLen(pending, eop);
    RentOnlyMembers(pending[..k], q);
    var j :| 0 <= j < k && pending[..k][j] == q;
    assert q == pending[j];
  }

  /** Every payment a row shows is one of `pending` and dated before the row's period ends. */
  ghost predicate ShownBeforeEnd(r: Period, pending: seq<Payment>, addMonth: int -> int) {
    forall q :: q in r.applied ==> q in pending && q.date < addMonth(r.dueDate)
  }

  /** Each payment a period shows is one of the pending payments, dated before the period's end. */
  lemma {:induction false} AppliedBeforePeriodEnd(pending: seq<Payment>, bop: int, stop: int, backDue: int, rent: int, fee: int,
                                                  addMonth: int -> int, rule: OnTimeRule)
    requires Increasing(addMonth)
    ensures var rows := Roll(pending, bop, stop, backDue, rent, fee, addMonth, rule);
      forall i :: 0 <= i < |rows| ==> ShownBeforeEnd(rows[i], pending, addMonth)
    decreases stop - bop
  {
    if bop < stop {
      var eop := addMonth(bop);
      var k := PrefixLen(pending, eop);
      var row := PeriodRow(RentOnly(pending[..k]), bop, backDue, rent, fee, rule);
      var rest := pending[k..];
      var tail := Roll(rest, eop, stop, row.eopDue, rent, fee, addMonth, rule);
      RollFirstPeriod(pending, bop, stop, backDue, rent, fee, addMonth, rule);
      assert ShownBeforeEnd(row, pending, addMonth) by {
        forall q | q in row.applied
          ensures q in pending && q.date < eop
        {
          ConsumedPaymentDates(pending, eop, q);
        }
      }
      forall i | 0 <= i < |tail|
        ensures ShownBeforeEnd(tail[i], pending, addMonth)
      {
        AppliedBeforePeriodEnd(rest, eop, stop, row.eopDue, rent, fee, addMonth, rule);
        ShownInLarger(tail[i], pending, k, addMonth);
      }
      var rows := [row] + tail;
      assert forall i :: 0 < i < |rows| ==> rows[i] == tail[i - 1];
    }
  }

  /** A period shown within a suffix of the pending payments is shown within all of them. */
  lemma ShownInLarger(r: Period, pending: seq<Payment>, k: nat, addMonth: int -> int)
    requires k <= |pending| && ShownBeforeEnd(r, pending[k..], addMonth)
    ensures ShownBeforeEnd(r, pending, addMonth)
  {
    forall q | q in r.applied
      ensures q in pending
    {
      var j :| 0 <= j < |pending| - k && pending[k..][j] == q;
      assert q == pending[k + j];
    }
  }

  /** With payments sorted, each payment a period after the first shows is dated on or after its start. */
  lemma {:induction false} AppliedAfterPeriodStart(pending: seq<Payment>, bop: int, stop: int, backDue: int, rent: int, fee: int,
                                                   addMonth: int -> int, rule: OnTimeRule)
    requires Increasing(addMonth) && SortedByDate(pending)
    ensures var rows := Roll(pending, bop, stop, backDue, rent, fee, addMonth, rule);
      forall i, q :: 0 < i < |rows| && q in rows[i].applied ==> q.date >= rows[i].dueDate
    decreases stop - bop
  {
    if bop < stop {
      var eop := addMonth(bop);
      var k := PrefixLen(pending, eop);
      var row := PeriodRow(RentOnly(pending[..k]), bop, backDue, rent, fee, rule);
      var rest := pending[k..];
      var tail := Roll(rest, eop, stop, row.eopDue, rent, fee, addMonth, rule);
      RollFirstPeriod(pending, bop, stop, backDue, rent, fee, addMonth, rule);
      assert SortedByDate(rest);
      forall i, q | 0 <= i < |tail| && q in tail[i].applied
        ensures q.date >= tail[i].dueDate
      {
        if i == 0 {
          AppliedBeforePeriodEnd(rest, eop, stop, row.eopDue, rent, fee, addMonth, rule);
          assert ShownBeforeEnd(tail[0], rest, addMonth);
          RestDatedFromEnd(pending, eop, q);
          RollDates(rest, eop, stop, row.eopDue, rent, fee, addMonth, rule);
          assert tail[0].dueDate == MonthStep(addMonth, eop, 0);
        } else {
          AppliedAfterPeriodStart(rest, eop, stop, row.eopDue, rent, fee, addMonth, rule);
        }
      }
      var rows := [row] + tail;
      assert forall i :: 0 < i < |rows| ==> rows[i] == tail[i - 1];
    }
  }

  /** With payments sorted, every payment left after a period is dated on or after its end. */
  lemma RestDatedFromEnd(pending: seq<Payment>, eop: int, q: Payment)
    requires SortedByDate(pending) && q in pending[PrefixLen(pending, eop)..]
    ensures q.date >= eop
  {
    var k := PrefixLen(pending, eop);
    var j :| 0 <= j < |pending| - k && pending[k..][j] == q;
    assert q == pending[k + j];
    PrefixLenSorted(pending, eop);
  }

  /** The late fees charged over a run of periods. */
  function Fees(rows: seq<Period>): int {
    if rows == [] then 0 else rows[0].lateFee + Fees(rows[1..])
  }

  lemma {:induction false} PaidConcat(a: seq<Payment>, b: seq<Payment>)
    ensures Paid(a + b) == Paid(a) + Paid(b)
    decreases |b|
  {
    if b == [] {
      assert a + b == a;
    } else {
      var last := |b| - 1;
      assert (a + b)[..|a + b| - 1] == a + b[..last];
      PaidConcat(a, b[..last]);
    }
  }

  /** Each row's EOP Due is its balance carried in, its late fee and the rent it leaves unpaid. */
  ghost predicate Settles(r: Period, rent: int) {
    r.eopDue == r.backDue + r.lateFee + rent - Paid(r.applied)
  }

  /** Rows that start from `backDue`, each carrying in the previous EOP Due and settling its own. */
  ghost predicate Chain(rows: seq<Period>, backDue: int, rent: int)
    decreases |rows|
  {
    rows == [] || (rows[0].backDue == backDue && Settles(rows[0], rent) && Chain(rows[1..], rows[0].eopDue, rent))
  }

  lemma {:induction false} RollChains(pending: seq<Payment>, bop: int, stop: int, backDue: int, rent: int, fee: int,
                                      addMonth: int -> int, rule: OnTimeRule)
    requires Increasing(addMonth)
    ensures Chain(Roll(pending, bop, stop, backDue, rent, fee, addMonth, rule), backDue, rent)
    decreases stop - bop
  {
    if bop < stop {
      var eop := addMonth(bop);
      var k := PrefixLen(pending, eop);
      var row := PeriodRow(RentOnly(pending[..k]), bop, backDue, rent, fee, rule);
      RollFirstPeriod(pending, bop, stop, backDue, rent, fee, addMonth, rule);
      var tail := Roll(pending[k..], eop, stop, row.eopDue, rent, fee, addMonth, rule);
      RollChains(pending[k..], eop, stop, row.eopDue, rent, fee, addMonth, rule);
      assert ([row] + tail)[1..] == tail;
    }
  }

  lemma OneMorePeriod(n: int, rent: int)
    ensures (n + 1) * rent == n * rent + rent
  {
  }

  lemma {:induction false} Telescope(rows: seq<Period>, backDue: int, rent: int)
    requires Chain(rows, backDue, rent)
    ensures |rows| > 0 ==> rows[|rows| - 1].eopDue == backDue + Fees(rows) + |rows| * rent - Paid(Flatten(rows))
    decreases |rows|
  {
    if |rows| > 0 {
      var tail := rows[1..];
      PaidConcat(rows[0].applied, Flatten(tail));
      assert Fees(rows) == rows[0].lateFee + Fees(tail);
      assert Flatten(rows) == rows[0].applied + Flatten(tail);
      if tail != [] {
        Telescope(tail, rows[0].eopDue, rent);
        assert rows[|rows| - 1] == tail[|tail| - 1];
        OneMorePeriod(|tail|, rent);
      }
    }
  }

  /**
   * The closing balance: the balance carried in, plus every late fee, plus
   * the rent of every period, less every rent payment shown.
   */
  lemma ClosingBalance(pending: seq<Payment>, bop: int, stop: int, backDue: int, rent: int, fee: int,
                       addMonth: int -> int, rule: OnTimeRule)
    requires Increasing(addMonth)
    ensures var rows := Roll(pending, bop, stop, backDue, rent, fee, addMonth, rule);
      |rows| > 0 ==> rows[|rows| - 1].eopDue == backDue + Fees(rows) + |rows| * rent - Paid(Flatten(rows))
  {
    var rows := Roll(pending, bop, stop, backDue, rent, fee, addMonth, rule);
    RollChains(pending, bop, stop, backDue, rent, fee, addMonth, rule);
    Telescope(rows, backDue, rent);
  }

  // ---------------------------------------------------------------------
  // The on-time rule

  ghost predicate NonNegative(ps: seq<Payment>) {
    forall q :: q in ps ==> q.amount >= 0
  }

  lemma {:induction false} PaidNonNegative(ps: seq<Payment>)
    requires NonNegative(ps)
    ensures Paid(ps) >= 0
    decreases |ps|
  {
    if ps != [] {
      assert ps[|ps| - 1] in ps;
      PaidNonNegative(ps[..|ps| - 1]);
    }
  }

  /** As written, payments count at least as much toward paying on time as they would as intended. */
  lemma {:induction false} AsWrittenOvercounts(ps: seq<Payment>, dateLate: int)
    requires NonNegative(ps)
    ensures OnTime(AsWritten, ps, dateLate) >= OnTime(Intended, ps, dateLate)
    decreases |ps|
  {
    if ps != [] {
      var init := ps[..|ps| - 1];
      assert NonNegative(init);
      PaidNonNegative(init);
      AsWrittenOvercounts(init, dateLate);
    }
  }

  /** As intended, what counts as paid on time is part of what was paid. */
  lemma {:induction false} IntendedWithinPaid(ps: seq<Payment>, dateLate: int)
    requires NonNegative(ps)
    ensures 0 <= OnTime(Intended, ps, dateLate) <= Paid(ps)
    decreases |ps|
  {
    if ps != [] {
      var init := ps[..|ps| - 1];
      assert ps[|ps| - 1] in ps;
      assert NonNegative(init);
      IntendedWithinPaid(init, dateLate);
    }
  }

  /**
   * The intended rule: a period in which less than the rent was paid is
   * charged the late fee, and a period in which the rent was paid in full
   * before the late date is not.
   */
  lemma UnderpaidPeriodIsLate(applied: seq<Payment>, bop: int, backDue: int, rent: int, fee: int)
    requires NonNegative(applied)
    ensures Paid(applied) < rent ==> PeriodRow(applied, bop, backDue, rent, fee, Intended).lateFee == fee
    ensures OnTime(Intended, applied, bop + GraceDays) >= rent ==>
      PeriodRow(applied, bop, backDue, rent, fee, Intended).lateFee == 0
  {
    IntendedWithinPaid(applied, bop + GraceDays);
  }

  /**
   * As written, a tenant who pays 300.00 of a 1000.00 rent three times
   * before the late date is charged no late fee, though 100.00 of the rent
   * is unpaid; the intended rule charges the 150.00 fee.
   */
  lemma AsWrittenMissesLateFee()
    ensures var ps := [Payment(1, "rent", 30000, 2, "check"), Payment(2, "rent", 30000, 3, "check"),
                       Payment(3, "rent", 30000, 4, "check")];
      && Paid(ps) == 90000
      && PeriodRow(ps, 0, 0, 100000, 15000, AsWritten).lateFee == 0
      && PeriodRow(ps, 0, 0, 100000, 15000, Intended).lateFee == 15000
  {
    var ps := [Payment(1, "rent", 30000, 2, "check"), Payment(2, "rent", 30000, 3, "check"),
               Payment(3, "rent", 30000, 4, "check")];
    assert ps[..|ps| - 1] == ps[..2];
    assert ps[..2][..1] == ps[..1];
    assert ps[..1][..0] == [];
    assert Paid(ps[..1]) == 30000;
    assert Paid(ps[..2]) == 60000;
    assert OnTime(AsWritten, ps[..1], 11) == 30000;
    assert OnTime(AsWritten, ps[..2], 11) == 90000;
    assert OnTime(AsWritten, ps, 11) == 180000;
    assert OnTime(Intended, ps[..1], 11) == 30000;
    assert OnTime(Intended, ps[..2], 11) == 60000;
    assert OnTime(Intended, ps, 11) == 90000;
  }
}
