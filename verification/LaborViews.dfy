/** How analytics read the labor ledger: the payment filters and the money projection
    (src/routes/appeals.ts). */
module LaborViews {
  import opened Numbers
  import opened Options
  import opened LaborLedger

  // ---------------------------------------------------------------- payment filters

  predicate SomeEntry(s: Sheet, statuses: set<Payment>) {
    exists a :: a in s.entries && s.entries[a].status in statuses
  }

  predicate SomeWorkedEntry(s: Sheet, statuses: set<Payment>) {
    exists a :: a in s.entries && s.entries[a].hours > 0 && s.entries[a].status in statuses
  }

  predicate MatchesUnpaid(s: Sheet) {
    SomeWorkedEntry(s, {Unpaid, Partial})
  }

  predicate MatchesPaid(s: Sheet) {
    SomeWorkedEntry(s, {Paid}) && !SomeWorkedEntry(s, {Unpaid, Partial})
  }

  predicate MatchesNotRequired(s: Sheet) {
    s.laborNotRequired || (SomeEntry(s, {NotRequired}) && !SomeEntry(s, {Paid, Unpaid, Partial}))
  }

  predicate MatchesUnset(s: Sheet) {
    !s.laborNotRequired && !SomeEntry(s, {Paid, Unpaid, Partial, NotRequired})
  }

  /** How many of the four filters select the appeal. */
  function Matches(s: Sheet): nat {
    One(MatchesUnpaid(s)) + One(MatchesPaid(s)) + One(MatchesNotRequired(s)) + One(MatchesUnset(s))
  }

  /** In every reachable ledger the four payment filters partition the appeals. */
  lemma FiltersPartition(events: seq<Event>, appeal: nat)
    requires appeal in Run(events)
    ensures Matches(Run(events)[appeal]) == 1
  {
    RunKeepsEntries(events, appeal);
  }

  /** What the filters select in a reachable ledger, said by hours and rates: something left to pay;
      something to pay for and all of it paid; nothing to pay for; no entry at all. */
  lemma FiltersMean(events: seq<Event>, appeal: nat)
    requires appeal in Run(events)
    ensures var (s, e) := (Run(events)[appeal], Run(events)[appeal].entries);
      && (MatchesUnpaid(s) <==> exists a :: a in e && e[a].rate > 0 && e[a].paid < e[a].hours)
      && (MatchesPaid(s) <==> && (exists a :: a in e && e[a].rate > 0)
                              && (forall a :: a in e && e[a].rate > 0 ==> e[a].paid == e[a].hours))
      && (MatchesNotRequired(s) <==> s.laborNotRequired || (e != map[] && forall a :: a in e ==> e[a].rate == 0))
      && (MatchesUnset(s) <==> !s.laborNotRequired && e == map[])
  {
    RunKeepsEntries(events, appeal);
    var s := Run(events)[appeal];
    forall a | a in s.entries ensures EntryOk(s.laborNotRequired, s.entries[a]) { }
    if s.entries != map[] {
      var a :| a in s.entries;
      assert s.entries[a].status in {Paid, Unpaid, Partial, NotRequired};
    }
  }

  /** Off the reachable states the filters do not partition: an unpaid row without hours is
      found by none of them. */
  lemma UnreachableSheetMatchesNothing()
    ensures Matches(Sheet(false, map[1 := Entry(0, 0, 100, Unpaid, None, None)], [])) == 0
  {
    var s := Sheet(false, map[1 := Entry(0, 0, 100, Unpaid, None, None)], []);
    assert s.entries[1].status in {Paid, Unpaid, Partial};
    assert s.entries[1].status in {Paid, Unpaid, Partial, NotRequired};
    assert SomeEntry(s, {Paid, Unpaid, Partial}) && SomeEntry(s, {Paid, Unpaid, Partial, NotRequired});
  }

  // ---------------------------------------------------------------- money projection

  /** Hours are hundredths and rates kopecks: the nearest whole kopeck, the upper one of two. */
  predicate IsAmount(kopecks: int, hours: nat, rate: nat) {
    -50 < 100 * kopecks - hours * rate <= 50
  }

  function Amount(hours: nat, rate: nat): nat {
    (hours * rate + 50) / 100
  }

  lemma AmountIsExact(kopecks: int, hours: nat, rate: nat)
    ensures IsAmount(kopecks, hours, rate) <==> kopecks == Amount(hours, rate)
  {
    var x := hours * rate;
    assert 100 * ((x + 50) / 100) <= x + 50 < 100 * ((x + 50) / 100) + 100;
  }

  datatype Field = AccruedHours | PaidHours | RemainingHours | AccruedRub | PaidRub | RemainingRub

  datatype Dto = Dto(
    accrued: nat, paid: nat, remaining: nat, payable: bool, rate: nat,
    amountAccrued: nat, amountPaid: nat, amountRemaining: nat, status: Payment, paidAt: Option<int>)
  {
    function Get(f: Field): nat {
      match f
      case AccruedHours => accrued
      case PaidHours => paid
      case RemainingHours => remaining
      case AccruedRub => amountAccrued
      case PaidRub => amountPaid
      case RemainingRub => amountRemaining
    }
  }

  function Project(e: Entry, waived: bool): Dto {
    var rate := if waived then 0 else e.rate;
    var payable := !waived && rate > 0;
    var paid := if payable then Min(e.paid, e.hours) else 0;
    var remaining := e.hours - paid;
    var status := if waived then NotRequired else Derive(payable, e.hours, paid);
    Dto(e.hours, paid, remaining, payable, rate, Amount(e.hours, rate), Amount(paid, rate), Amount(remaining, rate),
        status, if status == Paid then e.paidAt else None)
  }

  predicate Within(a: int, b: int, n: nat) {
    a - b <= n && b - a <= n
  }

  lemma AmountsAddUp(p: nat, q: nat, rate: nat)
    ensures Within(Amount(p + q, rate), Amount(p, rate) + Amount(q, rate), 1)
  {
    var x, y := p * rate, q * rate;
    assert (p + q) * rate == x + y;
  }

  /** The entry is shown as stored, payable exactly if it has a rate, and its hours split exactly. */
  predicate ShowsHours(e: Entry, d: Dto) {
    && d.accrued == e.hours && d.paid == e.paid && d.rate == e.rate && (d.payable <==> e.rate > 0)
    && d.status == e.status && d.paidAt == e.paidAt
    && d.accrued == d.paid + d.remaining
  }

  /** Each amount is the nearest kopeck to its hours times the rate, and the parts differ from the whole
      by one kopeck at most. */
  predicate ShowsMoney(e: Entry, d: Dto) {
    && IsAmount(d.amountAccrued, e.hours, e.rate) && IsAmount(d.amountPaid, e.paid, e.rate)
    && IsAmount(d.amountRemaining, d.remaining, e.rate)
    && Within(d.amountAccrued, d.amountPaid + d.amountRemaining, 1)
  }

  lemma HoursAreFaithful(e: Entry, waived: bool)
    requires EntryOk(waived, e)
    ensures ShowsHours(e, Project(e, waived))
  {
  }

  /** A well-formed entry is shown faithfully, in hours and in money. */
  lemma ProjectionIsFaithful(e: Entry, waived: bool)
    requires EntryOk(waived, e)
    ensures ShowsHours(e, Project(e, waived)) && ShowsMoney(e, Project(e, waived))
  {
    var d := Project(e, waived);
    HoursAreFaithful(e, waived);
    AmountIsExact(d.amountAccrued, e.hours, e.rate);
    AmountIsExact(d.amountPaid, e.paid, e.rate);
    AmountIsExact(d.amountRemaining, d.remaining, e.rate);
    AmountsAddUp(d.paid, d.remaining, d.rate);
  }

  datatype Totals = Totals(accrued: nat, paid: nat, remaining: nat, notRequired: nat,
                           amountAccrued: nat, amountPaid: nat, amountRemaining: nat)

  function Payable(rows: seq<(Entry, bool)>): (n: nat)
    ensures n <= |rows|
  {
    if rows == [] then 0
    else Payable(rows[..|rows| - 1]) + One(Project(rows[|rows| - 1].0, rows[|rows| - 1].1).payable)
  }

  function HoursOf(rows: seq<(Entry, bool)>): nat {
    if rows == [] then 0 else HoursOf(rows[..|rows| - 1]) + rows[|rows| - 1].0.hours
  }

  /** The sum of one shown column over the payable rows (or over the others). */
  function Column(rows: seq<(Entry, bool)>, payable: bool, field: Field): nat {
    if rows == [] then 0
    else
      var d := Project(rows[|rows| - 1].0, rows[|rows| - 1].1);
      Column(rows[..|rows| - 1], payable, field) + if d.payable == payable then d.Get(field) else 0
  }

  /** Over any rows: payable hours split exactly into paid and remaining, every hour is in one column,
      and over n payable rows the rubles stay within n kopecks. */
  lemma {:induction false} ColumnsBalance(rows: seq<(Entry, bool)>)
    ensures Column(rows, true, AccruedHours) == Column(rows, true, PaidHours) + Column(rows, true, RemainingHours)
    ensures Column(rows, true, AccruedHours) + Column(rows, false, AccruedHours) == HoursOf(rows)
    ensures Within(Column(rows, true, AccruedRub),
                   Column(rows, true, PaidRub) + Column(rows, true, RemainingRub), Payable(rows))
  {
    if rows != [] {
      var r := rows[|rows| - 1];
      var d := Project(r.0, r.1);
      ColumnsBalance(rows[..|rows| - 1]);
      assert d.accrued == d.paid + d.remaining;
      AmountsAddUp(d.paid, d.remaining, d.rate);
    }
  }

  predicate AllOk(rows: seq<(Entry, bool)>) {
    forall i :: 0 <= i < |rows| ==> EntryOk(rows[i].1, rows[i].0)
  }

  lemma RestOk(rows: seq<(Entry, bool)>)
    requires rows != [] && AllOk(rows)
    ensures AllOk(rows[..|rows| - 1]) && EntryOk(rows[|rows| - 1].1, rows[|rows| - 1].0)
  {
  }

  function Settled(e: Entry): nat {
    e.paid
  }

  function Outstanding(e: Entry): nat {
    if e.rate > 0 && e.paid < e.hours then e.hours - e.paid else 0
  }

  function Unpriced(e: Entry): nat {
    if e.rate == 0 then e.hours else 0
  }

  function Price(e: Entry): nat {
    e.hours * e.rate
  }

  function PaidPrice(e: Entry): nat {
    e.paid * e.rate
  }

  /** A quantity of the stored entries, summed up. */
  function Total(rows: seq<(Entry, bool)>, quantity: Entry -> nat): nat {
    if rows == [] then 0 else Total(rows[..|rows| - 1], quantity) + quantity(rows[|rows| - 1].0)
  }

  /** What the hour columns measure on the stored entries: all paid hours, the unpaid hours of entries
      with a rate, and the hours of those without. */
  lemma {:induction false} HoursMeasure(rows: seq<(Entry, bool)>)
    requires AllOk(rows)
    ensures Column(rows, true, PaidHours) == Total(rows, Settled)
    ensures Column(rows, true, RemainingHours) == Total(rows, Outstanding)
    ensures Column(rows, false, AccruedHours) == Total(rows, Unpriced)
  {
    if rows != [] {
      var (e, waived) := rows[|rows| - 1];
      RestOk(rows);
      HoursMeasure(rows[..|rows| - 1]);
      RowHours(e, waived);
    }
  }

  lemma RowHours(e: Entry, waived: bool)
    requires EntryOk(waived, e)
    ensures var d := Project(e, waived);
      if d.payable then d.paid == Settled(e) && d.remaining == Outstanding(e) && Unpriced(e) == 0
      else d.accrued == Unpriced(e) && Settled(e) == 0 && Outstanding(e) == 0
  {
  }

  lemma RowMoney(e: Entry, waived: bool)
    requires EntryOk(waived, e)
    ensures var d := Project(e, waived);
      if d.payable then Within(100 * d.amountAccrued, Price(e), 50) && Within(100 * d.amountPaid, PaidPrice(e), 50)
      else Price(e) == 0 && PaidPrice(e) == 0
  {
    ProjectionIsFaithful(e, waived);
  }

  /** The money columns measure hours times rate, within half a kopeck per row. */
  lemma {:induction false} MoneyMeasures(rows: seq<(Entry, bool)>)
    requires AllOk(rows)
    ensures Within(100 * Column(rows, true, AccruedRub), Total(rows, Price), 50 * Payable(rows))
    ensures Within(100 * Column(rows, true, PaidRub), Total(rows, PaidPrice), 50 * Payable(rows))
  {
    if rows != [] {
      var (e, waived) := rows[|rows| - 1];
      RestOk(rows);
      MoneyMeasures(rows[..|rows| - 1]);
      RowMoney(e, waived);
    }
  }

  /** The KPI dashboard's accumulation over the entries it loaded. */
  method KpiTotals(rows: seq<(Entry, bool)>) returns (t: Totals)
    ensures t.paid == Column(rows, true, PaidHours) && t.remaining == Column(rows, true, RemainingHours)
    ensures t.amountAccrued == Column(rows, true, AccruedRub)
    ensures t.amountPaid == Column(rows, true, PaidRub)
    ensures t.amountRemaining == Column(rows, true, RemainingRub)
    ensures t.notRequired == Column(rows, false, AccruedHours)
    ensures t.accrued == t.paid + t.remaining
    ensures t.accrued + t.notRequired == HoursOf(rows)
    ensures Within(t.amountAccrued, t.amountPaid + t.amountRemaining, Payable(rows))
  {
    t := Totals(0, 0, 0, 0, 0, 0, 0);
    for k := 0 to |rows|
      invariant t.accrued == Column(rows[..k], true, AccruedHours)
      invariant t.paid == Column(rows[..k], true, PaidHours)
      invariant t.remaining == Column(rows[..k], true, RemainingHours)
      invariant t.amountAccrued == Column(rows[..k], true, AccruedRub)
      invariant t.amountPaid == Column(rows[..k], true, PaidRub)
      invariant t.amountRemaining == Column(rows[..k], true, RemainingRub)
      invariant t.notRequired == Column(rows[..k], false, AccruedHours)
    {
      var d := Project(rows[k].0, rows[k].1);
      assert rows[..k + 1][..k] == rows[..k];
      if d.payable {
        t := t.(accrued := t.accrued + d.accrued, paid := t.paid + d.paid, remaining := t.remaining + d.remaining,
                amountAccrued := t.amountAccrued + d.amountAccrued,
                amountPaid := t.amountPaid + d.amountPaid,
                amountRemaining := t.amountRemaining + d.amountRemaining);
      } else {
        t := t.(notRequired := t.notRequired + d.accrued);
      }
    }
    assert rows[..|rows|] == rows;
    ColumnsBalance(rows);
  }

  /** Every entry of a reachable ledger is shown faithfully. */
  lemma ReachableEntriesAreShown(events: seq<Event>, appeal: nat, a: nat)
    requires appeal in Run(events) && a in Run(events)[appeal].entries
    ensures var (s, e) := (Run(events)[appeal], Run(events)[appeal].entries[a]);
      ShowsHours(e, Project(e, s.laborNotRequired)) && ShowsMoney(e, Project(e, s.laborNotRequired))
  {
    RunKeepsEntries(events, appeal);
    ProjectionIsFaithful(Run(events)[appeal].entries[a], Run(events)[appeal].laborNotRequired);
  }
}
