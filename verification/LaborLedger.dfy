/** The labor and payment ledger of an appeal with its audit log (src/routes/appeals.ts).

    Hours and rates are hundredths, so rounding to two places is the identity.  A request runs in
    one transaction: it either commits its whole result or leaves the tables unchanged. */
module LaborLedger {
  import opened Numbers
  import opened Options
  import opened Sequences

  datatype Payment = Unpaid | Partial | Paid | NotRequired

  datatype Entry = Entry(hours: nat, paid: nat, rate: nat, status: Payment, paidAt: Option<int>, paidBy: Option<nat>)

  /** The three audited values of an entry; an absent entry counts as ZERO. */
  datatype Snapshot = Snapshot(hours: nat, paid: nat, status: Payment)

  datatype Row = Row(assignee: nat, before: Option<Snapshot>, after: Snapshot)

  /** The labor part of one appeal: its flag, its entries by assignee, its audit rows. */
  datatype Sheet = Sheet(laborNotRequired: bool, entries: map<nat, Entry>, log: seq<Row>)

  datatype Item = Item(assignee: nat, accrued: Option<int>, hours: Option<int>, paid: Option<int>,
      status: Option<Payment>)

  /** Rates in force when the request runs: a missing personal rate means the department's. */
  datatype Context = Context(paymentRequired: bool, department: int, personal: map<nat, int>, now: int, actor: nat)

  datatype Outcome = Done(sheet: Sheet) | BadRequest | Crash

  datatype Effect = Reject | Remove | Put(entry: Entry)

  const ZERO := Snapshot(0, 0, Unpaid)
  const EMPTY_SHEET := Sheet(false, map[], [])

  // ---------------------------------------------------------------- pure rules

  function Normalize(v: int): nat {
    if v < 0 then 0 else v
  }

  function EffectiveRate(c: Context, assignee: nat): nat {
    if !c.paymentRequired then 0
    else Normalize(if assignee in c.personal then c.personal[assignee] else c.department)
  }

  function Derive(payable: bool, accrued: nat, paid: nat): Payment {
    if !payable then NotRequired
    else if accrued == 0 || paid == 0 then Unpaid
    else if paid < accrued then Partial
    else Paid
  }

  /** Paid hours of a request that only names a payment status. */
  function LegacyPaid(accrued: nat, status: Option<Payment>, previous: nat): nat {
    if status == Some(Paid) then accrued
    else if status == Some(Unpaid) || status == Some(NotRequired) then 0
    else Min(previous, accrued)
  }

  function Lookup(entries: map<nat, Entry>, a: nat): Option<Entry> {
    if a in entries then Some(entries[a]) else None
  }

  function Snap(e: Option<Entry>): Snapshot {
    if e.None? then ZERO else Snapshot(e.value.hours, e.value.paid, e.value.status)
  }

  function Accrued(item: Item): nat {
    Normalize(item.accrued.GetOr(item.hours.GetOr(0)))
  }

  /** The rate an entry keeps: fixed at its first write, free again once labor was waived. */
  function LockedRate(base: Sheet, a: nat, c: Context): nat {
    if a !in base.entries || base.laborNotRequired then EffectiveRate(c, a) else base.entries[a].rate
  }

  function RequestedPaid(base: Sheet, item: Item): nat {
    var previous := if item.assignee in base.entries then base.entries[item.assignee].paid else 0;
    if item.paid.Some? then Normalize(item.paid.value) else LegacyPaid(Accrued(item), item.status, previous)
  }

  /** What one item asks of the row it names; `base` is the sheet as the transaction read it. */
  function EffectOf(base: Sheet, item: Item, c: Context): Effect {
    var accrued := Accrued(item);
    var requested := RequestedPaid(base, item);
    var rate := LockedRate(base, item.assignee, c);
    if requested > accrued then Reject
    else
      var paid := if rate > 0 then requested else 0;
      if accrued == 0 && paid == 0 then Remove
      else
        var status := Derive(rate > 0, accrued, paid);
        var previous := Lookup(base.entries, item.assignee);
        if status == Paid then
          var paidAt := if previous.Some? && previous.value.paidAt.Some? then previous.value.paidAt else Some(c.now);
          var paidBy := if previous.Some? && previous.value.paidBy.Some? then previous.value.paidBy else Some(c.actor);
          Put(Entry(accrued, paid, rate, status, paidAt, paidBy))
        else Put(Entry(accrued, paid, rate, status, None, None))
  }

  /** No audit row is written when nothing the log records has changed. */
  function Audit(log: seq<Row>, a: nat, previous: Option<Entry>, after: Snapshot): seq<Row> {
    if previous.Some? && Snap(previous) == after then log
    else log + [Row(a, if previous.Some? then Some(Snap(previous)) else None, after)]
  }

  function ApplyEffect(base: Sheet, cur: Sheet, a: nat, effect: Effect): Outcome {
    var previous := Lookup(base.entries, a);
    match effect
    case Reject => BadRequest
    case Remove =>
      if previous.Some? && a !in cur.entries then Crash
      else
        Done(cur.(entries := if previous.Some? then cur.entries - {a} else cur.entries,
                  log := Audit(cur.log, a, previous, ZERO)))
    case Put(e) => Done(cur.(entries := cur.entries[a := e], log := Audit(cur.log, a, previous, Snap(Some(e)))))
  }

  function ApplyItems(base: Sheet, items: seq<Item>, c: Context): Outcome {
    if items == [] then Done(base.(laborNotRequired := false))
    else
      var n := |items| - 1;
      match ApplyItems(base, items[..n], c)
      case Done(cur) => ApplyEffect(base, cur, items[n].assignee, EffectOf(base, items[n], c))
      case failed => failed
  }

  function Named(items: seq<Item>): set<nat> {
    set i | i in items :: i.assignee
  }

  /** Deletes, in the order the database listed them, the entries no item named. */
  function RemoveRest(base: Sheet, cur: Sheet, listed: seq<nat>, named: set<nat>): Outcome {
    if listed == [] then Done(cur)
    else
      var n := |listed| - 1;
      match RemoveRest(base, cur, listed[..n], named)
      case Done(s) =>
        if listed[n] in named then Done(s)
        else ApplyEffect(base, s, listed[n], Remove)
      case failed => failed
  }

  const WAIVED := Entry(0, 0, 0, NotRequired, None, None)

  /** The labor-not-required branch: every assignee and every listed entry is zeroed. */
  function Waive(base: Sheet, targets: seq<nat>): Sheet {
    if targets == [] then base.(laborNotRequired := true)
    else
      var n := |targets| - 1;
      var cur := Waive(base, targets[..n]);
      cur.(entries := cur.entries[targets[n] := WAIVED],
           log := Audit(cur.log, targets[n], Lookup(base.entries, targets[n]), Snap(Some(WAIVED))))
  }

  function WithoutRepeats(s: seq<nat>): (r: seq<nat>)
    ensures forall a :: a in r <==> a in s
    ensures Distinct(r)
  {
    if s == [] then []
    else
      var rest := WithoutRepeats(s[..|s| - 1]);
      if s[|s| - 1] in rest then rest else rest + [s[|s| - 1]]
  }

  datatype Request = Request(laborNotRequired: bool, items: seq<Item>, assignees: seq<nat>, context: Context)

  /** `listed` is the order in which the database returned the current entries. */
  function Upsert(base: Sheet, r: Request, listed: seq<nat>): Outcome {
    if exists i :: i in r.items && i.assignee !in r.assignees then BadRequest
    else if r.laborNotRequired then Done(Waive(base, WithoutRepeats(r.assignees + listed)))
    else
      match ApplyItems(base, r.items, r.context)
      case Done(cur) => RemoveRest(base, cur, listed, Named(r.items))
      case failed => failed
  }

  /** Paying one queued entry in full; `payable` tells whether the department pays for labor
      and the acting user may manage it. */
  function PayEntry(s: Sheet, a: nat, payable: bool, now: int, actor: nat): Sheet {
    if a !in s.entries || !payable || s.entries[a].status in {NotRequired, Paid} then s
    else
      var e := s.entries[a];
      var e' := e.(paid := e.hours, status := Paid, paidAt := Some(now), paidBy := Some(actor));
      s.(entries := s.entries[a := e'], log := s.log + [Row(a, Some(Snap(Some(e))), Snap(Some(e')))])
  }

  // ---------------------------------------------------------------- what a ledger promises

  /** The values the audit log says an assignee has now. */
  function Replay(log: seq<Row>, a: nat): Snapshot {
    if log == [] then ZERO
    else if log[|log| - 1].assignee == a then log[|log| - 1].after
    else Replay(log[..|log| - 1], a)
  }

  /** The payment status says how much of the accrued hours is paid; the stamp goes with PAID. */
  predicate EntryOk(waived: bool, e: Entry) {
    && e.paid <= e.hours
    && (e.status == NotRequired <==> e.rate == 0)
    && (e.status == Paid <==> e.rate > 0 && e.hours > 0 && e.paid == e.hours)
    && (e.status == Partial <==> e.rate > 0 && 0 < e.paid < e.hours)
    && (e.paidAt.Some? <==> e.status == Paid)
    && (e.paidBy.Some? <==> e.status == Paid)
    && (e.rate == 0 ==> e.paid == 0)
    && (if waived then e.hours == 0 && e.rate == 0 else e.hours > 0)
  }

  predicate EntriesOk(s: Sheet) {
    forall a :: a in s.entries ==> EntryOk(s.laborNotRequired, s.entries[a])
  }

  predicate Faithful(s: Sheet, a: nat) {
    Replay(s.log, a) == Snap(Lookup(s.entries, a))
  }

  ghost predicate LedgerOk(s: Sheet) {
    EntriesOk(s) && forall a :: Faithful(s, a)
  }

  // ---------------------------------------------------------------- one item at a time

  function Target(effect: Effect): Snapshot
    requires !effect.Reject?
  {
    if effect.Put? then Snap(Some(effect.entry)) else ZERO
  }

  /** The item would change the audited values of the row as the transaction read it. */
  predicate Changes(base: Sheet, item: Item, c: Context) {
    var effect := EffectOf(base, item, c);
    !effect.Reject? && Target(effect) != Snap(Lookup(base.entries, item.assignee))
  }

  /** Values asked for by the last item naming `a`; by default those of `base`. */
  function LastAsked(base: Sheet, items: seq<Item>, c: Context, a: nat): Snapshot {
    if items == [] then Snap(Lookup(base.entries, a))
    else
      var last := items[|items| - 1];
      var effect := EffectOf(base, last, c);
      if last.assignee == a && !effect.Reject? then Target(effect)
      else LastAsked(base, items[..|items| - 1], c, a)
  }

  /** Values asked for by the last item naming `a` that changes them. */
  function LastChange(base: Sheet, items: seq<Item>, c: Context, a: nat): Snapshot {
    if items == [] then Snap(Lookup(base.entries, a))
    else
      var last := items[|items| - 1];
      if last.assignee == a && Changes(base, last, c) then Target(EffectOf(base, last, c))
      else LastChange(base, items[..|items| - 1], c, a)
  }

  lemma ReplayAppend(log: seq<Row>, row: Row, a: nat)
    ensures Replay(log + [row], a) == if row.assignee == a then row.after else Replay(log, a)
  {
    assert (log + [row])[..|log|] == log;
  }

  lemma AuditReplays(log: seq<Row>, a: nat, previous: Option<Entry>, after: Snapshot, b: nat)
    ensures Replay(Audit(log, a, previous, after), b)
         == if a == b && !(previous.Some? && Snap(previous) == after) then after else Replay(log, b)
  {
    if !(previous.Some? && Snap(previous) == after) {
      ReplayAppend(log, Row(a, if previous.Some? then Some(Snap(previous)) else None, after), b);
    }
  }

  lemma PutIsOk(base: Sheet, item: Item, c: Context)
    requires EntriesOk(base)
    ensures var e := EffectOf(base, item, c); e.Put? ==> EntryOk(false, e.entry)
  {
  }

  /** An existing entry never looks like an absent one. */
  lemma StoredIsNotZero(base: Sheet, a: nat)
    requires EntriesOk(base) && a in base.entries
    ensures Snap(Some(base.entries[a])) != ZERO
  {
    assert EntryOk(base.laborNotRequired, base.entries[a]);
  }

  /** What one effect does to the values of `a` in the table and in the log. */
  lemma EffectTracks(base: Sheet, cur: Sheet, x: nat, effect: Effect, a: nat)
    requires ApplyEffect(base, cur, x, effect).Done?
    ensures var (after, previous) := (ApplyEffect(base, cur, x, effect).sheet, Lookup(base.entries, x));
      && Snap(Lookup(after.entries, a))
           == (if x == a && (effect.Put? || previous.Some?) then Target(effect) else Snap(Lookup(cur.entries, a)))
      && Replay(after.log, a)
           == (if x == a && !(previous.Some? && Snap(previous) == Target(effect)) then Target(effect)
               else Replay(cur.log, a))
  {
    AuditReplays(cur.log, x, Lookup(base.entries, x), Target(effect), a);
  }

  /** What the table and the log say about `a` after the items, whatever repeats they contain:
      for a row that existed the table keeps the last request and the log the last change;
      for a new row it is the other way round. */
  lemma {:induction false} ItemsTrack(base: Sheet, items: seq<Item>, c: Context, a: nat)
    requires LedgerOk(base) && ApplyItems(base, items, c).Done?
    ensures var cur := ApplyItems(base, items, c).sheet;
      && Snap(Lookup(cur.entries, a))
           == (if a in base.entries then LastAsked(base, items, c, a) else LastChange(base, items, c, a))
      && Replay(cur.log, a)
           == (if a in base.entries then LastChange(base, items, c, a) else LastAsked(base, items, c, a))
  {
    if items == [] {
      assert Faithful(base, a);
    } else {
      var n := |items| - 1;
      ItemsTrack(base, items[..n], c, a);
      var cur := ApplyItems(base, items[..n], c).sheet;
      PutIsOk(base, items[n], c);
      EffectTracks(base, cur, items[n].assignee, EffectOf(base, items[n], c), a);
    }
  }

  /** The condition a caller can check: the last item naming `a` changes the row, or none does. */
  predicate LastItemCounts(base: Sheet, items: seq<Item>, c: Context, a: nat) {
    (forall i :: i in items && i.assignee == a ==> !Changes(base, i, c)) || LastChanges(base, items, c, a)
  }

  predicate LastChanges(base: Sheet, items: seq<Item>, c: Context, a: nat) {
    if items == [] then false
    else if items[|items| - 1].assignee == a then Changes(base, items[|items| - 1], c)
    else LastChanges(base, items[..|items| - 1], c, a)
  }

  lemma {:induction false} AskedIsChanged(base: Sheet, items: seq<Item>, c: Context, a: nat)
    requires ApplyItems(base, items, c).Done?
    ensures LastChanges(base, items, c, a) ==> LastAsked(base, items, c, a) == LastChange(base, items, c, a)
    ensures !LastChanges(base, items, c, a) ==> LastAsked(base, items, c, a) == Snap(Lookup(base.entries, a))
    ensures LastChange(base, items, c, a) == Snap(Lookup(base.entries, a))
       <==> forall i :: i in items && i.assignee == a ==> !Changes(base, i, c)
  {
    if items != [] {
      var n := |items| - 1;
      AskedIsChanged(base, items[..n], c, a);
      assert items == items[..n] + [items[n]];
    }
  }

  lemma ItemsFaithful(base: Sheet, items: seq<Item>, c: Context, a: nat)
    requires LedgerOk(base) && ApplyItems(base, items, c).Done?
    ensures Faithful(ApplyItems(base, items, c).sheet, a) <==> LastItemCounts(base, items, c, a)
  {
    ItemsTrack(base, items, c, a);
    AskedIsChanged(base, items, c, a);
  }

  // ---------------------------------------------------------------- the whole request

  lemma {:induction false} ItemsEntries(base: Sheet, items: seq<Item>, c: Context, a: nat)
    requires EntriesOk(base) && ApplyItems(base, items, c).Done?
    ensures var cur := ApplyItems(base, items, c).sheet;
      && !cur.laborNotRequired
      && (if a in Named(items)
          then a in cur.entries ==> EntryOk(false, cur.entries[a]) && cur.entries[a].rate == LockedRate(base, a, c)
          else Lookup(cur.entries, a) == Lookup(base.entries, a))
  {
    if items != [] {
      var n := |items| - 1;
      ItemsEntries(base, items[..n], c, a);
      PutIsOk(base, items[n], c);
      EffectStores(base, ApplyItems(base, items[..n], c).sheet, items[n].assignee, EffectOf(base, items[n], c), a);
      assert items == items[..n] + [items[n]];
      assert Named(items) == Named(items[..n]) + {items[n].assignee};
    }
  }

  lemma EffectStores(base: Sheet, cur: Sheet, x: nat, effect: Effect, a: nat)
    requires ApplyEffect(base, cur, x, effect).Done?
    ensures var after := ApplyEffect(base, cur, x, effect).sheet;
      && after.laborNotRequired == cur.laborNotRequired
      && (x != a ==> Lookup(after.entries, a) == Lookup(cur.entries, a))
      && (x == a && a in after.entries ==> if effect.Put? then after.entries[a] == effect.entry
                                           else a in cur.entries && after.entries[a] == cur.entries[a])
  {
  }

  ghost predicate Lists(listed: seq<nat>, s: Sheet) {
    Distinct(listed) && forall a :: a in listed <==> a in s.entries
  }

  lemma {:induction false} RestTrack(base: Sheet, cur: Sheet, listed: seq<nat>, named: set<nat>, a: nat)
    requires EntriesOk(base) && Distinct(listed)
    requires forall b :: b in listed ==> b in base.entries && (b !in named ==> b in cur.entries)
    ensures var o := RemoveRest(base, cur, listed, named);
      && o.Done? && o.sheet.laborNotRequired == cur.laborNotRequired
      && (if a in listed && a !in named then Lookup(o.sheet.entries, a) == None && Replay(o.sheet.log, a) == ZERO
          else Lookup(o.sheet.entries, a) == Lookup(cur.entries, a) && Replay(o.sheet.log, a) == Replay(cur.log, a))
  {
    if listed != [] {
      var n := |listed| - 1;
      var x := listed[n];
      assert listed == listed[..n] + [x];
      RestTrack(base, cur, listed[..n], named, a);
      if x !in named {
        RestTrack(base, cur, listed[..n], named, x);
        StoredIsNotZero(base, x);
        AuditReplays(RemoveRest(base, cur, listed[..n], named).sheet.log, x, Lookup(base.entries, x), ZERO, a);
      }
    }
  }

  lemma {:induction false} WaiveTrack(base: Sheet, targets: seq<nat>, a: nat)
    requires Faithful(base, a)
    ensures var s := Waive(base, targets);
      && s.laborNotRequired && Faithful(s, a)
      && Lookup(s.entries, a) == if a in targets then Some(WAIVED) else Lookup(base.entries, a)
  {
    if targets != [] {
      var n := |targets| - 1;
      WaiveTrack(base, targets[..n], a);
      assert targets == targets[..n] + [targets[n]];
      AuditReplays(Waive(base, targets[..n]).log, targets[n], Lookup(base.entries, targets[n]), Snap(Some(WAIVED)), a);
    }
  }

  lemma {:induction false} WaiveEntries(base: Sheet, targets: seq<nat>, a: nat)
    ensures var s := Waive(base, targets);
      s.laborNotRequired && Lookup(s.entries, a) == if a in targets then Some(WAIVED) else Lookup(base.entries, a)
  {
    if targets != [] {
      WaiveEntries(base, targets[..|targets| - 1], a);
      assert targets == targets[..|targets| - 1] + [targets[|targets| - 1]];
    }
  }

  /** Every committed request, repeats or not, leaves well-formed entries behind. */
  lemma UpsertKeepsEntries(base: Sheet, r: Request, listed: seq<nat>)
    requires EntriesOk(base) && Lists(listed, base)
    ensures var o := Upsert(base, r, listed);
      o.Done? ==> EntriesOk(o.sheet) && o.sheet.laborNotRequired == r.laborNotRequired
  {
    var o := Upsert(base, r, listed);
    if o.Done? {
      if r.laborNotRequired {
        var targets := WithoutRepeats(r.assignees + listed);
        WaiveEntries(base, targets, 0);
        forall a ensures o.sheet.laborNotRequired && (a in o.sheet.entries ==> o.sheet.entries[a] == WAIVED) {
          WaiveEntries(base, targets, a);
        }
      } else {
        var cur := ApplyItems(base, r.items, r.context).sheet;
        var named := Named(r.items);
        forall b ensures !cur.laborNotRequired
          && (if b in named then b in cur.entries ==> EntryOk(false, cur.entries[b])
              else Lookup(cur.entries, b) == Lookup(base.entries, b))
        {
          ItemsEntries(base, r.items, r.context, b);
        }
        RestTrack(base, cur, listed, named, 0);
        forall a ensures !o.sheet.laborNotRequired && (a in o.sheet.entries ==> EntryOk(false, o.sheet.entries[a])) {
          RestTrack(base, cur, listed, named, a);
        }
      }
    }
  }

  /** The audit log stays exact precisely when, for every assignee, the last item naming it
      changes the stored values or none of them does. */
  lemma UpsertIsFaithful(base: Sheet, r: Request, listed: seq<nat>)
    requires LedgerOk(base) && Lists(listed, base) && Upsert(base, r, listed).Done?
    ensures (forall a :: Faithful(Upsert(base, r, listed).sheet, a))
       <==> r.laborNotRequired || forall a :: LastItemCounts(base, r.items, r.context, a)
  {
    var o := Upsert(base, r, listed);
    if r.laborNotRequired {
      forall a ensures Faithful(o.sheet, a) {
        WaiveTrack(base, WithoutRepeats(r.assignees + listed), a);
      }
    } else {
      forall a ensures Faithful(o.sheet, a) <==> LastItemCounts(base, r.items, r.context, a) {
        ItemsFaithful(base, r.items, r.context, a);
        forall b ensures b !in Named(r.items) ==>
            Lookup(ApplyItems(base, r.items, r.context).sheet.entries, b) == Lookup(base.entries, b)
        {
          ItemsEntries(base, r.items, r.context, b);
        }
        RestTrack(base, ApplyItems(base, r.items, r.context).sheet, listed, Named(r.items), a);
        assert a !in Named(r.items) ==> forall i :: i in r.items ==> i.assignee != a;
      }
    }
  }

  predicate DistinctAssignees(items: seq<Item>) {
    forall i, j :: 0 <= i < j < |items| ==> items[i].assignee != items[j].assignee
  }

  lemma {:induction false} DistinctCounts(base: Sheet, items: seq<Item>, c: Context, a: nat)
    requires DistinctAssignees(items)
    ensures LastItemCounts(base, items, c, a)
  {
    if items != [] {
      var n := |items| - 1;
      DistinctCounts(base, items[..n], c, a);
      assert items == items[..n] + [items[n]];
    }
  }

  // ---------------------------------------------------------------- what an item asks for

  predicate AsksHours(item: Item, hours: nat) {
    && (item.accrued.Some? ==> hours == Max(0, item.accrued.value))
    && (item.accrued.None? && item.hours.Some? ==> hours == Max(0, item.hours.value))
    && (item.accrued.None? && item.hours.None? ==> hours == 0)
  }

  /** A stored rate is kept while labor is required; otherwise a personal rate comes before the
      department's, and a department that does not pay has none. */
  predicate InForce(base: Sheet, a: nat, c: Context, rate: nat) {
    if a in base.entries && !base.laborNotRequired then rate == base.entries[a].rate
    else
      && (!c.paymentRequired ==> rate == 0)
      && (c.paymentRequired && a in c.personal ==> rate == Max(0, c.personal[a]))
      && (c.paymentRequired && a !in c.personal ==> rate == Max(0, c.department))
  }

  /** Explicit paid hours count as given.  A bare status means all or nothing, and with neither the
      hours paid before stay paid as far as the accrued hours reach. */
  predicate AsksPaid(base: Sheet, item: Item, hours: nat, paid: nat) {
    && (item.paid.Some? ==> paid == Max(0, item.paid.value))
    && (item.paid.None? && item.status == Some(Paid) ==> paid == hours)
    && (item.paid.None? && item.status in {Some(Unpaid), Some(NotRequired)} ==> paid == 0)
    && (item.paid.None? && item.status in {None, Some(Partial)} ==>
          paid == if item.assignee in base.entries then Min(base.entries[item.assignee].paid, hours) else 0)
  }

  /** The first payment stamp is kept as long as the entry stays PAID. */
  predicate Stamped(previous: Option<Entry>, e: Entry, c: Context) {
    if e.status != Paid then e.paidAt == None && e.paidBy == None
    else if previous.Some? && previous.value.status == Paid
    then e.paidAt == previous.value.paidAt && e.paidBy == previous.value.paidBy
    else e.paidAt == Some(c.now) && e.paidBy == Some(c.actor)
  }

  predicate Asks(base: Sheet, item: Item, c: Context, e: Entry) {
    && AsksHours(item, e.hours) && InForce(base, item.assignee, c, e.rate)
    && (if e.rate > 0 then AsksPaid(base, item, e.hours, e.paid) else e.paid == 0)
    && Stamped(Lookup(base.entries, item.assignee), e, c)
  }

  /** The item pays, in so many words, more hours than it accrues. */
  ghost predicate Overpays(item: Item) {
    item.paid.Some? && item.paid.value > 0 && forall hours: nat :: AsksHours(item, hours) ==> item.paid.value > hours
  }

  lemma AccruedIsAsked(item: Item, hours: nat)
    ensures AsksHours(item, hours) <==> hours == Accrued(item)
  {
  }

  lemma RejectedIffOverpaid(base: Sheet, item: Item, c: Context)
    ensures EffectOf(base, item, c).Reject? <==> Overpays(item)
  {
    AccruedIsAsked(item, Accrued(item));
    forall hours: nat ensures AsksHours(item, hours) <==> hours == Accrued(item) { AccruedIsAsked(item, hours); }
  }

  lemma EffectMeans(base: Sheet, item: Item, c: Context)
    requires EntriesOk(base)
    ensures match EffectOf(base, item, c)
      case Reject => true
      case Remove => AsksHours(item, 0)
      case Put(e) => e.hours > 0 && Asks(base, item, c, e)
  {
    PutIsOk(base, item, c);
    assert item.assignee in base.entries ==> EntryOk(base.laborNotRequired, base.entries[item.assignee]);
  }

  /** With distinct assignees a request always completes, keeps the ledger exact, and is refused
      exactly when an item names a stranger or asks to pay more than it accrues. */
  lemma DistinctUpsert(base: Sheet, r: Request, listed: seq<nat>)
    requires LedgerOk(base) && Lists(listed, base) && DistinctAssignees(r.items)
    ensures var o := Upsert(base, r, listed);
      && (o.Done? ==> LedgerOk(o.sheet) && o.sheet.laborNotRequired == r.laborNotRequired)
      && (o.BadRequest? <==> || (exists i :: i in r.items && i.assignee !in r.assignees)
                             || (!r.laborNotRequired && exists i :: i in r.items && Overpays(i)))
      && !o.Crash?
  {
    var o := Upsert(base, r, listed);
    UpsertKeepsEntries(base, r, listed);
    if !r.laborNotRequired {
      DistinctItemsRun(base, r.items, r.context);
      if ApplyItems(base, r.items, r.context).Done? {
        forall b ensures b !in Named(r.items) ==>
            Lookup(ApplyItems(base, r.items, r.context).sheet.entries, b) == Lookup(base.entries, b)
        {
          ItemsEntries(base, r.items, r.context, b);
        }
        RestTrack(base, ApplyItems(base, r.items, r.context).sheet, listed, Named(r.items), 0);
      }
    }
    if o.Done? {
      UpsertIsFaithful(base, r, listed);
      forall a ensures LastItemCounts(base, r.items, r.context, a) {
        DistinctCounts(base, r.items, r.context, a);
      }
    }
  }

  lemma {:induction false} DistinctItemsRun(base: Sheet, items: seq<Item>, c: Context)
    requires EntriesOk(base) && DistinctAssignees(items)
    ensures var o := ApplyItems(base, items, c);
      !o.Crash? && (o.BadRequest? <==> exists i :: i in items && Overpays(i))
  {
    if items != [] {
      var n := |items| - 1;
      RejectedIffOverpaid(base, items[n], c);
      DistinctItemsRun(base, items[..n], c);
      assert items == items[..n] + [items[n]];
      if ApplyItems(base, items[..n], c).Done? {
        ItemsEntries(base, items[..n], c, items[n].assignee);
      }
    }
  }

  lemma {:induction false} ItemsStore(base: Sheet, items: seq<Item>, c: Context, k: nat)
    requires EntriesOk(base) && DistinctAssignees(items) && ApplyItems(base, items, c).Done? && k < |items|
    ensures var effect := EffectOf(base, items[k], c);
      !effect.Reject? && Lookup(ApplyItems(base, items, c).sheet.entries, items[k].assignee)
                         == if effect.Put? then Some(effect.entry) else None
  {
    var n := |items| - 1;
    if k < n {
      ItemsStore(base, items[..n], c, k);
    } else {
      ItemsEntries(base, items[..n], c, items[n].assignee);
    }
  }

  // ---------------------------------------------------------------- when a delete hits nothing

  /** The item deletes a row the transaction read. */
  predicate Erases(base: Sheet, item: Item, c: Context) {
    item.assignee in base.entries && EffectOf(base, item, c).Remove?
  }

  /** The last item naming `a` has deleted its row. */
  predicate Gone(base: Sheet, items: seq<Item>, c: Context, a: nat) {
    if items == [] then false
    else if items[|items| - 1].assignee == a then Erases(base, items[|items| - 1], c)
    else Gone(base, items[..|items| - 1], c, a)
  }

  /** Item n deletes a row again, and no item before it is refused. */
  predicate ErasesAgain(base: Sheet, items: seq<Item>, c: Context, n: nat) {
    && n < |items|
    && Erases(base, items[n], c) && Gone(base, items[..n], c, items[n].assignee)
    && forall k :: 0 <= k < n ==> !EffectOf(base, items[k], c).Reject?
  }

  lemma {:induction false} GoneIsMissing(base: Sheet, items: seq<Item>, c: Context, a: nat)
    requires ApplyItems(base, items, c).Done? && a in base.entries
    ensures a !in ApplyItems(base, items, c).sheet.entries <==> Gone(base, items, c, a)
  {
    if items != [] { GoneIsMissing(base, items[..|items| - 1], c, a); }
  }

  lemma ErasesAgainGrows(base: Sheet, items: seq<Item>, c: Context, n: nat)
    requires items != [] && n < |items| - 1
    ensures ErasesAgain(base, items, c, n) <==> ErasesAgain(base, items[..|items| - 1], c, n)
  {
    var shorter := items[..|items| - 1];
    assert shorter[..n] == items[..n] && shorter[n] == items[n];
    assert forall k :: 0 <= k < n ==> shorter[k] == items[k];
  }

  lemma {:induction false} NoRejectBefore(base: Sheet, items: seq<Item>, c: Context)
    requires ApplyItems(base, items, c).Done?
    ensures forall k :: 0 <= k < |items| ==> !EffectOf(base, items[k], c).Reject?
  {
    if items != [] {
      NoRejectBefore(base, items[..|items| - 1], c);
      assert items == items[..|items| - 1] + [items[|items| - 1]];
    }
  }

  lemma {:induction false} RejectStops(base: Sheet, items: seq<Item>, c: Context)
    requires ApplyItems(base, items, c).BadRequest?
    ensures exists k :: 0 <= k < |items| && EffectOf(base, items[k], c).Reject?
  {
    var n := |items| - 1;
    if ApplyItems(base, items[..n], c).BadRequest? {
      RejectStops(base, items[..n], c);
      var k :| 0 <= k < n && EffectOf(base, items[..n][k], c).Reject?;
      assert items[k] == items[..n][k];
    } else {
      assert EffectOf(base, items[n], c).Reject?;
    }
  }

  /** The loop fails on a delete exactly when some item deletes a row whose last named item has
      deleted it already, before any item is refused. */
  lemma {:induction false} ItemsCrashIff(base: Sheet, items: seq<Item>, c: Context)
    ensures ApplyItems(base, items, c).Crash? <==> exists n :: ErasesAgain(base, items, c, n)
  {
    if items != [] {
      var last := |items| - 1;
      var shorter := items[..last];
      ItemsCrashIff(base, shorter, c);
      forall n: nat | n < last ensures ErasesAgain(base, items, c, n) <==> ErasesAgain(base, shorter, c, n) {
        ErasesAgainGrows(base, items, c, n);
      }
      LastCrashes(base, items, c);
    }
  }

  lemma LastCrashes(base: Sheet, items: seq<Item>, c: Context)
    requires items != []
    ensures var o := ApplyItems(base, items[..|items| - 1], c);
      && (o.Crash? ==> ApplyItems(base, items, c).Crash?)
      && (!o.Crash? ==> (ApplyItems(base, items, c).Crash? <==> ErasesAgain(base, items, c, |items| - 1)))
  {
    var n := |items| - 1;
    var o := ApplyItems(base, items[..n], c);
    if o.Done? {
      NoRejectBefore(base, items[..n], c);
      assert forall k :: 0 <= k < n ==> items[..n][k] == items[k];
      if items[n].assignee in base.entries { GoneIsMissing(base, items[..n], c, items[n].assignee); }
    } else if o.BadRequest? {
      RejectStops(base, items[..n], c);
      var k :| 0 <= k < n && EffectOf(base, items[..n][k], c).Reject?;
      assert items[k] == items[..n][k];
    }
  }

  /** A whole request fails half-way exactly when it names assignees only, asks for labor, and
      deletes one row twice in that way; the clean-up never fails. */
  lemma UpsertCrashIff(base: Sheet, r: Request, listed: seq<nat>)
    requires EntriesOk(base) && Lists(listed, base)
    ensures Upsert(base, r, listed).Crash?
       <==> && (forall i :: i in r.items ==> i.assignee in r.assignees)
            && !r.laborNotRequired
            && exists n :: ErasesAgain(base, r.items, r.context, n)
  {
    ItemsCrashIff(base, r.items, r.context);
    var o := ApplyItems(base, r.items, r.context);
    if o.Done? {
      forall b ensures b !in Named(r.items) ==> Lookup(o.sheet.entries, b) == Lookup(base.entries, b) {
        ItemsEntries(base, r.items, r.context, b);
      }
      RestTrack(base, o.sheet, listed, Named(r.items), 0);
    }
  }

  /** Clearing a stored row twice in one request is such a failure. */
  lemma ClearedTwiceCrashes()
    ensures var c := Context(true, 10000, map[], 0, 1);
      var clear := Item(7, Some(0), None, None, None);
      var entry := Entry(500, 0, 10000, Unpaid, None, None);
      var base := Sheet(false, map[7 := entry], [Row(7, None, Snap(Some(entry)))]);
      LedgerOk(base) && Upsert(base, Request(false, [clear, clear], [7], c), [7]).Crash?
  {
    var c := Context(true, 10000, map[], 0, 1);
    var clear := Item(7, Some(0), None, None, None);
    var entry := Entry(500, 0, 10000, Unpaid, None, None);
    var row := Row(7, None, Snap(Some(entry)));
    var base := Sheet(false, map[7 := entry], [row]);
    forall a ensures Faithful(base, a) {
      assert [] + [row] == [row];
      ReplayAppend([], row, a);
    }
    assert [clear, clear][..1] == [clear] && [clear][..0] == [];
    assert Erases(base, clear, c);
    assert ErasesAgain(base, [clear, clear], c, 1);
    UpsertCrashIff(base, Request(false, [clear, clear], [7], c), [7]);
  }

  /** What a committed request stores for each item, and that nothing else survives it. */
  lemma UpsertStores(base: Sheet, r: Request, listed: seq<nat>, k: nat)
    requires EntriesOk(base) && Lists(listed, base) && DistinctAssignees(r.items)
    requires !r.laborNotRequired && Upsert(base, r, listed).Done? && k < |r.items|
    ensures var (s, item) := (Upsert(base, r, listed).sheet, r.items[k]);
      && s.entries.Keys <= Named(r.items)
      && (if item.assignee in s.entries
          then s.entries[item.assignee].hours > 0 && Asks(base, item, r.context, s.entries[item.assignee])
          else AsksHours(item, 0))
  {
    var cur := ApplyItems(base, r.items, r.context).sheet;
    forall b ensures b !in Named(r.items) ==> Lookup(cur.entries, b) == Lookup(base.entries, b) {
      ItemsEntries(base, r.items, r.context, b);
    }
    forall b ensures b in Upsert(base, r, listed).sheet.entries ==> b in Named(r.items) {
      RestTrack(base, cur, listed, Named(r.items), b);
    }
    var a := r.items[k].assignee;
    assert r.items[k] in r.items && a in Named(r.items);
    RestTrack(base, cur, listed, Named(r.items), a);
    ItemsStore(base, r.items, r.context, k);
    EffectMeans(base, r.items[k], r.context);
  }

  /** Setting an appeal labor-not-required leaves exactly its assignees and its old entries, all empty. */
  lemma WaivingStores(base: Sheet, r: Request, listed: seq<nat>, a: nat)
    requires Lists(listed, base) && r.laborNotRequired && Upsert(base, r, listed).Done?
    ensures var s := Upsert(base, r, listed).sheet;
      && s.laborNotRequired
      && Lookup(s.entries, a) == if a in r.assignees || a in base.entries
                                 then Some(Entry(0, 0, 0, NotRequired, None, None)) else None
  {
    WaiveEntries(base, WithoutRepeats(r.assignees + listed), a);
  }

  /** Two items for one assignee can leave a stored entry that the log denies: hours are first
      written and then set to zero, but the second item sees no earlier row and deletes nothing. */
  lemma RepeatedAssigneeBreaksTheLog()
    ensures var c := Context(true, 10000, map[], 0, 1);
      var write := Item(7, Some(500), None, None, None);
      var clear := Item(7, Some(0), None, None, None);
      var o := Upsert(EMPTY_SHEET, Request(false, [write, clear], [7], c), []);
      && LedgerOk(EMPTY_SHEET) && o.Done?
      && 7 in o.sheet.entries && o.sheet.entries[7].hours == 500
      && Replay(o.sheet.log, 7) == ZERO
  {
    var c := Context(true, 10000, map[], 0, 1);
    var write := Item(7, Some(500), None, None, None);
    var clear := Item(7, Some(0), None, None, None);
    assert [write, clear][..1] == [write];
    assert [write][..0] == [];
    assert EffectOf(EMPTY_SHEET, write, c) == Put(Entry(500, 0, 10000, Unpaid, None, None));
    assert ApplyItems(EMPTY_SHEET, [], c) == Done(EMPTY_SHEET);
    var o := ApplyItems(EMPTY_SHEET, [write], c);
    assert o.Done? && o.sheet.entries == map[7 := Entry(500, 0, 10000, Unpaid, None, None)];
    AuditReplays(o.sheet.log, 7, None, ZERO, 7);
    assert Named([write, clear]) == {7};
  }

  lemma PayKeepsLedger(s: Sheet, a: nat, payable: bool, now: int, actor: nat)
    ensures var s' := PayEntry(s, a, payable, now, actor);
      && (EntriesOk(s) ==> EntriesOk(s'))
      && (LedgerOk(s) ==> LedgerOk(s'))
  {
    var s' := PayEntry(s, a, payable, now, actor);
    if s' != s {
      if EntriesOk(s) {
        assert EntryOk(s.laborNotRequired, s.entries[a]);
      }
      var row := s'.log[|s.log|];
      forall b ensures Faithful(s, b) ==> Faithful(s', b) {
        ReplayAppend(s.log, row, b);
      }
    }
  }

  // ---------------------------------------------------------------- all appeals, all runs

  type World = map<nat, Sheet>

  datatype Event =
    | Open(appeal: nat)
    | Labor(appeal: nat, request: Request, listed: seq<nat>)
    | MarkPaid(items: seq<(nat, nat)>, payable: set<nat>, now: int, actor: nat)

  function PayAll(w: World, items: seq<(nat, nat)>, payable: set<nat>, now: int, actor: nat): World {
    if items == [] then w
    else
      var n := |items| - 1;
      var w1 := PayAll(w, items[..n], payable, now, actor);
      var (appeal, a) := items[n];
      if appeal in w1 then w1[appeal := PayEntry(w1[appeal], a, appeal in payable, now, actor)] else w1
  }

  ghost function Step(w: World, e: Event): World {
    match e
    case Open(appeal) => if appeal in w then w else w[appeal := EMPTY_SHEET]
    case Labor(appeal, r, listed) =>
      if appeal in w && Lists(listed, w[appeal]) && Upsert(w[appeal], r, listed).Done?
      then w[appeal := Upsert(w[appeal], r, listed).sheet]
      else w
    case MarkPaid(items, payable, now, actor) => PayAll(w, items, payable, now, actor)
  }

  ghost function Run(events: seq<Event>): World {
    if events == [] then map[] else Step(Run(events[..|events| - 1]), events[|events| - 1])
  }

  lemma {:induction false} PayAllTracks(w: World, items: seq<(nat, nat)>, payable: set<nat>, now: int, actor: nat,
      x: nat)
    requires x in w
    ensures var w' := PayAll(w, items, payable, now, actor);
      && w'.Keys == w.Keys
      && w'[x].laborNotRequired == w[x].laborNotRequired && w'[x].entries.Keys == w[x].entries.Keys
      && (EntriesOk(w[x]) ==> EntriesOk(w'[x]))
      && (LedgerOk(w[x]) ==> LedgerOk(w'[x]))
      && (forall a :: a in w[x].entries ==>
            w'[x].entries[a].rate == w[x].entries[a].rate && w'[x].entries[a].hours == w[x].entries[a].hours)
  {
    if items != [] {
      var n := |items| - 1;
      PayAllTracks(w, items[..n], payable, now, actor, x);
      var w1 := PayAll(w, items[..n], payable, now, actor);
      if items[n].0 == x {
        PayKeepsLedger(w1[x], items[n].1, x in payable, now, actor);
      }
    }
  }

  /** An entry a mark-paid call is to pay: of a payable appeal, and not paid in full yet. */
  predicate Due(w: World, payable: set<nat>, x: nat, a: nat) {
    x in w && x in payable && a in w[x].entries && w[x].entries[a].status in {Unpaid, Partial}
  }

  function InFull(e: Entry, now: int, actor: nat): Entry {
    Entry(e.hours, e.hours, e.rate, Paid, Some(now), Some(actor))
  }

  /** The audit row of a payment. */
  function PaymentRow(e: Entry, a: nat): Row {
    Row(a, Some(Snapshot(e.hours, e.paid, e.status)), Snapshot(e.hours, e.hours, Paid))
  }

  lemma PayOneIs(s: Sheet, a: nat, payable: bool, now: int, actor: nat)
    ensures PayEntry(s, a, payable, now, actor)
         == if a in s.entries && payable && s.entries[a].status in {Unpaid, Partial}
            then s.(entries := s.entries[a := InFull(s.entries[a], now, actor)],
                    log := s.log + [PaymentRow(s.entries[a], a)])
            else s
  {
    if a in s.entries {
      var e := s.entries[a];
      assert e.status.Unpaid? || e.status.Partial? || e.status.Paid? || e.status.NotRequired?;
      assert e.(paid := e.hours, status := Paid, paidAt := Some(now), paidBy := Some(actor)) == InFull(e, now, actor);
    }
  }

  lemma LastIsPaid(w: World, items: seq<(nat, nat)>, payable: set<nat>, now: int, actor: nat, x: nat)
    requires items != [] && x in w
    ensures var (w1, last) := (PayAll(w, items[..|items| - 1], payable, now, actor), items[|items| - 1]);
      var w' := PayAll(w, items, payable, now, actor);
      x in w1 && x in w' && w'[x] == if last.0 == x then PayEntry(w1[x], last.1, x in payable, now, actor) else w1[x]
  {
    PayKeys(w, items[..|items| - 1], payable, now, actor);
  }

  /** A mark-paid call pays exactly the listed entries that are due, in full and with its stamp,
      however often they are listed, and leaves every other entry alone. */
  lemma {:induction false} PaysExactlyWhatIsDue(w: World, items: seq<(nat, nat)>, payable: set<nat>, now: int,
      actor: nat, x: nat, a: nat)
    requires x in w && a in w[x].entries
    ensures var (w', e) := (Step(w, MarkPaid(items, payable, now, actor)), w[x].entries[a]);
      && x in w' && a in w'[x].entries
      && w'[x].entries[a] == if (x, a) in items && Due(w, payable, x, a) then InFull(e, now, actor) else e
  {
    if items != [] {
      var n := |items| - 1;
      var w1 := PayAll(w, items[..n], payable, now, actor);
      PaysExactlyWhatIsDue(w, items[..n], payable, now, actor, x, a);
      LastIsPaid(w, items, payable, now, actor, x);
      PayOneIs(w1[x], items[n].1, x in payable, now, actor);
      ListedGrows(items, (x, a));
    }
  }

  lemma ListedGrows(items: seq<(nat, nat)>, p: (nat, nat))
    requires items != []
    ensures p in items <==> p in items[..|items| - 1] || p == items[|items| - 1]
  {
    assert items == items[..|items| - 1] + [items[|items| - 1]];
  }

  function DuePairs(w: World, items: seq<(nat, nat)>, payable: set<nat>): set<(nat, nat)> {
    set p | p in items && Due(w, payable, p.0, p.1)
  }

  /** The entries of one appeal that a mark-paid call pays. */
  function PaidIn(w: World, items: seq<(nat, nat)>, payable: set<nat>, x: nat): set<nat>
    requires x in w
  {
    set a | a in w[x].entries && (x, a) in items && Due(w, payable, x, a)
  }

  predicate Logged(before: Sheet, after: Sheet, paid: set<nat>)
    requires paid <= before.entries.Keys
  {
    && before.log <= after.log && |after.log| == |before.log| + |paid|
    && forall a :: a in paid ==> PaymentRow(before.entries[a], a) in after.log[|before.log|..]
  }

  lemma LoggedGrows(before: Sheet, after: Sheet, paid: set<nat>, a: nat)
    requires paid <= before.entries.Keys && a in before.entries && a !in paid && Logged(before, after, paid)
    ensures Logged(before, after.(log := after.log + [PaymentRow(before.entries[a], a)]), paid + {a})
  {
    var row := PaymentRow(before.entries[a], a);
    assert (after.log + [row])[|before.log|..] == after.log[|before.log|..] + [row];
  }

  lemma PaidInGrows(w: World, items: seq<(nat, nat)>, payable: set<nat>, x: nat)
    requires items != [] && x in w
    ensures var (paid, last) := (PaidIn(w, items[..|items| - 1], payable, x), items[|items| - 1]);
      PaidIn(w, items, payable, x) == if last.0 == x && Due(w, payable, x, last.1) then paid + {last.1} else paid
  {
    var last := items[|items| - 1];
    forall a: nat ensures (x, a) in items <==> (x, a) in items[..|items| - 1] || (x, a) == last {
      ListedGrows(items, (x, a));
    }
  }

  /** The log of an appeal grows by one row per entry paid, with the values before and after. */
  lemma {:induction false} PaymentsAreLogged(w: World, items: seq<(nat, nat)>, payable: set<nat>, now: int,
      actor: nat, x: nat)
    requires x in w
    ensures var w' := Step(w, MarkPaid(items, payable, now, actor));
      x in w' && Logged(w[x], w'[x], PaidIn(w, items, payable, x))
  {
    if items == [] {
      assert PaidIn(w, items, payable, x) == {};
    } else {
      var n := |items| - 1;
      PaymentsAreLogged(w, items[..n], payable, now, actor, x);
      LastIsPaid(w, items, payable, now, actor, x);
      PaidInGrows(w, items, payable, x);
      if items[n].0 == x {
        var w1, a := PayAll(w, items[..n], payable, now, actor), items[n].1;
        PayAllTracks(w, items[..n], payable, now, actor, x);
        if a in w[x].entries { PaysExactlyWhatIsDue(w, items[..n], payable, now, actor, x, a); }
        PaymentIsLogged(w[x], w1[x], PaidIn(w, items[..n], payable, x), a, x in payable, now, actor);
      }
    }
  }

  lemma PaymentIsLogged(before: Sheet, cur: Sheet, paid: set<nat>, a: nat, payable: bool, now: int, actor: nat)
    requires paid <= before.entries.Keys && Logged(before, cur, paid) && (a in cur.entries <==> a in before.entries)
    requires a in before.entries ==>
               cur.entries[a] == if a in paid then InFull(before.entries[a], now, actor) else before.entries[a]
    ensures var due := a in before.entries && payable && before.entries[a].status in {Unpaid, Partial};
      Logged(before, PayEntry(cur, a, payable, now, actor), if due then paid + {a} else paid)
  {
    PayOneIs(cur, a, payable, now, actor);
    if a in paid {
      assert paid + {a} == paid;
    } else if a in before.entries {
      LoggedGrows(before, cur, paid, a);
    }
  }

  /** Whatever the requests, repeats included, every stored entry stays well formed. */
  lemma {:induction false} RunKeepsEntries(events: seq<Event>, x: nat)
    requires x in Run(events)
    ensures EntriesOk(Run(events)[x])
  {
    if events != [] {
      var n := |events| - 1;
      var w := Run(events[..n]);
      if x in w {
        RunKeepsEntries(events[..n], x);
        match events[n]
        case Open(_) =>
        case Labor(appeal, r, listed) =>
          if appeal == x && Lists(listed, w[x]) { UpsertKeepsEntries(w[x], r, listed); }
        case MarkPaid(items, payable, now, actor) => PayAllTracks(w, items, payable, now, actor, x);
      } else if events[n].MarkPaid? {
        var e := events[n];
        PayKeys(w, e.items, e.payable, e.now, e.actor);
      }
    }
  }

  lemma {:induction false} PayKeys(w: World, items: seq<(nat, nat)>, payable: set<nat>, now: int, actor: nat)
    ensures PayAll(w, items, payable, now, actor).Keys == w.Keys
  {
    if items != [] { PayKeys(w, items[..|items| - 1], payable, now, actor); }
  }

  predicate Plain(e: Event) {
    e.Labor? ==> DistinctAssignees(e.request.items)
  }

  /** After any run of labor requests with distinct assignees and of mark-paid calls: paid never
      exceeds accrued, the stored status is the derived one, paidAt is set exactly on PAID entries,
      and replaying the audit log gives every assignee's stored values. */
  lemma {:induction false} RunKeepsLedger(events: seq<Event>, x: nat)
    requires (forall e :: e in events ==> Plain(e)) && x in Run(events)
    ensures LedgerOk(Run(events)[x])
  {
    if events != [] {
      var n := |events| - 1;
      var w := Run(events[..n]);
      assert forall e :: e in events[..n] ==> e in events;
      if x in w {
        RunKeepsLedger(events[..n], x);
        match events[n]
        case Open(_) =>
        case Labor(appeal, r, listed) =>
          assert Plain(events[n]);
          if appeal == x && Lists(listed, w[x]) { DistinctUpsert(w[x], r, listed); }
        case MarkPaid(items, payable, now, actor) => PayAllTracks(w, items, payable, now, actor, x);
      } else if events[n].MarkPaid? {
        var e := events[n];
        PayKeys(w, e.items, e.payable, e.now, e.actor);
      }
    }
  }

  /** A sheet begins empty, once, and changes only by requests that name it. */
  lemma SheetsChangeByName(w: World, e: Event, x: nat)
    ensures var w' := Step(w, e);
      && (x in w' <==> x in w || e == Open(x))
      && (x !in w && x in w' ==> w'[x] == EMPTY_SHEET)
      && (x in w && x in w' && w'[x] != w[x] ==>
            (e.Labor? && e.appeal == x) || (e.MarkPaid? && exists p :: p in e.items && p.0 == x))
  {
    if e.MarkPaid? {
      PayKeys(w, e.items, e.payable, e.now, e.actor);
      if x in w && forall p :: p in e.items ==> p.0 != x { PayElsewhere(w, e.items, e.payable, e.now, e.actor, x); }
    }
  }

  lemma {:induction false} PayElsewhere(w: World, items: seq<(nat, nat)>, payable: set<nat>, now: int, actor: nat,
      x: nat)
    requires x in w && forall p :: p in items ==> p.0 != x
    ensures x in PayAll(w, items, payable, now, actor) && PayAll(w, items, payable, now, actor)[x] == w[x]
  {
    if items != [] {
      PayElsewhere(w, items[..|items| - 1], payable, now, actor, x);
      LastIsPaid(w, items, payable, now, actor, x);
    }
  }

  // ---------------------------------------------------------------- the log is a chain

  /** What the log says an assignee had, absent meaning nothing. */
  function Earlier(log: seq<Row>, a: nat): Option<Snapshot> {
    if Replay(log, a) == ZERO then None else Some(Replay(log, a))
  }

  predicate RowChained(log: seq<Row>, k: nat) {
    k < |log| ==> log[k].before == Earlier(log[..k], log[k].assignee)
  }

  ghost predicate Chained(log: seq<Row>) {
    forall k {:trigger RowChained(log, k)} :: RowChained(log, k)
  }

  lemma ChainGrows(log: seq<Row>, row: Row)
    requires Chained(log) && row.before == Earlier(log, row.assignee)
    ensures Chained(log + [row])
  {
    forall k: nat ensures RowChained(log + [row], k) {
      assert RowChained(log, k);
      if k < |log| { assert (log + [row])[..k] == log[..k]; } else { assert (log + [row])[..|log|] == log; }
    }
  }

  lemma AuditChains(log: seq<Row>, a: nat, previous: Option<Entry>, after: Snapshot)
    requires Chained(log) && Replay(log, a) == Snap(previous) && (previous.Some? ==> Snap(previous) != ZERO)
    ensures Chained(Audit(log, a, previous, after))
  {
    if !(previous.Some? && Snap(previous) == after) {
      ChainGrows(log, Row(a, if previous.Some? then Some(Snap(previous)) else None, after));
    }
  }

  lemma {:induction false} UnnamedIsBase(base: Sheet, items: seq<Item>, c: Context, a: nat)
    requires a !in Named(items)
    ensures LastAsked(base, items, c, a) == Snap(Lookup(base.entries, a)) == LastChange(base, items, c, a)
  {
    if items != [] {
      var n := |items| - 1;
      assert items[n] in items && forall i :: i in items[..n] ==> i in items;
      UnnamedIsBase(base, items[..n], c, a);
    }
  }

  lemma {:induction false} ItemsChain(base: Sheet, items: seq<Item>, c: Context)
    requires LedgerOk(base) && Chained(base.log) && DistinctAssignees(items) && ApplyItems(base, items, c).Done?
    ensures Chained(ApplyItems(base, items, c).sheet.log)
  {
    if items != [] {
      var n := |items| - 1;
      var x, effect := items[n].assignee, EffectOf(base, items[n], c);
      ItemsChain(base, items[..n], c);
      ItemsTrack(base, items[..n], c, x);
      UnnamedIsBase(base, items[..n], c, x);
      if x in base.entries { StoredIsNotZero(base, x); }
      AuditChains(ApplyItems(base, items[..n], c).sheet.log, x, Lookup(base.entries, x), Target(effect));
    }
  }

  lemma {:induction false} RestChains(base: Sheet, cur: Sheet, listed: seq<nat>, named: set<nat>)
    requires EntriesOk(base) && Distinct(listed) && Chained(cur.log)
    requires forall b :: b in listed ==> b in base.entries && (b !in named ==> b in cur.entries)
    requires forall b :: b in listed && b !in named ==> Replay(cur.log, b) == Snap(Lookup(base.entries, b))
    ensures RemoveRest(base, cur, listed, named).Done? && Chained(RemoveRest(base, cur, listed, named).sheet.log)
  {
    if listed != [] {
      var n := |listed| - 1;
      var x := listed[n];
      LastIsNew(listed);
      RestChains(base, cur, listed[..n], named);
      if x !in named {
        RestTrack(base, cur, listed[..n], named, x);
        StoredIsNotZero(base, x);
        AuditChains(RemoveRest(base, cur, listed[..n], named).sheet.log, x, Lookup(base.entries, x), ZERO);
      }
    }
  }

  lemma {:induction false} WaiveChains(base: Sheet, targets: seq<nat>)
    requires LedgerOk(base) && Chained(base.log) && Distinct(targets)
    ensures Chained(Waive(base, targets).log)
  {
    if targets != [] {
      var n := |targets| - 1;
      LastIsNew(targets);
      WaiveChains(base, targets[..n]);
      assert Faithful(base, targets[n]);
      WaiveTrack(base, targets[..n], targets[n]);
      if targets[n] in base.entries { StoredIsNotZero(base, targets[n]); }
      AuditChains(Waive(base, targets[..n]).log, targets[n], Lookup(base.entries, targets[n]), Snap(Some(WAIVED)));
    }
  }

  lemma UpsertChains(base: Sheet, r: Request, listed: seq<nat>)
    requires LedgerOk(base) && Chained(base.log) && Lists(listed, base) && DistinctAssignees(r.items)
    requires Upsert(base, r, listed).Done?
    ensures Chained(Upsert(base, r, listed).sheet.log)
  {
    if r.laborNotRequired {
      WaiveChains(base, WithoutRepeats(r.assignees + listed));
    } else {
      var cur := ApplyItems(base, r.items, r.context).sheet;
      ItemsChain(base, r.items, r.context);
      forall b | b !in Named(r.items)
        ensures Lookup(cur.entries, b) == Lookup(base.entries, b)
        ensures Replay(cur.log, b) == Snap(Lookup(base.entries, b))
      {
        ItemsEntries(base, r.items, r.context, b);
        ItemsTrack(base, r.items, r.context, b);
        UnnamedIsBase(base, r.items, r.context, b);
      }
      RestChains(base, cur, listed, Named(r.items));
    }
  }

  lemma {:induction false} PayChains(w: World, items: seq<(nat, nat)>, payable: set<nat>, now: int, actor: nat, x: nat)
    requires x in w && LedgerOk(w[x]) && Chained(w[x].log)
    ensures x in PayAll(w, items, payable, now, actor) && Chained(PayAll(w, items, payable, now, actor)[x].log)
  {
    if items != [] {
      var n := |items| - 1;
      PayChains(w, items[..n], payable, now, actor, x);
      LastIsPaid(w, items, payable, now, actor, x);
      PayAllTracks(w, items[..n], payable, now, actor, x);
      if items[n].0 == x {
        var s, a := PayAll(w, items[..n], payable, now, actor)[x], items[n].1;
        PayOneIs(s, a, x in payable, now, actor);
        if a in s.entries {
          assert Faithful(s, a);
          StoredIsNotZero(s, a);
          ChainGrows(s.log, PaymentRow(s.entries[a], a));
        }
      }
    }
  }

  /** Over every such run the audit log is a chain: each row starts from the values the rows before
      it left for its assignee, or from nothing if they left none. */
  lemma {:induction false} LogIsAChain(events: seq<Event>, x: nat)
    requires (forall e :: e in events ==> Plain(e)) && x in Run(events)
    ensures Chained(Run(events)[x].log)
  {
    if events != [] {
      var n := |events| - 1;
      var w, e := Run(events[..n]), events[n];
      assert e in events && forall d :: d in events[..n] ==> d in events;
      SheetsChangeByName(w, e, x);
      if x in w {
        LogIsAChain(events[..n], x);
        RunKeepsLedger(events[..n], x);
        if e.MarkPaid? { PayChains(w, e.items, e.payable, e.now, e.actor, x); }
        if e.Labor? && e.appeal == x && Lists(e.listed, w[x]) && Upsert(w[x], e.request, e.listed).Done? {
          UpsertChains(w[x], e.request, e.listed);
        }
      }
    }
  }

  /** A rate stays what it was until its entry is deleted or the appeal is set labor-not-required. */
  lemma RateStaysLocked(w: World, e: Event, x: nat, a: nat)
    requires x in w && EntriesOk(w[x]) && !w[x].laborNotRequired && a in w[x].entries
    ensures var w' := Step(w, e);
      && x in w'
      && (!w'[x].laborNotRequired && a in w'[x].entries ==> w'[x].entries[a].rate == w[x].entries[a].rate)
  {
    match e
    case Open(_) =>
    case Labor(appeal, r, listed) =>
      if appeal == x && Lists(listed, w[x]) && Upsert(w[x], r, listed).Done? {
        UpsertKeepsEntries(w[x], r, listed);
        if !r.laborNotRequired {
          UpsertKeepsRate(w[x], r, listed, a);
        }
      }
    case MarkPaid(items, payable, now, actor) => PayAllTracks(w, items, payable, now, actor, x);
  }

  lemma UpsertKeepsRate(base: Sheet, r: Request, listed: seq<nat>, a: nat)
    requires EntriesOk(base) && Lists(listed, base) && !r.laborNotRequired && Upsert(base, r, listed).Done?
    requires !base.laborNotRequired && a in base.entries
    ensures var s := Upsert(base, r, listed).sheet; a in s.entries ==> s.entries[a].rate == base.entries[a].rate
  {
    var cur := ApplyItems(base, r.items, r.context).sheet;
    forall b ensures b !in Named(r.items) ==> Lookup(cur.entries, b) == Lookup(base.entries, b) {
      ItemsEntries(base, r.items, r.context, b);
    }
    ItemsEntries(base, r.items, r.context, a);
    RestTrack(base, cur, listed, Named(r.items), a);
  }

  // ---------------------------------------------------------------- the handlers' loops

  /** One more pair counts exactly when its entry is still open at that moment. */
  lemma CountDue(w: World, items: seq<(nat, nat)>, payable: set<nat>, now: int, actor: nat)
    requires items != []
    ensures var (earlier, (x, a)) := (items[..|items| - 1], items[|items| - 1]);
      |DuePairs(w, items, payable)| == |DuePairs(w, earlier, payable)|
        + One(Due(PayAll(w, earlier, payable, now, actor), payable, x, a))
  {
    var earlier, last := items[..|items| - 1], items[|items| - 1];
    PayKeys(w, earlier, payable, now, actor);
    if last.0 in w {
      PayAllTracks(w, earlier, payable, now, actor, last.0);
      if last.1 in w[last.0].entries { PaysExactlyWhatIsDue(w, earlier, payable, now, actor, last.0, last.1); }
    }
    forall p ensures p in items <==> p in earlier || p == last { ListedGrows(items, p); }
    if Due(w, payable, last.0, last.1) && last !in earlier {
      assert DuePairs(w, items, payable) == DuePairs(w, earlier, payable) + {last};
    } else {
      assert DuePairs(w, items, payable) == DuePairs(w, earlier, payable);
    }
  }

  lemma {:induction false} FailureStays(base: Sheet, items: seq<Item>, c: Context, k: nat)
    requires k <= |items| && !ApplyItems(base, items[..k], c).Done?
    ensures ApplyItems(base, items, c) == ApplyItems(base, items[..k], c)
    decreases |items|
  {
    if k == |items| {
      assert items[..k] == items;
    } else {
      assert items[..|items| - 1][..k] == items[..k];
      FailureStays(base, items[..|items| - 1], c, k);
    }
  }

  lemma {:induction false} CrashStays(base: Sheet, cur: Sheet, listed: seq<nat>, named: set<nat>, k: nat)
    requires k <= |listed| && !RemoveRest(base, cur, listed[..k], named).Done?
    ensures RemoveRest(base, cur, listed, named) == RemoveRest(base, cur, listed[..k], named)
    decreases |listed|
  {
    if k == |listed| {
      assert listed[..k] == listed;
    } else {
      assert listed[..|listed| - 1][..k] == listed[..k];
      CrashStays(base, cur, listed[..|listed| - 1], named, k);
    }
  }

  method ProcessItems(base: Sheet, items: seq<Item>, c: Context) returns (o: Outcome)
    ensures o == ApplyItems(base, items, c)
  {
    var entries: map<nat, Entry>, log := base.entries, base.log;
    for k := 0 to |items|
      invariant Done(Sheet(false, entries, log)) == ApplyItems(base, items[..k], c)
    {
      var item := items[k];
      assert items[..k + 1][..k] == items[..k];
      var previous := Lookup(base.entries, item.assignee);
      var accrued := Accrued(item);
      var paid := RequestedPaid(base, item);
      var rate := LockedRate(base, item.assignee, c);
      if paid > accrued {
        FailureStays(base, items, c, k + 1);
        return BadRequest;
      }
      if rate == 0 { paid := 0; }
      if accrued == 0 && paid == 0 {
        if previous.Some? {
          if item.assignee !in entries {
            FailureStays(base, items, c, k + 1);
            return Crash;
          }
          entries := entries - {item.assignee};
        }
        log := Audit(log, item.assignee, previous, ZERO);
      } else {
        var status := Derive(rate > 0, accrued, paid);
        var paidAt: Option<int>, paidBy: Option<nat> := None, None;
        if status == Paid {
          paidAt, paidBy := Some(c.now), Some(c.actor);
          if previous.Some? && previous.value.paidAt.Some? { paidAt := previous.value.paidAt; }
          if previous.Some? && previous.value.paidBy.Some? { paidBy := previous.value.paidBy; }
        }
        entries := entries[item.assignee := Entry(accrued, paid, rate, status, paidAt, paidBy)];
        log := Audit(log, item.assignee, previous, Snapshot(accrued, paid, status));
      }
    }
    assert items[..|items|] == items;
    o := Done(Sheet(false, entries, log));
  }

  method RemoveUnnamed(base: Sheet, cur: Sheet, listed: seq<nat>, named: set<nat>) returns (o: Outcome)
    requires forall a :: a in listed ==> a in base.entries
    ensures o == RemoveRest(base, cur, listed, named)
  {
    var entries: map<nat, Entry>, log := cur.entries, cur.log;
    for k := 0 to |listed|
      invariant Done(Sheet(cur.laborNotRequired, entries, log)) == RemoveRest(base, cur, listed[..k], named)
    {
      var a := listed[k];
      assert listed[..k + 1][..k] == listed[..k];
      if a in named { continue; }
      if a !in entries {
        CrashStays(base, cur, listed, named, k + 1);
        return Crash;
      }
      entries := entries - {a};
      log := Audit(log, a, Some(base.entries[a]), ZERO);
    }
    assert listed[..|listed|] == listed;
    o := Done(Sheet(cur.laborNotRequired, entries, log));
  }

  method WaiveTargets(base: Sheet, targets: seq<nat>) returns (s: Sheet)
    ensures s == Waive(base, targets)
  {
    var entries: map<nat, Entry>, log := base.entries, base.log;
    for k := 0 to |targets|
      invariant Sheet(true, entries, log) == Waive(base, targets[..k])
    {
      assert targets[..k + 1][..k] == targets[..k];
      entries := entries[targets[k] := WAIVED];
      log := Audit(log, targets[k], Lookup(base.entries, targets[k]), Snapshot(0, 0, NotRequired));
    }
    assert targets[..|targets|] == targets;
    s := Sheet(true, entries, log);
  }

  /** The stored sheets of all appeals. */
  class LaborDesk {
    var sheets: World

    constructor ()
      ensures sheets == Run([])
    {
      sheets := map[];
    }

    method Open(appeal: nat)
      modifies this
      ensures sheets == Step(old(sheets), Event.Open(appeal))
    {
      if appeal !in sheets { sheets := sheets[appeal := EMPTY_SHEET]; }
    }

    /** PUT /:id/labor: nothing is stored unless the whole transaction succeeds. */
    method UpsertLabor(appeal: nat, r: Request, listed: seq<nat>) returns (o: Outcome)
      requires appeal in sheets && Lists(listed, sheets[appeal])
      modifies this
      ensures o == Upsert(old(sheets)[appeal], r, listed)
      ensures sheets == Step(old(sheets), Labor(appeal, r, listed))
    {
      var base := sheets[appeal];
      for k := 0 to |r.items|
        invariant sheets == old(sheets)
        invariant forall i :: 0 <= i < k ==> r.items[i].assignee in r.assignees
      {
        if r.items[k].assignee !in r.assignees {
          assert r.items[k] in r.items;
          return BadRequest;
        }
      }
      if r.laborNotRequired {
        var s := WaiveTargets(base, WithoutRepeats(r.assignees + listed));
        o := Done(s);
      } else {
        o := ProcessItems(base, r.items, r.context);
        if o.Done? { o := RemoveUnnamed(base, o.sheet, listed, Named(r.items)); }
      }
      if o.Done? { sheets := sheets[appeal := o.sheet]; }
    }

    /** PUT /analytics/payment-queue/mark-paid; `updated` counts the entries it has paid. */
    method MarkAllPaid(items: seq<(nat, nat)>, payable: set<nat>, now: int, actor: nat) returns (updated: nat)
      modifies this
      ensures sheets == Step(old(sheets), MarkPaid(items, payable, now, actor))
      ensures updated == |DuePairs(old(sheets), items, payable)|
    {
      updated := 0;
      for k := 0 to |items|
        invariant sheets == PayAll(old(sheets), items[..k], payable, now, actor)
        invariant updated == |DuePairs(old(sheets), items[..k], payable)|
      {
        assert items[..k + 1][..k] == items[..k];
        var (appeal, a) := items[k];
        CountDue(old(sheets), items[..k + 1], payable, now, actor);
        if appeal !in sheets || a !in sheets[appeal].entries { continue; }
        var s := sheets[appeal];
        var e := s.entries[a];
        if appeal !in payable || e.status == NotRequired || e.status == Paid { continue; }
        var paid := e.(paid := e.hours, status := Paid, paidAt := Some(now), paidBy := Some(actor));
        sheets := sheets[appeal := s.(entries := s.entries[a := paid],
                                      log := s.log + [Row(a, Some(Snap(Some(e))), Snap(Some(paid)))])];
        updated := updated + 1;
      }
      assert items[..|items|] == items;
    }
  }
}
